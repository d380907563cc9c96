/** The three lifecycle handlers as functions of the control plane's
    behaviour: each takes the oracle and the log so far and gives the
    handler's status together with the log after its last request. These are
    the specifications the imperative handlers of module Lambda are proved
    against, and the lemmas below state the handlers' protocol over the log. */
module Protocol {
  import opened Outcomes
  import opened JsonModel
  import opened ControlPlane
  import opened Labels
  import opened Jobs

  /** A handler's status and the log once it has returned. */
  datatype Run<T> = Run(status: Status<T>, log: seq<Request>)

  /** One control-plane call (`sch_request`). */
  function Call(respond: Oracle, log: seq<Request>, req: Request): Run<Json>
  {
    Run(StatusOf(respond(log, req)), log + [req])
  }

  /** Hands a status that is not Done on, at another value type. */
  function Abandon<T, U>(s: Status<T>, log: seq<Request>): Run<U>
    requires !s.Done?
  {
    match s
    case Failed(e) => Run(Failed(e), log)
    case Raised => Run(Raised, log)
    case Pending => Run(Pending, log)
  }

  // ---------------------------------------------------------------- get_jobs_by_sdcId

  /** What one pipeline-list reply makes of `get_jobs_by_sdcId`. */
  function JobsFromReply(reply: Reply): Status<seq<Json>>
  {
    match reply
    case HttpError(e) => Failed(e)
    case Answer(body) =>
      match NonLocalIds(body)
      case None => Raised
      case Some(ids) => Done(ids)
  }

  /** `get_jobs_by_sdcId`: one GET of the node's pipelines. */
  function GetJobs(respond: Oracle, log: seq<Request>, cfg: Config, token: string, sdcId: string): Run<seq<Json>>
  {
    var req := PipelinesRequest(cfg, token, sdcId);
    Run(JobsFromReply(respond(log, req)), log + [req])
  }

  /** The result of the poll at position k of a log. */
  function PollAt(respond: Oracle, log: seq<Request>, k: int): Status<seq<Json>>
    requires 0 <= k < |log|
  {
    JobsFromReply(ReplyAt(respond, log, k))
  }

  // ---------------------------------------------------------------- pre_start

  /** `response[0]['fullAuthToken']`; None where Python raises. */
  function FullAuthToken(body: Json): Option<Json>
  {
    if body.Arr? && |body.items| > 0 && body.items[0].Obj? && "fullAuthToken" in body.items[0].fields
    then Some(body.items[0].fields["fullAuthToken"])
    else None
  }

  /** `pre_start`: issue one component token. */
  function PreStart(respond: Oracle, log: seq<Request>, cfg: Config, token: string): Run<Json>
  {
    var req := IssueTokenRequest(cfg, token);
    var status :=
      match respond(log, req)
      case HttpError(e) => Failed(e)
      case Answer(body) =>
        match FullAuthToken(body)
        case None => Raised
        case Some(t) => Done(t);
    Run(status, log + [req])
  }

  // ---------------------------------------------------------------- post_start

  /** One job query per label, in label order. */
  function LabelQueries(cfg: Config, token: string, labels: seq<string>): (qs: seq<Request>)
    ensures |qs| == |labels|
    ensures forall i :: 0 <= i < |labels| ==> qs[i] == JobsByLabelRequest(cfg, token, labels[i])
  {
    if labels == [] then [] else [JobsByLabelRequest(cfg, token, labels[0])] + LabelQueries(cfg, token, labels[1..])
  }

  function Prepend(ids: seq<Json>, r: Run<seq<Json>>): Run<seq<Json>>
  {
    if r.status.Done? then Run(Done(ids + r.status.value), r.log) else r
  }

  /** The label loop of `post_start`: query each label and collect the ids. */
  function QueryLabels(respond: Oracle, log: seq<Request>, cfg: Config, token: string,
                       labels: seq<string>): Run<seq<Json>>
    decreases |labels|
  {
    if labels == [] then Run(Done([]), log)
    else
      var req := JobsByLabelRequest(cfg, token, labels[0]);
      match respond(log, req)
      case HttpError(e) => Run(Failed(e), log + [req])
      case Answer(body) =>
        match LabelJobIds(body)
        case None => Run(Raised, log + [req])
        case Some(ids) => Prepend(ids, QueryLabels(respond, log + [req], cfg, token, labels[1..]))
  }

  /** The second half of `post_start`: one job query per label, then one
      balanceJobs POST of every id collected. */
  function Rebalance(respond: Oracle, log: seq<Request>, cfg: Config, token: string,
                     labels: seq<string>): Run<Json>
  {
    var query := QueryLabels(respond, log, cfg, token, labels);
    if !query.status.Done? then Abandon(query.status, query.log)
    else
      var balance := Call(respond, query.log, BalanceJobsRequest(cfg, token, query.status.value));
      if balance.status.Failed? then balance
      else Run(Done(Str("Success")), balance.log)
  }

  /** `post_start`: ACL, labels, one job query per label, rebalance. */
  function PostStart(respond: Oracle, log: seq<Request>, cfg: Config, token: string,
                     sdcId: string, labels: string, groups: string): Run<Json>
  {
    var acl := Call(respond, log, AclRequest(cfg, token, sdcId, groups));
    if acl.status.Failed? then acl
    else
      var ls := Split(labels, ',');
      var update := Call(respond, acl.log, UpdateLabelsRequest(cfg, token, sdcId, ls));
      if update.status.Failed? then update
      else Rebalance(respond, update.log, cfg, token, ls)
  }

  // ---------------------------------------------------------------- pre_stop

  /** The drain wait of `pre_stop`: poll until the node has no non-local job.
      The code polls without bound; the model polls at most `fuel` times and
      reports Pending when they are used up. */
  function Drain(respond: Oracle, log: seq<Request>, cfg: Config, token: string, sdcId: string,
                 fuel: nat): Run<()>
    decreases fuel
  {
    if fuel == 0 then Run(Pending, log)
    else
      var poll := GetJobs(respond, log, cfg, token, sdcId);
      match poll.status
      case Done(ids) =>
        if |ids| == 0 then Run(Done(()), poll.log)
        else Drain(respond, poll.log, cfg, token, sdcId, fuel - 1)
      case Failed(e) => Run(Failed(e), poll.log)
      case Raised => Run(Raised, poll.log)
      case Pending => Run(Pending, poll.log)
  }

  /** Deactivate the node's token, delete it, delete the node. */
  function Teardown(respond: Oracle, log: seq<Request>, cfg: Config, token: string, sdcId: string): Run<Json>
  {
    var deactivate := Call(respond, log, DeactivateRequest(cfg, token, sdcId));
    if deactivate.status.Failed? then deactivate
    else
      var deleteToken := Call(respond, deactivate.log, DeleteTokenRequest(cfg, token, sdcId));
      if deleteToken.status.Failed? then deleteToken
      else
        var deleteNode := Call(respond, deleteToken.log, DeleteNodeRequest(cfg, token, sdcId));
        if deleteNode.status.Failed? then deleteNode
        else Run(Done(Str("Success")), deleteNode.log)
  }

  /** The second half of `pre_stop`: wait for the drain, then tear down. */
  function Retire(respond: Oracle, log: seq<Request>, cfg: Config, token: string, sdcId: string,
                  polls: nat): Run<Json>
  {
    var drain := Drain(respond, log, cfg, token, sdcId, polls);
    if !drain.status.Done? then Abandon(drain.status, drain.log)
    else Teardown(respond, drain.log, cfg, token, sdcId)
  }

  /** `pre_stop`: collect the jobs, clear the labels, sync the jobs, drain,
      tear down. */
  function PreStop(respond: Oracle, log: seq<Request>, cfg: Config, token: string, sdcId: string,
                   polls: nat): Run<Json>
  {
    var first := GetJobs(respond, log, cfg, token, sdcId);
    if !first.status.Done? then Abandon(first.status, first.log)
    else
      var unlabel := Call(respond, first.log, UpdateLabelsRequest(cfg, token, sdcId, []));
      if unlabel.status.Failed? then unlabel
      else
        var sync := Call(respond, unlabel.log, SyncJobsRequest(cfg, token, first.status.value));
        if sync.status.Failed? then sync
        else Retire(respond, sync.log, cfg, token, sdcId, polls)
  }

  // ================================================================ protocol lemmas

  /** Sequence-prefix helper: a common head keeps a prefix a prefix. */
  lemma PrefixAfterHead(head: seq<Request>, a: seq<Request>, b: seq<Request>)
    requires a <= b
    ensures head + a <= head + b
  {
    assert (head + b)[..|head + a|] == head + b[..|a|];
  }

  /** The issued part of a log that extends `log`. */
  lemma IssuedAfter(log: seq<Request>, mid: seq<Request>, after: seq<Request>)
    requires |log| <= |mid| <= |after| && after[..|mid|] == mid && mid[..|log|] == log
    ensures after[..|log|] == log
    ensures after[|log|..] == mid[|log|..] + after[|mid|..]
  {
    assert after[..|log|] == after[..|mid|][..|log|];
  }

  /** `get_jobs_by_sdcId` issues one GET of the node's pipelines; an error of
      that GET is returned with no list; otherwise the list holds, in reply
      order, the 'jobId' of exactly the entries whose 'localPipeline' is
      false, and a falsy reply gives none. */
  lemma GetJobsProtocol(respond: Oracle, log: seq<Request>, cfg: Config, token: string, sdcId: string)
    ensures var g := GetJobs(respond, log, cfg, token, sdcId);
      var req := g.log[|log|];
      g.log == log + [PipelinesRequest(cfg, token, sdcId)] &&
      req.verb == Get && req.url == cfg.host + "/jobrunner/rest/v1/sdc/" + sdcId + "/pipelines"
    ensures var reply := respond(log, PipelinesRequest(cfg, token, sdcId));
      var g := GetJobs(respond, log, cfg, token, sdcId);
      (reply.HttpError? <==> g.status.Failed?) &&
      (reply.HttpError? ==> g.status.error == reply.error) &&
      (reply.Answer? && !Truthy(reply.body) ==> g.status == Done([])) &&
      (g.status.Done? ==> reply.body.Arr? || g.status.value == []) &&
      (g.status.Done? && reply.body.Arr? ==>
         AllDefined(reply.body.items, NonLocalEntry) &&
         g.status.value == Flatten(reply.body.items, NonLocalEntry) &&
         forall x :: x in g.status.value <==>
           exists i :: 0 <= i < |reply.body.items| && IsNonLocal(reply.body.items[i]) &&
                       reply.body.items[i].fields["jobId"] == x) &&
      (reply.Answer? && reply.body.Arr? && AllDefined(reply.body.items, NonLocalEntry) ==> g.status.Done?) &&
      (g.status.Raised? <==>
         (reply.Answer? && Truthy(reply.body) && !(reply.body.Arr? && AllDefined(reply.body.items, NonLocalEntry)))) &&
      !g.status.Pending?
  {
    var reply := respond(log, PipelinesRequest(cfg, token, sdcId));
    var g := GetJobs(respond, log, cfg, token, sdcId);
    if reply.Answer? && reply.body.Arr? {
      GatherIsFlatten(reply.body.items, NonLocalEntry);
      if g.status.Done? {
        NonLocalMembers(reply.body.items);
      }
    }
    if reply.Answer? && !Truthy(reply.body) {
      NoNonLocalJobs(reply.body);
    }
  }

  /** `pre_start` issues exactly one PUT to the organization's components
      endpoint, asking for one active 'dc' token, and returns the
      `fullAuthToken` of the first entry of the reply, or the call's error. */
  lemma PreStartProtocol(respond: Oracle, log: seq<Request>, cfg: Config, token: string)
    ensures var r := PreStart(respond, log, cfg, token);
      r.log == log + [IssueTokenRequest(cfg, token)]
    ensures var req := IssueTokenRequest(cfg, token);
      req.verb == Put && req.url == cfg.host + "/security/rest/v1/organization/" + cfg.org + "/components" &&
      req.auth == Some(token) && req.body.Obj? &&
      req.body.fields["numberOfComponents"] == Num(1) && req.body.fields["componentType"] == Str("dc")
    ensures var reply := respond(log, IssueTokenRequest(cfg, token));
      var r := PreStart(respond, log, cfg, token);
      (reply.HttpError? ==> r.status == Failed(reply.error)) &&
      (r.status.Done? <==> reply.Answer? && reply.body.Arr? && |reply.body.items| > 0 &&
                           reply.body.items[0].Obj? && "fullAuthToken" in reply.body.items[0].fields) &&
      (r.status.Done? ==> r.status.value == reply.body.items[0].fields["fullAuthToken"]) &&
      !r.status.Pending?
    ensures var r := PreStart(respond, log, cfg, token);
      StopsAtFirstError(respond, log, r.log, FailureOf(r.status))
  {
    OneRequestStops(respond, log, IssueTokenRequest(cfg, token));
  }

  /** The ids a label query's reply yields ([] when it yields none). */
  function IdsOf(reply: Reply): seq<Json>
  {
    if reply.Answer? && LabelJobIds(reply.body).Some? then LabelJobIds(reply.body).value else []
  }

  /** Which ids the label query at position k of a log yielded. */
  function IdsAt(respond: Oracle, log: seq<Request>, k: int): seq<Json>
  {
    if 0 <= k < |log| then IdsOf(ReplyAt(respond, log, k)) else []
  }

  /** The replies to the n requests from position start on (None past the
      end of the log). */
  function RepliesFrom(respond: Oracle, log: seq<Request>, start: int, n: nat): seq<Option<Reply>>
    decreases n
  {
    if n == 0 then []
    else [if 0 <= start < |log| then Some(ReplyAt(respond, log, start)) else None] +
         RepliesFrom(respond, log, start + 1, n - 1)
  }

  function IdsOfAll(replies: seq<Option<Reply>>): seq<Json>
  {
    if replies == [] then []
    else (if replies[0].Some? then IdsOf(replies[0].value) else []) + IdsOfAll(replies[1..])
  }

  /** The ids yielded by the n label queries from position start on, in order,
      without deduplication. */
  function Collected(respond: Oracle, log: seq<Request>, start: int, n: nat): seq<Json>
  {
    IdsOfAll(RepliesFrom(respond, log, start, n))
  }

  /** Collected takes the first query's ids, then the others'. */
  lemma CollectedStep(respond: Oracle, log: seq<Request>, start: int, n: nat)
    requires n > 0
    ensures Collected(respond, log, start, n) == IdsAt(respond, log, start) + Collected(respond, log, start + 1, n - 1)
  {
    var rs := RepliesFrom(respond, log, start, n);
    assert rs[1..] == RepliesFrom(respond, log, start + 1, n - 1);
  }

  /** Extending a log does not change the replies already recorded in it. */
  lemma {:induction false} RepliesOfPrefix(respond: Oracle, log: seq<Request>, longer: seq<Request>,
                                           start: nat, n: nat)
    requires |log| <= |longer| && longer[..|log|] == log
    requires start + n <= |log|
    ensures RepliesFrom(respond, longer, start, n) == RepliesFrom(respond, log, start, n)
    decreases n
  {
    if n > 0 {
      RepliesOfPrefix(respond, log, longer, start + 1, n - 1);
      ReplyAtPrefix(respond, log, longer, start);
    }
  }

  /** Collected looks only at the positions it covers. */
  lemma CollectedOfPrefix(respond: Oracle, log: seq<Request>, longer: seq<Request>, start: nat, n: nat)
    requires |log| <= |longer| && longer[..|log|] == log
    requires start + n <= |log|
    ensures Collected(respond, longer, start, n) == Collected(respond, log, start, n)
  {
    RepliesOfPrefix(respond, log, longer, start, n);
  }

  /** The label loop issues the label queries in label order, and all of them
      when it succeeds. */
  lemma {:induction false} QueryLabelsOrder(respond: Oracle, log: seq<Request>, cfg: Config,
                                            token: string, labels: seq<string>)
    ensures var q := QueryLabels(respond, log, cfg, token, labels);
      |log| <= |q.log| && q.log[..|log|] == log && q.log[|log|..] <= LabelQueries(cfg, token, labels) &&
      (q.status.Done? ==> q.log == log + LabelQueries(cfg, token, labels)) &&
      !q.status.Pending?
    decreases |labels|
  {
    var q := QueryLabels(respond, log, cfg, token, labels);
    if labels != [] {
      var req := JobsByLabelRequest(cfg, token, labels[0]);
      var log1 := log + [req];
      assert LabelQueries(cfg, token, labels) == [req] + LabelQueries(cfg, token, labels[1..]);
      assert log1[..|log|] == log;
      assert log1[|log|..] == [req];
      if respond(log, req).Answer? && LabelJobIds(respond(log, req).body).Some? {
        QueryLabelsOrder(respond, log1, cfg, token, labels[1..]);
        var rest := QueryLabels(respond, log1, cfg, token, labels[1..]);
        assert q.log == rest.log;
        IssuedAfter(log, log1, rest.log);
        PrefixAfterHead([req], rest.log[|log1|..], LabelQueries(cfg, token, labels[1..]));
      }
    }
  }

  /** A successful label loop yields the concatenation, in label order, of the
      ids each label query returned. */
  lemma {:induction false} QueryLabelsCollects(respond: Oracle, log: seq<Request>, cfg: Config,
                                               token: string, labels: seq<string>)
    ensures var q := QueryLabels(respond, log, cfg, token, labels);
      q.status.Done? ==> q.status.value == Collected(respond, q.log, |log|, |labels|)
    decreases |labels|
  {
    var q := QueryLabels(respond, log, cfg, token, labels);
    if labels != [] && q.status.Done? {
      var req := JobsByLabelRequest(cfg, token, labels[0]);
      var log1 := log + [req];
      var ids := LabelJobIds(respond(log, req).body).value;
      QueryLabelsCollects(respond, log1, cfg, token, labels[1..]);
      QueryLabelsOrder(respond, log1, cfg, token, labels[1..]);
      var rest := QueryLabels(respond, log1, cfg, token, labels[1..]);
      assert q.log == rest.log;
      assert log1[..|log|] == log;
      IssuedAfter(log, log1, rest.log);
      ReplyAtPrefix(respond, log1, rest.log, |log|);
      assert ReplyAt(respond, log1, |log|) == respond(log, req);
      assert IdsAt(respond, rest.log, |log|) == ids;
      CollectedStep(respond, rest.log, |log|, |labels|);
    }
  }

  /** The label loop stops at its first error. */
  lemma {:induction false} QueryLabelsStops(respond: Oracle, log: seq<Request>, cfg: Config,
                                            token: string, labels: seq<string>)
    ensures var q := QueryLabels(respond, log, cfg, token, labels);
      StopsAtFirstError(respond, log, q.log, FailureOf(q.status))
    decreases |labels|
  {
    if labels != [] {
      var req := JobsByLabelRequest(cfg, token, labels[0]);
      var log1 := log + [req];
      OneRequestStops(respond, log, req);
      if respond(log, req).Answer? && LabelJobIds(respond(log, req).body).Some? {
        QueryLabelsStops(respond, log1, cfg, token, labels[1..]);
        var rest := QueryLabels(respond, log1, cfg, token, labels[1..]);
        StopsAtFirstErrorChain(respond, log, log1, rest.log, FailureOf(rest.status));
      }
    } else {
      assert QueryLabels(respond, log, cfg, token, labels).log == log;
    }
  }

  /** Every request post-start may issue, in order. */
  function PostStartScript(cfg: Config, token: string, sdcId: string, groups: string,
                           labels: seq<string>, jobIds: seq<Json>): seq<Request>
  {
    [AclRequest(cfg, token, sdcId, groups), UpdateLabelsRequest(cfg, token, sdcId, labels)] +
    LabelQueries(cfg, token, labels) + [BalanceJobsRequest(cfg, token, jobIds)]
  }

  /** The label queries and the rebalance, in that order; the balanceJobs body
      is the concatenation, in label order, of the ids the queries returned. */
  lemma RebalanceOrder(respond: Oracle, log: seq<Request>, cfg: Config, token: string, labels: seq<string>)
    ensures var r := Rebalance(respond, log, cfg, token, labels);
      var tail := LabelQueries(cfg, token, labels) +
                  [BalanceJobsRequest(cfg, token, Collected(respond, r.log, |log|, |labels|))];
      |log| <= |r.log| && r.log[..|log|] == log && r.log[|log|..] <= tail &&
      (r.status.Done? ==> r.status.value == Str("Success") && r.log[|log|..] == tail) &&
      !r.status.Pending?
  {
    var r := Rebalance(respond, log, cfg, token, labels);
    var query := QueryLabels(respond, log, cfg, token, labels);
    QueryLabelsOrder(respond, log, cfg, token, labels);
    QueryLabelsCollects(respond, log, cfg, token, labels);
    var ids := Collected(respond, r.log, |log|, |labels|);
    var tail := LabelQueries(cfg, token, labels) + [BalanceJobsRequest(cfg, token, ids)];
    if query.status.Done? {
      var balReq := BalanceJobsRequest(cfg, token, query.status.value);
      assert r.log == query.log + [balReq];
      assert r.log[..|query.log|] == query.log;
      CollectedOfPrefix(respond, query.log, r.log, |log|, |labels|);
      assert r.log[..|log|] == query.log[..|log|];
      assert r.log[|log|..] == LabelQueries(cfg, token, labels) + [balReq];
    } else {
      assert r.log == query.log;
    }
  }

  /** The label queries and the rebalance stop at their first error. */
  lemma RebalanceStops(respond: Oracle, log: seq<Request>, cfg: Config, token: string, labels: seq<string>)
    ensures var r := Rebalance(respond, log, cfg, token, labels);
      StopsAtFirstError(respond, log, r.log, FailureOf(r.status))
  {
    var query := QueryLabels(respond, log, cfg, token, labels);
    QueryLabelsStops(respond, log, cfg, token, labels);
    if query.status.Done? {
      var balReq := BalanceJobsRequest(cfg, token, query.status.value);
      OneRequestStops(respond, query.log, balReq);
      StopsAtFirstErrorChain(respond, log, query.log, query.log + [balReq],
                             FailureOf(StatusOf(respond(query.log, balReq))));
    }
  }

  /** `post_start` issues the ACL POST, the updateLabels POST with the split
      labels, one GET per label in label order and one balanceJobs POST whose
      body is the concatenation, in label order, of the ids the label queries
      returned; what it issued is always a prefix of that, and full completion
      issued all of it and returns "Success". */
  lemma PostStartOrder(respond: Oracle, log: seq<Request>, cfg: Config, token: string,
                       sdcId: string, labels: string, groups: string)
    ensures var r := PostStart(respond, log, cfg, token, sdcId, labels, groups);
      var ls := Split(labels, ',');
      var script := PostStartScript(cfg, token, sdcId, groups, ls, Collected(respond, r.log, |log| + 2, |ls|));
      |log| <= |r.log| && r.log[..|log|] == log && r.log[|log|..] <= script &&
      (r.status.Done? ==> r.status.value == Str("Success") && r.log[|log|..] == script) &&
      !r.status.Pending?
  {
    var r := PostStart(respond, log, cfg, token, sdcId, labels, groups);
    var ls := Split(labels, ',');
    var aclReq := AclRequest(cfg, token, sdcId, groups);
    var updReq := UpdateLabelsRequest(cfg, token, sdcId, ls);
    var acl := Call(respond, log, aclReq);
    if acl.status.Failed? {
      assert r.log[..|log|] == log;
      assert r.log[|log|..] == [aclReq];
    } else {
      var update := Call(respond, acl.log, updReq);
      assert update.log == log + [aclReq, updReq];
      if update.status.Failed? {
        assert r.log[..|log|] == log;
        assert r.log[|log|..] == [aclReq, updReq];
      } else {
        assert update.log[..|log|] == log;
        assert update.log[|log|..] == [aclReq, updReq];
        RebalanceOrder(respond, update.log, cfg, token, ls);
        IssuedAfter(log, update.log, r.log);
        var tail := LabelQueries(cfg, token, ls) +
                    [BalanceJobsRequest(cfg, token, Collected(respond, r.log, |log| + 2, |ls|))];
        PrefixAfterHead([aclReq, updReq], r.log[|update.log|..], tail);
      }
    }
  }

  /** The last request of `after`, issued after `before`, was answered with a
      body the code cannot handle (`parse` gives None): the code raised on
      that reply. */
  predicate RaisedOnReply(respond: Oracle, before: seq<Request>, after: seq<Request>,
                          parse: Json -> Option<seq<Json>>)
  {
    |before| < |after| && ReplyAt(respond, after, |after| - 1).Answer? &&
    parse(ReplyAt(respond, after, |after| - 1).body).None?
  }

  /** The label loop raises only on a label query's reply whose entries it
      cannot read, and that query is the last request it issued. */
  lemma {:induction false} QueryLabelsRaises(respond: Oracle, log: seq<Request>, cfg: Config,
                                             token: string, labels: seq<string>)
    ensures var q := QueryLabels(respond, log, cfg, token, labels);
      q.status.Raised? ==> RaisedOnReply(respond, log, q.log, LabelJobIds) &&
                           q.log[|q.log| - 1] in LabelQueries(cfg, token, labels)
    decreases |labels|
  {
    if labels != [] {
      var req := JobsByLabelRequest(cfg, token, labels[0]);
      var log1 := log + [req];
      assert LabelQueries(cfg, token, labels) == [req] + LabelQueries(cfg, token, labels[1..]);
      assert log1[..|log|] == log;
      var reply := respond(log, req);
      if reply.Answer? && LabelJobIds(reply.body).Some? {
        QueryLabelsRaises(respond, log1, cfg, token, labels[1..]);
      }
    }
  }

  /** `post_start` raises only on a label query's reply whose entries it
      cannot read (`for job in response: job['id']`), and that query is the
      last request it issued; every other request either fails or succeeds. */
  lemma PostStartRaises(respond: Oracle, log: seq<Request>, cfg: Config, token: string,
                        sdcId: string, labels: string, groups: string)
    ensures var r := PostStart(respond, log, cfg, token, sdcId, labels, groups);
      r.status.Raised? ==> RaisedOnReply(respond, log, r.log, LabelJobIds) &&
                           r.log[|r.log| - 1] in LabelQueries(cfg, token, Split(labels, ','))
  {
    var r := PostStart(respond, log, cfg, token, sdcId, labels, groups);
    var ls := Split(labels, ',');
    var acl := Call(respond, log, AclRequest(cfg, token, sdcId, groups));
    if !acl.status.Failed? {
      var update := Call(respond, acl.log, UpdateLabelsRequest(cfg, token, sdcId, ls));
      if !update.status.Failed? {
        assert r == Rebalance(respond, update.log, cfg, token, ls);
        RebalanceRaises(respond, update.log, cfg, token, ls);
      }
    }
  }

  /** The rebalance half raises only where its label loop does. */
  lemma RebalanceRaises(respond: Oracle, log: seq<Request>, cfg: Config, token: string, labels: seq<string>)
    ensures var r := Rebalance(respond, log, cfg, token, labels);
      r.status.Raised? ==> RaisedOnReply(respond, log, r.log, LabelJobIds) &&
                           r.log[|r.log| - 1] in LabelQueries(cfg, token, labels)
  {
    QueryLabelsRaises(respond, log, cfg, token, labels);
  }

  /** `post_start` stops at its first failing request, which is the last one it
      issued, and returns that request's error; it raises only on a label
      query's reply whose entries it cannot read, which is then the last
      request issued. */
  lemma PostStartStops(respond: Oracle, log: seq<Request>, cfg: Config, token: string,
                       sdcId: string, labels: string, groups: string)
    ensures var r := PostStart(respond, log, cfg, token, sdcId, labels, groups);
      StopsAtFirstError(respond, log, r.log, FailureOf(r.status))
    ensures var r := PostStart(respond, log, cfg, token, sdcId, labels, groups);
      r.status.Raised? ==> RaisedOnReply(respond, log, r.log, LabelJobIds) &&
                           r.log[|r.log| - 1] in LabelQueries(cfg, token, Split(labels, ','))
  {
    PostStartRaises(respond, log, cfg, token, sdcId, labels, groups);
    var ls := Split(labels, ',');
    var aclReq := AclRequest(cfg, token, sdcId, groups);
    var updReq := UpdateLabelsRequest(cfg, token, sdcId, ls);
    var acl := Call(respond, log, aclReq);
    OneRequestStops(respond, log, aclReq);
    if !acl.status.Failed? {
      var update := Call(respond, acl.log, updReq);
      OneRequestStops(respond, acl.log, updReq);
      StopsAtFirstErrorChain(respond, log, acl.log, update.log, FailureOf(update.status));
      if !update.status.Failed? {
        RebalanceStops(respond, update.log, cfg, token, ls);
        var r := Rebalance(respond, update.log, cfg, token, ls);
        StopsAtFirstErrorChain(respond, log, update.log, r.log, FailureOf(r.status));
      }
    }
  }

  /** n polls of the node's pipelines. */
  function Polls(cfg: Config, token: string, sdcId: string, n: nat): seq<Request>
  {
    seq(n, _ => PipelinesRequest(cfg, token, sdcId))
  }

  lemma PollsCons(cfg: Config, token: string, sdcId: string, n: nat)
    ensures [PipelinesRequest(cfg, token, sdcId)] + Polls(cfg, token, sdcId, n) == Polls(cfg, token, sdcId, n + 1)
  {
  }

  /** The drain wait only polls; every poll but the last found jobs still
      running; and the last poll decides the outcome: an empty list means
      drained, an error or a raise ends the wait with it, and a non-empty list
      means the polls ran out. */
  lemma DrainProtocol(respond: Oracle, log: seq<Request>, cfg: Config, token: string,
                      sdcId: string, fuel: nat)
    ensures var d := Drain(respond, log, cfg, token, sdcId, fuel);
      |log| <= |d.log| && |d.log| - |log| <= fuel && d.log == log + Polls(cfg, token, sdcId, |d.log| - |log|)
    ensures var d := Drain(respond, log, cfg, token, sdcId, fuel);
      forall k :: |log| <= k < |d.log| - 1 ==>
        PollAt(respond, d.log, k).Done? && PollAt(respond, d.log, k).value != []
    ensures var d := Drain(respond, log, cfg, token, sdcId, fuel);
      |log| < |d.log| ==> Decides(PollAt(respond, d.log, |d.log| - 1), d.status)
    ensures var d := Drain(respond, log, cfg, token, sdcId, fuel);
      (d.status.Pending? ==> |d.log| - |log| == fuel) && (|d.log| == |log| ==> d.status.Pending?)
    ensures var d := Drain(respond, log, cfg, token, sdcId, fuel);
      StopsAtFirstError(respond, log, d.log, FailureOf(d.status))
  {
    DrainLog(respond, log, cfg, token, sdcId, fuel);
    DrainPolls(respond, log, cfg, token, sdcId, fuel);
    DrainLastPoll(respond, log, cfg, token, sdcId, fuel);
    DrainStops(respond, log, cfg, token, sdcId, fuel);
  }

  /** The drain wait issues nothing but polls, at most `fuel` of them, and all
      of them when the polls run out. */
  lemma {:induction false} DrainLog(respond: Oracle, log: seq<Request>, cfg: Config, token: string,
                                    sdcId: string, fuel: nat)
    ensures var d := Drain(respond, log, cfg, token, sdcId, fuel);
      |log| <= |d.log| && |d.log| - |log| <= fuel && d.log == log + Polls(cfg, token, sdcId, |d.log| - |log|) &&
      (d.status.Pending? ==> |d.log| - |log| == fuel) && (|d.log| == |log| ==> d.status.Pending?)
    decreases fuel
  {
    var d := Drain(respond, log, cfg, token, sdcId, fuel);
    if fuel == 0 {
      assert d.log == log + Polls(cfg, token, sdcId, 0);
    } else {
      var req := PipelinesRequest(cfg, token, sdcId);
      var log1 := log + [req];
      var poll := GetJobs(respond, log, cfg, token, sdcId);
      if poll.status.Done? && |poll.status.value| != 0 {
        DrainLog(respond, log1, cfg, token, sdcId, fuel - 1);
        var rest := Drain(respond, log1, cfg, token, sdcId, fuel - 1);
        PollsCons(cfg, token, sdcId, |rest.log| - |log1|);
      } else {
        PollsCons(cfg, token, sdcId, 0);
      }
    }
  }

  /** How the last poll of the drain wait decides its outcome: an empty list
      means drained, a non-empty one that the polls ran out, and an error or a
      raise ends the wait with it. */
  predicate Decides(poll: Status<seq<Json>>, outcome: Status<()>)
  {
    match poll
    case Done(ids) => (ids == [] ==> outcome == Done(())) && (ids != [] ==> outcome == Pending)
    case Failed(e) => outcome == Failed(e)
    case Raised => outcome == Raised
    case Pending => false
  }

  /** Every poll of the drain wait but the last found jobs. */
  lemma {:induction false} DrainPolls(respond: Oracle, log: seq<Request>, cfg: Config, token: string,
                                      sdcId: string, fuel: nat)
    ensures var d := Drain(respond, log, cfg, token, sdcId, fuel);
      |log| <= |d.log| && d.log[..|log|] == log &&
      forall k :: |log| <= k < |d.log| - 1 ==>
        PollAt(respond, d.log, k).Done? && PollAt(respond, d.log, k).value != []
    decreases fuel
  {
    if fuel > 0 {
      var req := PipelinesRequest(cfg, token, sdcId);
      var log1 := log + [req];
      var poll := GetJobs(respond, log, cfg, token, sdcId);
      assert log1[..|log|] == log;
      if poll.status.Done? && |poll.status.value| != 0 {
        assert PollAt(respond, log1, |log|) == poll.status;
        DrainPolls(respond, log1, cfg, token, sdcId, fuel - 1);
        var rest := Drain(respond, log1, cfg, token, sdcId, fuel - 1);
        IssuedAfter(log, log1, rest.log);
        ReplyAtPrefix(respond, log1, rest.log, |log|);
      }
    }
  }

  /** The last poll of the drain wait decides its outcome. */
  lemma {:induction false} DrainLastPoll(respond: Oracle, log: seq<Request>, cfg: Config, token: string,
                                         sdcId: string, fuel: nat)
    ensures var d := Drain(respond, log, cfg, token, sdcId, fuel);
      |log| < |d.log| ==> Decides(PollAt(respond, d.log, |d.log| - 1), d.status)
    decreases fuel
  {
    if fuel > 0 {
      var req := PipelinesRequest(cfg, token, sdcId);
      var log1 := log + [req];
      var poll := GetJobs(respond, log, cfg, token, sdcId);
      assert log1[..|log|] == log;
      assert PollAt(respond, log1, |log|) == poll.status;
      if poll.status.Done? && |poll.status.value| != 0 {
        DrainLastPoll(respond, log1, cfg, token, sdcId, fuel - 1);
        DrainLog(respond, log1, cfg, token, sdcId, fuel - 1);
      }
    }
  }

  /** The drain wait stops at its first error. */
  lemma {:induction false} DrainStops(respond: Oracle, log: seq<Request>, cfg: Config, token: string,
                                      sdcId: string, fuel: nat)
    ensures var d := Drain(respond, log, cfg, token, sdcId, fuel);
      StopsAtFirstError(respond, log, d.log, FailureOf(d.status))
    decreases fuel
  {
    if fuel > 0 {
      var req := PipelinesRequest(cfg, token, sdcId);
      var log1 := log + [req];
      var poll := GetJobs(respond, log, cfg, token, sdcId);
      OneRequestStops(respond, log, req);
      if poll.status.Done? && |poll.status.value| != 0 {
        DrainStops(respond, log1, cfg, token, sdcId, fuel - 1);
        var rest := Drain(respond, log1, cfg, token, sdcId, fuel - 1);
        StopsAtFirstErrorChain(respond, log, log1, rest.log, FailureOf(rest.status));
      } else {
        assert FailureOf(StatusOf(respond(log, req))) == FailureOf(poll.status);
      }
    }
  }

  /** Once the drain wait has ended on its own, more polls change nothing. */
  lemma {:induction false} DrainFuelMonotone(respond: Oracle, log: seq<Request>, cfg: Config, token: string,
                                             sdcId: string, fuel: nat, more: nat)
    requires !Drain(respond, log, cfg, token, sdcId, fuel).status.Pending?
    requires fuel <= more
    ensures Drain(respond, log, cfg, token, sdcId, more) == Drain(respond, log, cfg, token, sdcId, fuel)
    decreases fuel
  {
    var poll := GetJobs(respond, log, cfg, token, sdcId);
    if poll.status.Done? && |poll.status.value| != 0 {
      DrainFuelMonotone(respond, poll.log, cfg, token, sdcId, fuel - 1, more - 1);
    }
  }

  // ---------------------------------------------------------------- a drain that shrinks

  /** A pipeline list of n non-local jobs. */
  function Running(n: nat): Json
  {
    Arr(seq(n, _ => Obj(map["localPipeline" := Bool(false), "jobId" := Str("job")])))
  }

  /** A control plane whose node runs 3, 2, 2 and then 0 non-local jobs on
      successive requests. */
  function Shrinking(history: seq<Request>, req: Request): Reply
  {
    var k := |history|;
    Answer(Running(if k == 0 then 3 else if k <= 2 then 2 else 0))
  }

  lemma {:induction false} RunningIds(n: nat)
    ensures NonLocalIds(Running(n)) == Some(seq(n, _ => Str("job")))
  {
    if n > 0 {
      RunningIds(n - 1);
      var items := Running(n).items;
      assert items[..n - 1] == Running(n - 1).items;
      assert Gather(items[..n - 1], NonLocalEntry) == Some(seq(n - 1, _ => Str("job")));
      assert NonLocalEntry(items[n - 1]) == Some([Str("job")]);
      assert seq(n - 1, _ => Str("job")) + [Str("job")] == seq(n, _ => Str("job"));
      assert Truthy(Running(n));
      assert Gather(items, NonLocalEntry) == Some(seq(n, _ => Str("job")));
    } else {
      assert seq(0, _ => Str("job")) == [];
    }
  }

  /** Polls that see 3, 2, 2 and 0 jobs: the wait completes after exactly four
      polls, and a bound of three polls is not enough. */
  lemma DrainExample(cfg: Config, token: string, sdcId: string)
    ensures Drain(Shrinking, [], cfg, token, sdcId, 4) == Run(Done(()), Polls(cfg, token, sdcId, 4))
    ensures Drain(Shrinking, [], cfg, token, sdcId, 3).status == Pending
  {
    var req := PipelinesRequest(cfg, token, sdcId);
    RunningIds(3);
    RunningIds(2);
    RunningIds(0);
    var p1 := [req];
    var p2 := [req, req];
    var p3 := [req, req, req];
    var p4 := [req, req, req, req];
    assert Drain(Shrinking, p3, cfg, token, sdcId, 1) == Run(Done(()), p4);
    assert Drain(Shrinking, p3, cfg, token, sdcId, 0) == Run(Pending, p3);
    assert Drain(Shrinking, p2, cfg, token, sdcId, 2) == Run(Done(()), p4);
    assert Drain(Shrinking, p1, cfg, token, sdcId, 3) == Run(Done(()), p4);
    assert Polls(cfg, token, sdcId, 4) == p4;
  }

  function TeardownRequests(cfg: Config, token: string, sdcId: string): seq<Request>
  {
    [DeactivateRequest(cfg, token, sdcId), DeleteTokenRequest(cfg, token, sdcId), DeleteNodeRequest(cfg, token, sdcId)]
  }

  /** The teardown issues deactivate, delete and the node DELETE in that order
      and stops at the first error. */
  lemma TeardownProtocol(respond: Oracle, log: seq<Request>, cfg: Config, token: string, sdcId: string)
    ensures var t := Teardown(respond, log, cfg, token, sdcId);
      |log| < |t.log| && t.log[..|log|] == log && t.log[|log|..] <= TeardownRequests(cfg, token, sdcId) &&
      (t.status.Done? ==> t.log[|log|..] == TeardownRequests(cfg, token, sdcId) && t.status.value == Str("Success")) &&
      (t.status.Failed? || t.status.Done?) &&
      StopsAtFirstError(respond, log, t.log, FailureOf(t.status))
    ensures var reqs := TeardownRequests(cfg, token, sdcId);
      reqs[0].verb == Post && reqs[0].url == cfg.host + "/security/rest/v1/organization/" + cfg.org + "/components/deactivate" &&
      reqs[1].verb == Post && reqs[1].url == cfg.host + "/security/rest/v1/organization/" + cfg.org + "/components/delete" &&
      reqs[0].body == Arr([Str(sdcId)]) && reqs[1].body == Arr([Str(sdcId)]) &&
      reqs[2].verb == Delete && reqs[2].url == cfg.host + "/jobrunner/rest/v1/sdc/" + sdcId
  {
    TeardownOrder(respond, log, cfg, token, sdcId);
    TeardownStops(respond, log, cfg, token, sdcId);
  }

  lemma TeardownOrder(respond: Oracle, log: seq<Request>, cfg: Config, token: string, sdcId: string)
    ensures var t := Teardown(respond, log, cfg, token, sdcId);
      |log| < |t.log| && t.log[..|log|] == log && t.log[|log|..] <= TeardownRequests(cfg, token, sdcId) &&
      (t.status.Done? ==> t.log[|log|..] == TeardownRequests(cfg, token, sdcId) && t.status.value == Str("Success")) &&
      (t.status.Failed? || t.status.Done?)
  {
    var reqs := TeardownRequests(cfg, token, sdcId);
    var t := Teardown(respond, log, cfg, token, sdcId);
    assert t.log[..|log|] == log;
    var deactivate := Call(respond, log, reqs[0]);
    if deactivate.status.Failed? {
      assert t.log[|log|..] == reqs[..1];
    } else {
      var deleteToken := Call(respond, deactivate.log, reqs[1]);
      if deleteToken.status.Failed? {
        assert t.log[|log|..] == reqs[..2];
      } else {
        assert t.log[|log|..] == reqs;
      }
    }
  }

  lemma TeardownStops(respond: Oracle, log: seq<Request>, cfg: Config, token: string, sdcId: string)
    ensures var t := Teardown(respond, log, cfg, token, sdcId);
      StopsAtFirstError(respond, log, t.log, FailureOf(t.status))
  {
    var reqs := TeardownRequests(cfg, token, sdcId);
    var deactivate := Call(respond, log, reqs[0]);
    OneRequestStops(respond, log, reqs[0]);
    if !deactivate.status.Failed? {
      var deleteToken := Call(respond, deactivate.log, reqs[1]);
      OneRequestStops(respond, deactivate.log, reqs[1]);
      StopsAtFirstErrorChain(respond, log, deactivate.log, deleteToken.log, FailureOf(deleteToken.status));
      if !deleteToken.status.Failed? {
        var deleteNode := Call(respond, deleteToken.log, reqs[2]);
        OneRequestStops(respond, deleteToken.log, reqs[2]);
        StopsAtFirstErrorChain(respond, log, deleteToken.log, deleteNode.log, FailureOf(deleteNode.status));
      }
    }
  }

  /** Extending a log keeps the polls already recorded in it. */
  lemma PollsSurvive(respond: Oracle, log: seq<Request>, longer: seq<Request>)
    requires |log| <= |longer| && longer[..|log|] == log
    ensures forall k :: 0 <= k < |log| ==> PollAt(respond, longer, k) == PollAt(respond, log, k)
  {
    forall k | 0 <= k < |log|
      ensures PollAt(respond, longer, k) == PollAt(respond, log, k)
    {
      ReplyAtPrefix(respond, log, longer, k);
    }
  }

  /** The number of polls the drain wait of `Retire` issues. */
  function PollCount(respond: Oracle, log: seq<Request>, cfg: Config, token: string, sdcId: string,
                     polls: nat): int
  {
    |Drain(respond, log, cfg, token, sdcId, polls).log| - |log|
  }

  /** The order of the drain wait and the teardown with n polls: what was
      issued is a prefix of the polls followed by the teardown; every poll but
      the last found jobs; nothing of the teardown is issued unless the last
      poll found none; and completion issued all of it. */
  predicate RetiresInOrder(respond: Oracle, log: seq<Request>, r: Run<Json>, cfg: Config, token: string,
                           sdcId: string, polls: nat, n: nat)
    requires |log| <= |r.log|
  {
    var issued := r.log[|log|..];
    var script := Polls(cfg, token, sdcId, n) + TeardownRequests(cfg, token, sdcId);
    n <= polls && issued <= script &&
    (forall k :: |log| <= k < |log| + n - 1 && k < |r.log| ==>
       PollAt(respond, r.log, k).Done? && PollAt(respond, r.log, k).value != []) &&
    (|issued| > n ==> 1 <= n && PollAt(respond, r.log, |log| + n - 1) == Done([])) &&
    (r.status.Done? ==> issued == script && r.status.value == Str("Success"))
  }

  lemma RetireOrder(respond: Oracle, log: seq<Request>, cfg: Config, token: string, sdcId: string, polls: nat)
    ensures var r := Retire(respond, log, cfg, token, sdcId, polls);
      var n := PollCount(respond, log, cfg, token, sdcId, polls);
      |log| <= |r.log| && r.log[..|log|] == log && 0 <= n &&
      RetiresInOrder(respond, log, r, cfg, token, sdcId, polls, n)
  {
    var drain := Drain(respond, log, cfg, token, sdcId, polls);
    if drain.status.Done? {
      RetireTeardownOrder(respond, log, cfg, token, sdcId, polls);
      assert Retire(respond, log, cfg, token, sdcId, polls) == Teardown(respond, drain.log, cfg, token, sdcId);
    } else {
      RetireAbandonOrder(respond, log, cfg, token, sdcId, polls);
      assert Retire(respond, log, cfg, token, sdcId, polls) == Abandon(drain.status, drain.log);
    }
  }

  /** The case of `RetireOrder` where the drain wait ended without the node
      drained: nothing of the teardown is issued. */
  lemma RetireAbandonOrder(respond: Oracle, log: seq<Request>, cfg: Config, token: string, sdcId: string,
                           polls: nat)
    requires !Drain(respond, log, cfg, token, sdcId, polls).status.Done?
    ensures var d := Drain(respond, log, cfg, token, sdcId, polls);
      var r := Abandon<(), Json>(d.status, d.log);
      |log| <= |d.log| && r.log[..|log|] == log &&
      RetiresInOrder(respond, log, r, cfg, token, sdcId, polls, |d.log| - |log|)
  {
    var drain := Drain(respond, log, cfg, token, sdcId, polls);
    DrainLog(respond, log, cfg, token, sdcId, polls);
    DrainPolls(respond, log, cfg, token, sdcId, polls);
    var polled := Polls(cfg, token, sdcId, |drain.log| - |log|);
    assert drain.log[|log|..] == polled;
    PrefixAfterHead(polled, [], TeardownRequests(cfg, token, sdcId));
    assert polled + [] == polled;
  }

  /** The case of `RetireOrder` where the drain wait ended with the node drained. */
  lemma RetireTeardownOrder(respond: Oracle, log: seq<Request>, cfg: Config, token: string, sdcId: string,
                            polls: nat)
    requires Drain(respond, log, cfg, token, sdcId, polls).status.Done?
    ensures var d := Drain(respond, log, cfg, token, sdcId, polls);
      var t := Teardown(respond, d.log, cfg, token, sdcId);
      |log| <= |d.log| && |log| <= |t.log| && t.log[..|log|] == log &&
      RetiresInOrder(respond, log, t, cfg, token, sdcId, polls, |d.log| - |log|)
  {
    var drain := Drain(respond, log, cfg, token, sdcId, polls);
    DrainDone(respond, log, cfg, token, sdcId, polls);
    TeardownOrder(respond, drain.log, cfg, token, sdcId);
    InOrderAfterDrain(respond, log, drain.log, Teardown(respond, drain.log, cfg, token, sdcId),
                      cfg, token, sdcId, polls, |drain.log| - |log|);
  }

  /** `drained` is `log` followed by n polls, of which every one but the last
      found jobs and the last found none. */
  predicate PolledUntilDrained(respond: Oracle, log: seq<Request>, drained: seq<Request>,
                               cfg: Config, token: string, sdcId: string, n: nat)
  {
    1 <= n && drained == log + Polls(cfg, token, sdcId, n) &&
    (forall k :: |log| <= k < |drained| - 1 ==>
      PollAt(respond, drained, k).Done? && PollAt(respond, drained, k).value != []) &&
    PollAt(respond, drained, |drained| - 1) == Done([])
  }

  /** A drain wait that ended with the node drained polled until it was. */
  lemma DrainDone(respond: Oracle, log: seq<Request>, cfg: Config, token: string, sdcId: string, polls: nat)
    requires Drain(respond, log, cfg, token, sdcId, polls).status.Done?
    ensures var d := Drain(respond, log, cfg, token, sdcId, polls);
      |log| < |d.log| && |d.log| - |log| <= polls &&
      PolledUntilDrained(respond, log, d.log, cfg, token, sdcId, |d.log| - |log|)
  {
    DrainLog(respond, log, cfg, token, sdcId, polls);
    DrainPolls(respond, log, cfg, token, sdcId, polls);
    DrainLastPoll(respond, log, cfg, token, sdcId, polls);
  }

  /** The drain-and-teardown order follows from the order of the drain wait
      and the order of the teardown that comes after it. */
  lemma InOrderAfterDrain(respond: Oracle, log: seq<Request>, drained: seq<Request>, t: Run<Json>,
                          cfg: Config, token: string, sdcId: string, polls: nat, n: nat)
    requires n <= polls && PolledUntilDrained(respond, log, drained, cfg, token, sdcId, n)
    requires |drained| < |t.log| && t.log[..|drained|] == drained &&
      t.log[|drained|..] <= TeardownRequests(cfg, token, sdcId) &&
      (t.status.Done? ==> t.log[|drained|..] == TeardownRequests(cfg, token, sdcId) && t.status.value == Str("Success"))
    ensures |log| <= |t.log| && t.log[..|log|] == log
    ensures RetiresInOrder(respond, log, t, cfg, token, sdcId, polls, n)
  {
    var polled := Polls(cfg, token, sdcId, n);
    assert drained[..|log|] == log;
    assert drained[|log|..] == polled;
    IssuedAfter(log, drained, t.log);
    PrefixAfterHead(polled, t.log[|drained|..], TeardownRequests(cfg, token, sdcId));
    PollsSurvive(respond, drained, t.log);
  }

  lemma RetireStops(respond: Oracle, log: seq<Request>, cfg: Config, token: string, sdcId: string, polls: nat)
    ensures var r := Retire(respond, log, cfg, token, sdcId, polls);
      StopsAtFirstError(respond, log, r.log, FailureOf(r.status))
  {
    var drain := Drain(respond, log, cfg, token, sdcId, polls);
    DrainProtocol(respond, log, cfg, token, sdcId, polls);
    if drain.status.Done? {
      var t := Teardown(respond, drain.log, cfg, token, sdcId);
      TeardownProtocol(respond, drain.log, cfg, token, sdcId);
      StopsAtFirstErrorChain(respond, log, drain.log, t.log, FailureOf(t.status));
    }
  }

  /** Every request pre-stop issues when its drain wait ends after n polls, in
      order: the initial job query, the updateLabels POST with no labels, the
      syncJobs POST of the initially collected ids, the polls, the teardown. */
  function StopScript(cfg: Config, token: string, sdcId: string, initial: seq<Json>, n: nat): seq<Request>
  {
    [PipelinesRequest(cfg, token, sdcId), UpdateLabelsRequest(cfg, token, sdcId, []),
     SyncJobsRequest(cfg, token, initial)] +
    Polls(cfg, token, sdcId, n) + TeardownRequests(cfg, token, sdcId)
  }

  /** The non-local job ids of the node the initial query found. */
  function InitialIds(respond: Oracle, log: seq<Request>, cfg: Config, token: string, sdcId: string): seq<Json>
  {
    var s := GetJobs(respond, log, cfg, token, sdcId).status;
    if s.Done? then s.value else []
  }

  /** The pre-stop order with n polls: what was issued is a prefix of the
      script; the syncJobs body is what the initial query found; every poll but
      the last found jobs; nothing of the teardown is issued unless the last
      poll found none; and completion issued the whole script. */
  predicate StopsInOrder(respond: Oracle, log: seq<Request>, r: Run<Json>, cfg: Config, token: string,
                         sdcId: string, polls: nat, n: nat)
    requires |log| <= |r.log|
  {
    var issued := r.log[|log|..];
    var script := StopScript(cfg, token, sdcId, InitialIds(respond, log, cfg, token, sdcId), n);
    n <= polls && issued <= script &&
    (|issued| > 1 ==> GetJobs(respond, log, cfg, token, sdcId).status.Done?) &&
    (forall k :: |log| + 3 <= k < |log| + 2 + n && k < |r.log| ==>
       PollAt(respond, r.log, k).Done? && PollAt(respond, r.log, k).value != []) &&
    (|issued| > 3 + n ==> 1 <= n && PollAt(respond, r.log, |log| + 2 + n) == Done([])) &&
    (r.status.Done? ==> issued == script && r.status.value == Str("Success"))
  }

  /** `pre_stop` follows its order. */
  lemma PreStopOrder(respond: Oracle, log: seq<Request>, cfg: Config, token: string,
                     sdcId: string, polls: nat)
    ensures var r := PreStop(respond, log, cfg, token, sdcId, polls);
      |log| <= |r.log| && r.log[..|log|] == log &&
      exists n: nat :: StopsInOrder(respond, log, r, cfg, token, sdcId, polls, n)
  {
    var r := PreStop(respond, log, cfg, token, sdcId, polls);
    var first := GetJobs(respond, log, cfg, token, sdcId);
    var pollReq := PipelinesRequest(cfg, token, sdcId);
    var initial := InitialIds(respond, log, cfg, token, sdcId);
    if !first.status.Done? {
      assert r.log[..|log|] == log;
      assert r.log[|log|..] == [pollReq];
      assert StopsInOrder(respond, log, r, cfg, token, sdcId, polls, 0);
    } else {
      var unlabelReq := UpdateLabelsRequest(cfg, token, sdcId, []);
      var unlabel := Call(respond, first.log, unlabelReq);
      if unlabel.status.Failed? {
        assert r.log[..|log|] == log;
        assert r.log[|log|..] == [pollReq, unlabelReq];
        assert StopsInOrder(respond, log, r, cfg, token, sdcId, polls, 0);
      } else {
        var syncReq := SyncJobsRequest(cfg, token, initial);
        var sync := Call(respond, unlabel.log, syncReq);
        var head := [pollReq, unlabelReq, syncReq];
        assert sync.log == log + head;
        assert sync.log[..|log|] == log;
        if sync.status.Failed? {
          assert r.log[|log|..] == head;
          assert StopsInOrder(respond, log, r, cfg, token, sdcId, polls, 0);
        } else {
          PreStopRetireOrder(respond, log, cfg, token, sdcId, polls);
        }
      }
    }
  }

  /** The case of `PreStopOrder` where the first three requests succeeded. */
  lemma PreStopRetireOrder(respond: Oracle, log: seq<Request>, cfg: Config, token: string,
                           sdcId: string, polls: nat)
    requires var first := GetJobs(respond, log, cfg, token, sdcId);
      var unlabelReq := UpdateLabelsRequest(cfg, token, sdcId, []);
      first.status.Done? && respond(first.log, unlabelReq).Answer? &&
      respond(first.log + [unlabelReq], SyncJobsRequest(cfg, token, first.status.value)).Answer?
    ensures var r := PreStop(respond, log, cfg, token, sdcId, polls);
      |log| <= |r.log| && r.log[..|log|] == log &&
      exists n: nat :: StopsInOrder(respond, log, r, cfg, token, sdcId, polls, n)
  {
    var initial := InitialIds(respond, log, cfg, token, sdcId);
    var pollReq := PipelinesRequest(cfg, token, sdcId);
    var unlabelReq := UpdateLabelsRequest(cfg, token, sdcId, []);
    var syncReq := SyncJobsRequest(cfg, token, initial);
    var head := [pollReq, unlabelReq, syncReq];
    var base := log + head;
    assert log + [pollReq] + [unlabelReq] == log + [pollReq, unlabelReq];
    assert log + [pollReq, unlabelReq] + [syncReq] == base;
    var r := PreStop(respond, log, cfg, token, sdcId, polls);
    assert r == Retire(respond, base, cfg, token, sdcId, polls);
    RetireOrder(respond, base, cfg, token, sdcId, polls);
    var n: nat := PollCount(respond, base, cfg, token, sdcId, polls);
    InOrderAfterHead(respond, log, r, cfg, token, sdcId, polls, n);
  }

  /** The pre-stop order follows from the order of the drain wait and the
      teardown once the first three requests have been issued. */
  lemma InOrderAfterHead(respond: Oracle, log: seq<Request>, r: Run<Json>, cfg: Config, token: string,
                         sdcId: string, polls: nat, n: nat)
    requires GetJobs(respond, log, cfg, token, sdcId).status.Done?
    requires var head := [PipelinesRequest(cfg, token, sdcId), UpdateLabelsRequest(cfg, token, sdcId, []),
                          SyncJobsRequest(cfg, token, InitialIds(respond, log, cfg, token, sdcId))];
      |log + head| <= |r.log| && r.log[..|log + head|] == log + head &&
      RetiresInOrder(respond, log + head, r, cfg, token, sdcId, polls, n)
    ensures |log| <= |r.log| && r.log[..|log|] == log
    ensures StopsInOrder(respond, log, r, cfg, token, sdcId, polls, n)
  {
    var head := [PipelinesRequest(cfg, token, sdcId), UpdateLabelsRequest(cfg, token, sdcId, []),
                 SyncJobsRequest(cfg, token, InitialIds(respond, log, cfg, token, sdcId))];
    var base := log + head;
    assert base[..|log|] == log;
    IssuedAfter(log, base, r.log);
    assert r.log[|log|..] == head + r.log[|base|..];
    PrefixAfterHead(head, r.log[|base|..], Polls(cfg, token, sdcId, n) + TeardownRequests(cfg, token, sdcId));
  }

  /** `pre_stop` raises only on a pipeline list it cannot read (the initial
      query's or a poll's), and that GET is the last request it issued; the
      other requests, the teardown included, either fail or succeed. */
  lemma PreStopRaises(respond: Oracle, log: seq<Request>, cfg: Config, token: string,
                      sdcId: string, polls: nat)
    ensures var r := PreStop(respond, log, cfg, token, sdcId, polls);
      r.status.Raised? ==> RaisedOnReply(respond, log, r.log, NonLocalIds) &&
                           r.log[|r.log| - 1] == PipelinesRequest(cfg, token, sdcId)
  {
    var first := GetJobs(respond, log, cfg, token, sdcId);
    var pollReq := PipelinesRequest(cfg, token, sdcId);
    if first.status.Raised? {
      assert first.log[..|log|] == log;
    } else if first.status.Done? {
      var unlabel := Call(respond, first.log, UpdateLabelsRequest(cfg, token, sdcId, []));
      var sync := Call(respond, unlabel.log, SyncJobsRequest(cfg, token, first.status.value));
      if !unlabel.status.Failed? && !sync.status.Failed? {
        var drain := Drain(respond, sync.log, cfg, token, sdcId, polls);
        if drain.status.Raised? {
          DrainLog(respond, sync.log, cfg, token, sdcId, polls);
          DrainLastPoll(respond, sync.log, cfg, token, sdcId, polls);
          var n := |drain.log| - |sync.log|;
          assert drain.log[|drain.log| - 1] == Polls(cfg, token, sdcId, n)[n - 1];
        } else if drain.status.Done? {
          TeardownOrder(respond, drain.log, cfg, token, sdcId);
        }
      }
    }
  }

  /** `pre_stop` ends Pending only when its drain wait used up every poll and
      each of them still found jobs: a poll that finds none is followed by
      the teardown, and a teardown whose requests were all answered returns
      "Success". */
  lemma PreStopPending(respond: Oracle, log: seq<Request>, cfg: Config, token: string,
                       sdcId: string, polls: nat)
    ensures var r := PreStop(respond, log, cfg, token, sdcId, polls);
      r.status.Pending? ==>
        |r.log| == |log| + 3 + polls &&
        forall k :: |log| + 3 <= k < |r.log| ==>
          PollAt(respond, r.log, k).Done? && PollAt(respond, r.log, k).value != []
  {
    var first := GetJobs(respond, log, cfg, token, sdcId);
    if first.status.Done? {
      var unlabel := Call(respond, first.log, UpdateLabelsRequest(cfg, token, sdcId, []));
      var sync := Call(respond, unlabel.log, SyncJobsRequest(cfg, token, first.status.value));
      if !unlabel.status.Failed? && !sync.status.Failed? {
        assert |sync.log| == |log| + 3;
        var drain := Drain(respond, sync.log, cfg, token, sdcId, polls);
        if drain.status.Pending? {
          DrainLog(respond, sync.log, cfg, token, sdcId, polls);
          DrainPolls(respond, sync.log, cfg, token, sdcId, polls);
          DrainLastPoll(respond, sync.log, cfg, token, sdcId, polls);
        } else if drain.status.Done? {
          TeardownOrder(respond, drain.log, cfg, token, sdcId);
        }
      }
    }
  }

  /** `pre_stop` stops at its first error, a poll's included; it raises only
      on a pipeline list it cannot read, which is then the last request
      issued. */
  lemma PreStopStops(respond: Oracle, log: seq<Request>, cfg: Config, token: string,
                     sdcId: string, polls: nat)
    ensures var r := PreStop(respond, log, cfg, token, sdcId, polls);
      StopsAtFirstError(respond, log, r.log, FailureOf(r.status))
    ensures var r := PreStop(respond, log, cfg, token, sdcId, polls);
      r.status.Raised? ==> RaisedOnReply(respond, log, r.log, NonLocalIds) &&
                           r.log[|r.log| - 1] == PipelinesRequest(cfg, token, sdcId)
  {
    PreStopRaises(respond, log, cfg, token, sdcId, polls);
    var first := GetJobs(respond, log, cfg, token, sdcId);
    var pollReq := PipelinesRequest(cfg, token, sdcId);
    OneRequestStops(respond, log, pollReq);
    assert FailureOf(StatusOf(respond(log, pollReq))) == FailureOf(first.status);
    if first.status.Done? {
      var unlabelReq := UpdateLabelsRequest(cfg, token, sdcId, []);
      var unlabel := Call(respond, first.log, unlabelReq);
      OneRequestStops(respond, first.log, unlabelReq);
      StopsAtFirstErrorChain(respond, log, first.log, unlabel.log, FailureOf(unlabel.status));
      if !unlabel.status.Failed? {
        var syncReq := SyncJobsRequest(cfg, token, first.status.value);
        var sync := Call(respond, unlabel.log, syncReq);
        OneRequestStops(respond, unlabel.log, syncReq);
        StopsAtFirstErrorChain(respond, log, unlabel.log, sync.log, FailureOf(sync.status));
        if !sync.status.Failed? {
          RetireStops(respond, sync.log, cfg, token, sdcId, polls);
          var r := Retire(respond, sync.log, cfg, token, sdcId, polls);
          StopsAtFirstErrorChain(respond, log, sync.log, r.log, FailureOf(r.status));
        }
      }
    }
  }

  /** Once pre-stop has ended on its own, a larger poll bound changes nothing:
      the bound is not part of the behaviour. */
  lemma PreStopFuelMonotone(respond: Oracle, log: seq<Request>, cfg: Config, token: string,
                            sdcId: string, polls: nat, more: nat)
    requires !PreStop(respond, log, cfg, token, sdcId, polls).status.Pending?
    requires polls <= more
    ensures PreStop(respond, log, cfg, token, sdcId, more) == PreStop(respond, log, cfg, token, sdcId, polls)
  {
    var first := GetJobs(respond, log, cfg, token, sdcId);
    if first.status.Done? {
      var unlabel := Call(respond, first.log, UpdateLabelsRequest(cfg, token, sdcId, []));
      var sync := Call(respond, unlabel.log, SyncJobsRequest(cfg, token, first.status.value));
      if !unlabel.status.Failed? && !sync.status.Failed? {
        var drain := Drain(respond, sync.log, cfg, token, sdcId, polls);
        if !drain.status.Pending? {
          DrainFuelMonotone(respond, sync.log, cfg, token, sdcId, polls, more);
        }
      }
    }
  }
}
