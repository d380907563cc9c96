/** The handlers as the function runs them: each call goes through the
    client, which appends it to the log, and the loops accumulate the job ids
    step by step. Every method is proved to produce exactly the status and
    the log of its specification in module Protocol (or Dispatch), so the
    protocol lemmas proved there hold of these methods. */
module Lambda {
  import opened Outcomes
  import opened JsonModel
  import opened ControlPlane
  import opened Labels
  import opened Jobs
  import opened Protocol
  import opened Dispatch

  /** `sch_request`: one control-plane call, its error or its decoded body. */
  method SchRequest(c: Client, verb: Verb, url: string, token: string, body: Json) returns (s: Status<Json>)
    modifies c
    ensures var req := Request(verb, url, Some(token), body);
      c.log == old(c.log) + [req] && s == StatusOf(c.respond(old(c.log), req))
  {
    var reply := c.Send(Request(verb, url, Some(token), body));
    s := StatusOf(reply);
  }

  /** `get_session_token`: the login POST, the session cookie or the error. */
  method GetSessionToken(c: Client, cfg: Config) returns (reply: LoginReply)
    modifies c
    ensures c.log == old(c.log) + [LoginRequest(cfg)]
    ensures reply == c.authenticate(old(c.log), LoginRequest(cfg))
  {
    reply := c.Login(Request(Post, LoginUrl(cfg.host), None, LoginBody(cfg.user, cfg.password)));
  }

  method PreStart(c: Client, cfg: Config, token: string) returns (s: Status<Json>)
    modifies c
    ensures Run(s, c.log) == Protocol.PreStart(c.respond, old(c.log), cfg, token)
  {
    var response := SchRequest(c, Put, ComponentsUrl(cfg.host, cfg.org), token, IssueTokenBody(cfg.org));
    if response.Failed? {
      return response;
    }
    var body := response.value;
    if !(body.Arr? && |body.items| > 0 && body.items[0].Obj? && "fullAuthToken" in body.items[0].fields) {
      return Raised;
    }
    s := Done(body.items[0].fields["fullAuthToken"]);
  }

  /** A prefix of the prepended ids can be moved in front of an earlier one. */
  lemma PrependPrepend(a: seq<Json>, b: seq<Json>, r: Run<seq<Json>>)
    ensures Prepend(a, Prepend(b, r)) == Prepend(a + b, r)
  {
    if r.status.Done? {
      assert a + (b + r.status.value) == (a + b) + r.status.value;
    }
  }

  method PostStart(c: Client, cfg: Config, token: string, sdcId: string, labels: string, groups: string)
    returns (s: Status<Json>)
    modifies c
    ensures Run(s, c.log) == Protocol.PostStart(c.respond, old(c.log), cfg, token, sdcId, labels, groups)
  {
    var response := SchRequest(c, Post, AclUrl(cfg.host, sdcId), token, AclBody(cfg.org, cfg.user, sdcId, groups));
    if response.Failed? {
      return response;
    }
    var ls := Split(labels, ',');
    response := SchRequest(c, Post, UpdateLabelsUrl(cfg.host, sdcId), token, UpdateLabelsBody(cfg.org, sdcId, ls));
    if response.Failed? {
      return response;
    }
    ghost var start := c.log;
    var jobIds: seq<Json> := [];
    var i := 0;
    assert ls[0..] == ls;
    assert Prepend([], QueryLabels(c.respond, c.log, cfg, token, ls)) == QueryLabels(c.respond, c.log, cfg, token, ls) by {
      var q := QueryLabels(c.respond, c.log, cfg, token, ls);
      if q.status.Done? {
        assert [] + q.status.value == q.status.value;
      }
    }
    while i < |ls|
      invariant 0 <= i <= |ls|
      invariant Prepend(jobIds, QueryLabels(c.respond, c.log, cfg, token, ls[i..])) ==
                QueryLabels(c.respond, start, cfg, token, ls)
    {
      response := SchRequest(c, Get, JobsByLabelUrl(cfg.host, cfg.org, ls[i]), token, Null);
      assert ls[i..][0] == ls[i] && ls[i..][1..] == ls[i + 1..];
      if response.Failed? {
        return response;
      }
      var collected := AppendLabelJobs(jobIds, response.value);
      if collected.None? {
        return Raised;
      }
      PrependPrepend(jobIds, collected.value[|jobIds|..], QueryLabels(c.respond, c.log, cfg, token, ls[i + 1..]));
      assert jobIds + collected.value[|jobIds|..] == collected.value;
      jobIds := collected.value;
      i := i + 1;
    }
    assert jobIds + [] == jobIds;
    response := SchRequest(c, Post, BalanceJobsUrl(cfg.host), token, Arr(jobIds));
    if response.Failed? {
      return response;
    }
    s := Done(Str("Success"));
  }

  /** `get_jobs_by_sdcId`. */
  method GetJobsBySdcId(c: Client, cfg: Config, token: string, sdcId: string) returns (s: Status<seq<Json>>)
    modifies c
    ensures Run(s, c.log) == GetJobs(c.respond, old(c.log), cfg, token, sdcId)
  {
    var response := SchRequest(c, Get, PipelinesUrl(cfg.host, sdcId), token, Null);
    if response.Failed? {
      return Failed(response.error);
    }
    var jobIds := CollectNonLocal(response.value);
    if jobIds.None? {
      return Raised;
    }
    s := Done(jobIds.value);
  }

  /** `pre_stop`; its wait polls at most `polls` times. */
  method PreStop(c: Client, cfg: Config, token: string, sdcId: string, polls: nat) returns (s: Status<Json>)
    modifies c
    ensures Run(s, c.log) == Protocol.PreStop(c.respond, old(c.log), cfg, token, sdcId, polls)
  {
    var jobIds := GetJobsBySdcId(c, cfg, token, sdcId);
    if !jobIds.Done? {
      return Abandon(jobIds, c.log).status;
    }
    var response := SchRequest(c, Post, UpdateLabelsUrl(cfg.host, sdcId), token, UpdateLabelsBody(cfg.org, sdcId, []));
    if response.Failed? {
      return response;
    }
    response := SchRequest(c, Post, SyncJobsUrl(cfg.host), token, Arr(jobIds.value));
    if response.Failed? {
      return response;
    }
    ghost var start := c.log;
    var fuel := polls;
    while true
      invariant Drain(c.respond, c.log, cfg, token, sdcId, fuel) == Drain(c.respond, start, cfg, token, sdcId, polls)
      decreases fuel
    {
      if fuel == 0 {
        return Pending;
      }
      jobIds := GetJobsBySdcId(c, cfg, token, sdcId);
      if !jobIds.Done? {
        return Abandon(jobIds, c.log).status;
      }
      if |jobIds.value| == 0 {
        break;
      }
      fuel := fuel - 1;
    }
    response := SchRequest(c, Post, DeactivateUrl(cfg.host, cfg.org), token, Arr([Str(sdcId)]));
    if response.Failed? {
      return response;
    }
    response := SchRequest(c, Post, DeleteTokensUrl(cfg.host, cfg.org), token, Arr([Str(sdcId)]));
    if response.Failed? {
      return response;
    }
    response := SchRequest(c, Delete, NodeUrl(cfg.host, sdcId), token, Null);
    if response.Failed? {
      return response;
    }
    s := Done(Str("Success"));
  }

  /** `lambda_handler`. */
  method LambdaHandler(c: Client, cfg: Config, event: Event, polls: nat) returns (result: LambdaResult)
    modifies c
    ensures Handled(result, c.log) == Dispatch.LambdaHandler(c.authenticate, c.respond, old(c.log), cfg, event, polls)
  {
    if "action" !in event {
      return ErrorResult(MissingAction);
    }
    var action := event["action"];
    if !Known(action) {
      return ErrorResult(UnknownAction);
    }
    var login := GetSessionToken(c, cfg);
    if login.LoginError? {
      return LoginFailed(login.error, login.shown);
    }
    var token := login.token;
    var outcome: Status<Json>;
    if action == "pre-start" {
      outcome := PreStart(c, cfg, token);
    } else if action == "post-start" {
      if "sdcId" in event && "labels" in event && "groups" in event {
        outcome := PostStart(c, cfg, token, event["sdcId"], event["labels"], event["groups"]);
      } else {
        outcome := Failed(PostStartMissing);
      }
    } else {
      if "sdcId" in event {
        outcome := PreStop(c, cfg, token, event["sdcId"], polls);
      } else {
        outcome := Failed(PreStopMissing);
      }
    }
    result := Shape(outcome);
  }
}
