/** The control plane as the controller sees it: the requests it sends, the
    replies it gets back, and the log of every request issued so far.

    The HTTP transport and the JSON encoding are not modelled. A reply is
    chosen by an oracle that may look at the whole history of requests, so
    successive polls of the same endpoint may answer differently. */
module ControlPlane {
  import opened Outcomes
  import opened JsonModel

  datatype Verb = Get | Post | Put | Delete

  /** One request: its method, its URL, the session token sent in the
      authentication header (none for the login itself) and the JSON body
      (`json.dumps(None)` for a request without data, that is Null). */
  datatype Request = Request(verb: Verb, url: string, auth: Option<string>, body: Json)

  /** What a control-plane call returns: the decoded body of a successful
      response, or the rendering of the error it raised. */
  datatype Reply = Answer(body: Json) | HttpError(error: ErrorText)

  /** What the login returns: the session token, or the rendering of the error
      together with the rendering of the response object. */
  datatype LoginReply = LoggedIn(token: string) | LoginError(error: ErrorText, shown: string)

  /** The control plane's behaviour: the reply to a request, given every
      request issued before it. */
  type Oracle = (seq<Request>, Request) -> Reply
  type Authenticator = (seq<Request>, Request) -> LoginReply

  /** Static settings of the controller: base URL, organization and the
      service account. */
  datatype Config = Config(host: string, org: string, user: string, password: string)

  // URLs of the endpoints the controller calls.

  function LoginUrl(host: string): string
  { host + "/security/public-rest/v1/authentication/login" }

  function ComponentsUrl(host: string, org: string): string
  { host + "/security/rest/v1/organization/" + org + "/components" }

  function AclUrl(host: string, sdcId: string): string
  { host + "/jobrunner/rest/v1/sdc/" + sdcId + "/acl" }

  function UpdateLabelsUrl(host: string, sdcId: string): string
  { host + "/jobrunner/rest/v1/sdc/" + sdcId + "/updateLabels" }

  function JobsByLabelUrl(host: string, org: string, jobLabel: string): string
  { host + "/jobrunner/rest/v1/jobs?organization=" + org + "&jobLabel=" + jobLabel }

  function BalanceJobsUrl(host: string): string
  { host + "/jobrunner/rest/v1/jobs/balanceJobs" }

  function PipelinesUrl(host: string, sdcId: string): string
  { host + "/jobrunner/rest/v1/sdc/" + sdcId + "/pipelines" }

  function SyncJobsUrl(host: string): string
  { host + "/jobrunner/rest/v1/jobs/syncJobs" }

  function DeactivateUrl(host: string, org: string): string
  { host + "/security/rest/v1/organization/" + org + "/components/deactivate" }

  function DeleteTokensUrl(host: string, org: string): string
  { host + "/security/rest/v1/organization/" + org + "/components/delete" }

  function NodeUrl(host: string, sdcId: string): string
  { host + "/jobrunner/rest/v1/sdc/" + sdcId }

  // Request bodies.

  function LoginBody(user: string, password: string): Json
  { Obj(map["userName" := Str(user), "password" := Str(password)]) }

  /** One active token for one component of type 'dc' (a data collector). */
  function IssueTokenBody(org: string): Json
  {
    Obj(map["organization" := Str(org), "componentType" := Str("dc"),
            "numberOfComponents" := Num(1), "active" := Bool(true)])
  }

  function Permission(subject: string, subjectType: string): Json
  {
    Obj(map["subjectId" := Str(subject), "subjectType" := Str(subjectType),
            "actions" := Strs(["READ", "WRITE", "EXECUTE"])])
  }

  /** READ, WRITE and EXECUTE for the operator group and for the service user. */
  function AclBody(org: string, user: string, sdcId: string, groups: string): Json
  {
    Obj(map["resourceId" := Str(sdcId), "organization" := Str(org),
            "permissions" := Arr([Permission(groups, "GROUP"), Permission(user, "USER")])])
  }

  function UpdateLabelsBody(org: string, sdcId: string, labels: seq<string>): Json
  { Obj(map["id" := Str(sdcId), "organization" := Str(org), "labels" := Strs(labels)]) }

  // The requests, as each handler issues them.

  function LoginRequest(cfg: Config): Request
  { Request(Post, LoginUrl(cfg.host), None, LoginBody(cfg.user, cfg.password)) }

  function IssueTokenRequest(cfg: Config, token: string): Request
  { Request(Put, ComponentsUrl(cfg.host, cfg.org), Some(token), IssueTokenBody(cfg.org)) }

  function AclRequest(cfg: Config, token: string, sdcId: string, groups: string): Request
  { Request(Post, AclUrl(cfg.host, sdcId), Some(token), AclBody(cfg.org, cfg.user, sdcId, groups)) }

  function UpdateLabelsRequest(cfg: Config, token: string, sdcId: string, labels: seq<string>): Request
  { Request(Post, UpdateLabelsUrl(cfg.host, sdcId), Some(token), UpdateLabelsBody(cfg.org, sdcId, labels)) }

  function JobsByLabelRequest(cfg: Config, token: string, jobLabel: string): Request
  { Request(Get, JobsByLabelUrl(cfg.host, cfg.org, jobLabel), Some(token), Null) }

  function BalanceJobsRequest(cfg: Config, token: string, jobIds: seq<Json>): Request
  { Request(Post, BalanceJobsUrl(cfg.host), Some(token), Arr(jobIds)) }

  function PipelinesRequest(cfg: Config, token: string, sdcId: string): Request
  { Request(Get, PipelinesUrl(cfg.host, sdcId), Some(token), Null) }

  function SyncJobsRequest(cfg: Config, token: string, jobIds: seq<Json>): Request
  { Request(Post, SyncJobsUrl(cfg.host), Some(token), Arr(jobIds)) }

  function DeactivateRequest(cfg: Config, token: string, sdcId: string): Request
  { Request(Post, DeactivateUrl(cfg.host, cfg.org), Some(token), Arr([Str(sdcId)])) }

  function DeleteTokenRequest(cfg: Config, token: string, sdcId: string): Request
  { Request(Post, DeleteTokensUrl(cfg.host, cfg.org), Some(token), Arr([Str(sdcId)])) }

  function DeleteNodeRequest(cfg: Config, token: string, sdcId: string): Request
  { Request(Delete, NodeUrl(cfg.host, sdcId), Some(token), Null) }

  /** A request's status as `sch_request` reports it. */
  function StatusOf(reply: Reply): (s: Status<Json>)
    ensures s.Done? <==> reply.Answer?
    ensures s.Done? ==> s.value == reply.body
    ensures s.Failed? ==> s.error == reply.error
    ensures !s.Raised? && !s.Pending?
  {
    match reply
    case Answer(body) => Done(body)
    case HttpError(e) => Failed(e)
  }

  /** The reply the control plane gave to the k-th request of a log. */
  function ReplyAt(respond: Oracle, log: seq<Request>, k: int): Reply
    requires 0 <= k < |log|
  {
    respond(log[..k], log[k])
  }

  /** `after` extends `before`, every request issued in between except the
      last was answered, and the last one failed with `failure` when there is
      one (and was answered when there is none): the sequence stopped at its
      first error. */
  predicate StopsAtFirstError(respond: Oracle, before: seq<Request>, after: seq<Request>,
                              failure: Option<ErrorText>)
  {
    |before| <= |after| && after[..|before|] == before &&
    (forall k :: |before| <= k < |after| - 1 ==> ReplyAt(respond, after, k).Answer?) &&
    match failure
    case Some(e) => |before| < |after| && ReplyAt(respond, after, |after| - 1) == HttpError(e)
    case None => |before| < |after| ==> ReplyAt(respond, after, |after| - 1).Answer?
  }

  /** Extending a log does not change the replies already recorded in it. */
  lemma ReplyAtPrefix(respond: Oracle, log: seq<Request>, longer: seq<Request>, k: int)
    requires |log| <= |longer| && longer[..|log|] == log
    requires 0 <= k < |log|
    ensures ReplyAt(respond, longer, k) == ReplyAt(respond, log, k)
  {
    assert longer[..k] == longer[..|log|][..k];
    assert longer[k] == longer[..|log|][k];
  }

  /** Issuing one request stops at its own error, if it has one. */
  lemma OneRequestStops(respond: Oracle, log: seq<Request>, req: Request)
    ensures StopsAtFirstError(respond, log, log + [req], FailureOf(StatusOf(respond(log, req))))
  {
    assert (log + [req])[..|log|] == log;
  }

  /** Two sequences that each stop at their first error, the first without
      failing, make one sequence that does. */
  lemma StopsAtFirstErrorChain(respond: Oracle, a: seq<Request>, b: seq<Request>, c: seq<Request>,
                               failure: Option<ErrorText>)
    requires StopsAtFirstError(respond, a, b, None)
    requires StopsAtFirstError(respond, b, c, failure)
    ensures StopsAtFirstError(respond, a, c, failure)
  {
    assert c[..|a|] == a by {
      assert c[..|a|] == c[..|b|][..|a|];
    }
    forall k | 0 <= k < |b|
      ensures ReplyAt(respond, c, k) == ReplyAt(respond, b, k)
    {
      assert c[..k] == c[..|b|][..k];
      assert c[k] == c[..|b|][k];
    }
  }

  /** The connection to the control plane: the two oracles and the log of
      every request issued through it. */
  class Client {
    const authenticate: Authenticator
    const respond: Oracle
    var log: seq<Request>

    constructor (authenticate: Authenticator, respond: Oracle)
      ensures this.authenticate == authenticate && this.respond == respond
      ensures log == []
    {
      this.authenticate := authenticate;
      this.respond := respond;
      log := [];
    }

    /** Issue a control-plane call: it is appended to the log and answered. */
    method Send(req: Request) returns (reply: Reply)
      modifies this
      ensures log == old(log) + [req]
      ensures reply == respond(old(log), req)
    {
      reply := respond(log, req);
      log := log + [req];
    }

    /** Issue the login request. */
    method Login(req: Request) returns (reply: LoginReply)
      modifies this
      ensures log == old(log) + [req]
      ensures reply == authenticate(old(log), req)
    {
      reply := authenticate(log, req);
      log := log + [req];
    }
  }
}
