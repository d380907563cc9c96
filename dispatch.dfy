/** The entry point of the function: which handler an event selects, the
    login that precedes every handler, and how a handler's outcome is shaped
    into the returned dictionary. */
module Dispatch {
  import opened Outcomes
  import opened JsonModel
  import opened ControlPlane
  import opened Protocol

  /** The invocation event: its keys and their string values. */
  type Event = map<string, string>

  /** What an invocation ends with:
      `{'error': e}`, `{'response': v}`, the login failure's
      `{'error': e, 'response': str(r)}`, an exception that escapes the
      handler, or (only in the model) a drain wait that used up its polls. */
  datatype LambdaResult =
    | ErrorResult(error: ErrorText)
    | ResponseResult(response: Json)
    | LoginFailed(error: ErrorText, shown: string)
    | Uncaught
    | StillDraining

  /** The result together with the log once the invocation has returned. */
  datatype Handled = Handled(result: LambdaResult, log: seq<Request>)

  const MissingAction: ErrorText := "Action missing in request."
  const UnknownAction: ErrorText := "Action not implemented."
  const PostStartMissing: ErrorText :=
    var s := "post-start action missing sdcId, labels, or groups"; assert |s| == 50; s
  const PreStopMissing: ErrorText := "pre-stop action missing sdcId"

  predicate Known(action: string)
  {
    action in ["pre-start", "post-start", "pre-stop"]
  }

  /** `if error: return {'error': error} else: return {'response': response}`
      applied to a handler's outcome. */
  function Shape(s: Status<Json>): LambdaResult
  {
    match s
    case Done(v) => ResponseResult(v)
    case Failed(e) => ErrorResult(e)
    case Raised => Uncaught
    case Pending => StillDraining
  }

  function Shaped(r: Run<Json>): Handled
  {
    Handled(Shape(r.status), r.log)
  }

  /** The selected handler, once the login has returned the session token. */
  function Delegate(respond: Oracle, log: seq<Request>, cfg: Config, token: string, event: Event,
                    polls: nat): Handled
    requires "action" in event
  {
    var action := event["action"];
    if action == "pre-start" then Shaped(PreStart(respond, log, cfg, token))
    else if action == "post-start" then
      if "sdcId" in event && "labels" in event && "groups" in event then
        Shaped(PostStart(respond, log, cfg, token, event["sdcId"], event["labels"], event["groups"]))
      else Handled(ErrorResult(PostStartMissing), log)
    else if action == "pre-stop" then
      if "sdcId" in event then Shaped(PreStop(respond, log, cfg, token, event["sdcId"], polls))
      else Handled(ErrorResult(PreStopMissing), log)
    else Handled(ErrorResult(UnknownAction), log)
  }

  /** `lambda_handler`: log in for a known action, then run its handler. */
  function LambdaHandler(authenticate: Authenticator, respond: Oracle, log: seq<Request>, cfg: Config,
                         event: Event, polls: nat): Handled
  {
    if "action" !in event then Handled(ErrorResult(MissingAction), log)
    else if !Known(event["action"]) then Handled(ErrorResult(UnknownAction), log)
    else
      var login := LoginRequest(cfg);
      match authenticate(log, login)
      case LoginError(e, shown) => Handled(LoginFailed(e, shown), log + [login])
      case LoggedIn(token) => Delegate(respond, log + [login], cfg, token, event, polls)
  }

  // ================================================================ lemmas

  /** An event without an action is refused before anything is sent. */
  lemma MissingActionSendsNothing(authenticate: Authenticator, respond: Oracle, log: seq<Request>,
                                  cfg: Config, event: Event, polls: nat)
    requires "action" !in event
    ensures LambdaHandler(authenticate, respond, log, cfg, event, polls) ==
            Handled(ErrorResult("Action missing in request."), log)
  {
  }

  /** An action other than the three lifecycle ones is refused without
      logging in. */
  lemma UnknownActionSendsNothing(authenticate: Authenticator, respond: Oracle, log: seq<Request>,
                                  cfg: Config, event: Event, polls: nat)
    requires "action" in event
    requires event["action"] != "pre-start" && event["action"] != "post-start" && event["action"] != "pre-stop"
    ensures LambdaHandler(authenticate, respond, log, cfg, event, polls) ==
            Handled(ErrorResult("Action not implemented."), log)
  {
  }

  /** Every request of an invocation comes after the login, and there is a
      login exactly when the action is one of the three lifecycle ones. */
  lemma LoginComesFirst(authenticate: Authenticator, respond: Oracle, log: seq<Request>,
                        cfg: Config, event: Event, polls: nat)
    ensures var h := LambdaHandler(authenticate, respond, log, cfg, event, polls);
      |log| <= |h.log| && h.log[..|log|] == log &&
      (|h.log| > |log| <==> "action" in event && Known(event["action"])) &&
      (|h.log| > |log| ==> h.log[|log|] == LoginRequest(cfg))
  {
    var h := LambdaHandler(authenticate, respond, log, cfg, event, polls);
    if "action" in event && Known(event["action"]) {
      var log1 := log + [LoginRequest(cfg)];
      assert log1[..|log|] == log;
      var token := authenticate(log, LoginRequest(cfg));
      if token.LoggedIn? {
        DelegateExtends(respond, log1, cfg, token.token, event, polls);
        IssuedAfter(log, log1, h.log);
        assert h.log[|log|] == h.log[..|log1|][|log|];
      }
    }
  }

  /** A handler only appends to the log. */
  lemma DelegateExtends(respond: Oracle, log: seq<Request>, cfg: Config, token: string, event: Event,
                        polls: nat)
    requires "action" in event
    ensures var h := Delegate(respond, log, cfg, token, event, polls);
      |log| <= |h.log| && h.log[..|log|] == log
  {
    var action := event["action"];
    if action == "pre-start" {
      PreStartProtocol(respond, log, cfg, token);
    } else if action == "post-start" && "sdcId" in event && "labels" in event && "groups" in event {
      PostStartOrder(respond, log, cfg, token, event["sdcId"], event["labels"], event["groups"]);
    } else if action == "pre-stop" && "sdcId" in event {
      PreStopOrder(respond, log, cfg, token, event["sdcId"], polls);
    }
  }

  /** A failed login ends the invocation with the login's error and the
      rendering of its response, before any handler runs. */
  lemma LoginFailureShortCircuits(authenticate: Authenticator, respond: Oracle, log: seq<Request>,
                                  cfg: Config, event: Event, polls: nat)
    requires "action" in event && Known(event["action"])
    requires authenticate(log, LoginRequest(cfg)).LoginError?
    ensures var reply := authenticate(log, LoginRequest(cfg));
      LambdaHandler(authenticate, respond, log, cfg, event, polls) ==
      Handled(LoginFailed(reply.error, reply.shown), log + [LoginRequest(cfg)])
  {
  }

  /** After a successful login, a post-start without sdcId, labels or groups
      and a pre-stop without sdcId are refused with their fixed messages, and
      nothing but the login was sent. */
  lemma MissingFieldsRefused(authenticate: Authenticator, respond: Oracle, log: seq<Request>,
                             cfg: Config, event: Event, polls: nat)
    requires "action" in event && authenticate(log, LoginRequest(cfg)).LoggedIn?
    ensures var h := LambdaHandler(authenticate, respond, log, cfg, event, polls);
      (event["action"] == "post-start" && !("sdcId" in event && "labels" in event && "groups" in event) ==>
         h == Handled(ErrorResult("post-start action missing sdcId, labels, or groups"), log + [LoginRequest(cfg)])) &&
      (event["action"] == "pre-stop" && "sdcId" !in event ==>
         h == Handled(ErrorResult("pre-stop action missing sdcId"), log + [LoginRequest(cfg)]))
  {
  }

  /** The returned dictionary carries the error exactly when the handler
      failed and otherwise the handler's response; an exception of the handler
      escapes the invocation. */
  lemma ShapeMeaning(s: Status<Json>)
    ensures Shape(s).ErrorResult? <==> s.Failed?
    ensures s.Failed? ==> Shape(s).error == s.error
    ensures Shape(s).ResponseResult? <==> s.Done?
    ensures s.Done? ==> Shape(s).response == s.value
    ensures Shape(s) == Uncaught <==> s == Raised
    ensures !Shape(s).LoginFailed?
  {
  }

  /** After a successful login with the fields present, the invocation is the
      selected handler run on the session token, shaped. */
  lemma DelegatesToHandler(authenticate: Authenticator, respond: Oracle, log: seq<Request>,
                           cfg: Config, event: Event, polls: nat)
    requires "action" in event && authenticate(log, LoginRequest(cfg)).LoggedIn?
    ensures var token := authenticate(log, LoginRequest(cfg)).token;
      var log1 := log + [LoginRequest(cfg)];
      var h := LambdaHandler(authenticate, respond, log, cfg, event, polls);
      (event["action"] == "pre-start" ==> h == Shaped(PreStart(respond, log1, cfg, token))) &&
      (event["action"] == "post-start" && "sdcId" in event && "labels" in event && "groups" in event ==>
         h == Shaped(PostStart(respond, log1, cfg, token, event["sdcId"], event["labels"], event["groups"]))) &&
      (event["action"] == "pre-stop" && "sdcId" in event ==>
         h == Shaped(PreStop(respond, log1, cfg, token, event["sdcId"], polls)))
  {
  }
}
