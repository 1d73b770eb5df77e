/**
 The session state of `FrontEndSystem` and its three operations: `init`,
 `start_session` and `process_transaction`.

 The class has no `__init__`: its setup method is called `init`, so
 constructing a `FrontEndSystem` leaves it without any attributes until
 `init` or `start_session` assigns them. Each attribute is therefore modelled
 as either unset or holding a value, and reading an unset `logged_in` is the
 `AttributeError` Python would raise.
 */
module FrontEndSystem {
  import opened TransactionCodes

  datatype Option<+T> = None | Some(value: T)

  /** A Python instance attribute: never assigned, or holding a value. */
  datatype Attr<+T> = Unset | Set(value: T)

  /** The logger object `init` creates; nothing in the front end uses it. */
  datatype Logger = TransactionLogger

  /** The instance attributes of one `FrontEndSystem` object. */
  datatype FrontEnd = FrontEnd(
    sessionType: Attr<Option<string>>,
    loggedIn: Attr<bool>,
    logger: Attr<Logger>)

  /** What one call of `process_transaction` did. `A` is the untyped
      argument value, forwarded to the handler unchanged. */
  datatype Outcome<A> =
    | Invoked(handler: Handler, args: A)
    | EndSessionCalled
    | NotLoggedIn
    | InvalidCode(code: string)
    | MissingAttribute(name: string)

  datatype Step<A> = Step(state: FrontEnd, outcome: Outcome<A>)

  /** The login gate of `process_transaction` lets the call through. */
  predicate PassesGate(f: FrontEnd) {
    f.loggedIn == Set(true)
  }

  /** A freshly constructed object: `FrontEndSystem()` runs no setup code. */
  function Fresh(): (f: FrontEnd)
    ensures f.sessionType.Unset? && f.loggedIn.Unset? && f.logger.Unset?
  {
    FrontEnd(Unset, Unset, Unset)
  }

  /** `init`: no session type, logged out, with a logger, whatever came before. */
  function Init(f: FrontEnd): (r: FrontEnd)
    ensures r.sessionType == Set(None)
    ensures r.loggedIn.Set? && !PassesGate(r)
    ensures r.logger.Set?
  {
    FrontEnd(Set(None), Set(false), Set(TransactionLogger))
  }

  /** `start_session`: any session type is accepted and the gate opens;
      the logger attribute is left as it was. */
  function StartSession(f: FrontEnd, sessionType: string): (r: FrontEnd)
    ensures r.sessionType == Set(Some(sessionType))
    ensures PassesGate(r)
    ensures r.logger == f.logger
  {
    f.(sessionType := Set(Some(sessionType)), loggedIn := Set(true))
  }

  /** `process_transaction(code, args)`. `endSession` stands for the
      object's `end_session` method, which the "logout" branch calls and
      whose body is not part of this model. */
  function Process<A>(f: FrontEnd, code: string, args: A, endSession: FrontEnd -> FrontEnd): (r: Step<A>)
    // the gate: an unset flag raises, a false flag refuses every code
    ensures f.loggedIn.Unset? ==> r.outcome == MissingAttribute("logged_in")
    ensures f.loggedIn == Set(false) ==> r.outcome == NotLoggedIn
    // past the gate, a handler is invoked for its own code, with the caller's args
    ensures r.outcome.Invoked? ==> PassesGate(f) && CodeOf(r.outcome.handler) == code && r.outcome.args == args
    ensures PassesGate(f) && code in KnownCodes && code != LogoutCode ==> r.outcome.Invoked?
    // "logout" and only "logout" reaches end_session
    ensures r.outcome.EndSessionCalled? <==> PassesGate(f) && code == LogoutCode
    ensures PassesGate(f) && code !in KnownCodes ==> r.outcome == InvalidCode(code)
    // only end_session may change the state
    ensures r.outcome.EndSessionCalled? ==> r.state == endSession(f)
    ensures !r.outcome.EndSessionCalled? ==> r.state == f
  {
    match f.loggedIn
    case Unset => Step(f, MissingAttribute("logged_in"))
    case Set(b) =>
      if !b then Step(f, NotLoggedIn)
      else
        match RouteOf(code)
        case Call(h) => Step(f, Invoked(h, args))
        case EndSession => Step(endSession(f), EndSessionCalled)
        case Unknown => Step(f, InvalidCode(code))
  }

  /** After `init`, every code is refused and nothing changes, so a caller
      must call `start_session` before any transaction, "login" included. */
  lemma InitClosesGate<A>(f: FrontEnd, code: string, args: A, endSession: FrontEnd -> FrontEnd)
    ensures Process(Init(f), code, args, endSession) == Step(Init(f), NotLoggedIn)
  {
  }

  /** Illustration: `init` reads no attribute, so it discards the whole previous state. */
  lemma InitForgetsHistory(f: FrontEnd, g: FrontEnd)
    ensures Init(f) == Init(g)
  {
  }

  /** Since `init` is not the constructor, a new object raises on its first
      transaction, whatever the code. */
  lemma FreshObjectRaises<A>(code: string, args: A, endSession: FrontEnd -> FrontEnd)
    ensures Process(Fresh(), code, args, endSession) == Step(Fresh(), MissingAttribute("logged_in"))
  {
  }

  /** The object as the authors evidently meant it to be built, with `init`
      run as the constructor `__init__`. */
  function Constructed(): (f: FrontEnd)
    ensures f.loggedIn.Set? && !PassesGate(f)
    ensures forall g :: f == Init(g)
  {
    Init(Fresh())
  }

  /** A properly constructed object answers every transaction with the
      not-logged-in error instead of raising, and stays as it was. */
  lemma ConstructedObjectRefuses<A>(code: string, args: A, endSession: FrontEnd -> FrontEnd)
    ensures Process(Constructed(), code, args, endSession) == Step(Constructed(), NotLoggedIn)
  {
    InitClosesGate(Fresh(), code, args, endSession);
  }

  /** `start_session` alone makes an object usable, even one on which `init`
      never ran; it then still has no logger. */
  lemma StartSessionWithoutInit<A>(sessionType: string, code: string, args: A, endSession: FrontEnd -> FrontEnd)
    requires code in KnownCodes && code != LogoutCode
    ensures StartSession(Fresh(), sessionType).logger.Unset?
    ensures Process(StartSession(Fresh(), sessionType), code, args, endSession).outcome.Invoked?
  {
  }

  /** Once a session is started, every code other than "logout" goes to the
      handler the dispatch chain names for it, or to the invalid-code
      branch, and leaves the session untouched. */
  lemma StartedSessionDispatches<A>(f: FrontEnd, sessionType: string, code: string, args: A, endSession: FrontEnd -> FrontEnd)
    requires code != LogoutCode
    ensures var s := StartSession(f, sessionType);
      var r := Process(s, code, args, endSession);
      && r.state == s
      && (RouteOf(code).Call? ==> r.outcome == Invoked(RouteOf(code).handler, args))
      && (RouteOf(code).Unknown? ==> r.outcome == InvalidCode(code))
  {
  }

  /** The "login" code is gated like any other: `Login` runs only when the
      flag is already true, and its result is discarded, so a login (with
      any credentials) leaves the session exactly as it was. */
  lemma LoginNeverChangesSession<A>(f: FrontEnd, args: A, endSession: FrontEnd -> FrontEnd)
    ensures var r := Process(f, "login", args, endSession);
      && r.state == f
      && (r.outcome.Invoked? <==> PassesGate(f))
      && (r.outcome.Invoked? ==> r.outcome.handler == Login)
  {
  }
}
