/**
 A session as a sequence of `process_transaction` calls on one object, and
 the properties of the gate and the dispatch chain that hold over the whole
 sequence.
 */
module Sessions {
  import opened TransactionCodes
  import opened FrontEndSystem

  /** One call `process_transaction(code, args)`. */
  datatype Request<A> = Request(code: string, args: A)

  /** The object after a sequence of calls and what each call did. */
  datatype Transcript<A> = Transcript(final: FrontEnd, outcomes: seq<Outcome<A>>)

  /** Feeds the requests to `process_transaction` one after another. */
  function Run<A>(f: FrontEnd, reqs: seq<Request<A>>, endSession: FrontEnd -> FrontEnd): (t: Transcript<A>)
    ensures |t.outcomes| == |reqs|
    ensures forall i :: 0 <= i < |reqs| && t.outcomes[i].Invoked? ==>
      CodeOf(t.outcomes[i].handler) == reqs[i].code && t.outcomes[i].args == reqs[i].args
    ensures forall i :: 0 <= i < |reqs| && t.outcomes[i].EndSessionCalled? ==> reqs[i].code == LogoutCode
    decreases |reqs|
  {
    if |reqs| == 0 then Transcript(f, [])
    else
      var step := Process(f, reqs[0].code, reqs[0].args, endSession);
      var rest := Run(step.state, reqs[1..], endSession);
      Transcript(rest.final, [step.outcome] + rest.outcomes)
  }

  /** No request in the sequence is "logout". */
  predicate NoLogout<A>(reqs: seq<Request<A>>) {
    forall i :: 0 <= i < |reqs| ==> reqs[i].code != LogoutCode
  }

  /** A closed gate stays closed: every call is refused with the same
      error and the object never changes, however long the sequence. */
  lemma {:induction false} ClosedGateRefusesAll<A>(f: FrontEnd, reqs: seq<Request<A>>, endSession: FrontEnd -> FrontEnd)
    requires !PassesGate(f)
    ensures var t := Run(f, reqs, endSession);
      && t.final == f
      && forall i :: 0 <= i < |reqs| ==>
           t.outcomes[i] == (if f.loggedIn.Unset? then MissingAttribute("logged_in") else NotLoggedIn)
    decreases |reqs|
  {
    if |reqs| > 0 {
      ClosedGateRefusesAll(f, reqs[1..], endSession);
    }
  }

  /** Without "logout" nothing in a session changes the object: logins,
      failed or not, handler calls and invalid codes leave it as it was. */
  lemma {:induction false} NoLogoutKeepsState<A>(f: FrontEnd, reqs: seq<Request<A>>, endSession: FrontEnd -> FrontEnd)
    requires NoLogout(reqs)
    ensures Run(f, reqs, endSession).final == f
    decreases |reqs|
  {
    if |reqs| > 0 {
      assert reqs[0].code != LogoutCode;
      assert NoLogout(reqs[1..]) by {
        forall i | 0 <= i < |reqs[1..]| ensures reqs[1..][i].code != LogoutCode {
          assert reqs[1..][i] == reqs[i + 1];
        }
      }
      NoLogoutKeepsState(f, reqs[1..], endSession);
    }
  }

  /** Once a session is open, every call before the first "logout" behaves
      exactly as it would on the starting object: a login whose credentials
      are rejected does not stop later transactions. */
  lemma {:induction false} OpenSessionDispatchesUntilLogout<A>(
    f: FrontEnd, reqs: seq<Request<A>>, k: nat, endSession: FrontEnd -> FrontEnd)
    requires PassesGate(f)
    requires k <= |reqs|
    requires forall j :: 0 <= j < k ==> reqs[j].code != LogoutCode
    ensures var t := Run(f, reqs, endSession);
      forall i :: 0 <= i < k ==> t.outcomes[i] == Process(f, reqs[i].code, reqs[i].args, endSession).outcome
    decreases k
  {
    if k > 0 {
      assert reqs[0].code != LogoutCode;
      var step := Process(f, reqs[0].code, reqs[0].args, endSession);
      assert step.state == f;
      forall j | 0 <= j < k - 1 ensures reqs[1..][j].code != LogoutCode {
        assert reqs[1..][j] == reqs[j + 1];
      }
      OpenSessionDispatchesUntilLogout(f, reqs[1..], k - 1, endSession);
      var t := Run(f, reqs, endSession);
      forall i | 0 <= i < k ensures t.outcomes[i] == Process(f, reqs[i].code, reqs[i].args, endSession).outcome {
        if i > 0 {
          assert reqs[1..][i - 1] == reqs[i];
        }
      }
    }
  }

  /** A standard session: on a constructed object after `start_session("standard")`, a
      login and a withdrawal are both dispatched with their own arguments
      and leave the object unchanged; "logout" hands over to `end_session`,
      and once that has cleared the flag a further withdrawal is refused. */
  lemma StandardSessionScenario<A>(loginArgs: A, withdrawArgs: A, endSession: FrontEnd -> FrontEnd)
    requires endSession(StartSession(Constructed(), "standard")).loggedIn == Set(false)
    ensures var s := StartSession(Constructed(), "standard");
      var t := Run(s, [Request("login", loginArgs), Request("withdraw", withdrawArgs),
                       Request(LogoutCode, withdrawArgs), Request("withdraw", withdrawArgs)], endSession);
      && t.outcomes == [Invoked(Login, loginArgs), Invoked(Withdraw, withdrawArgs), EndSessionCalled, NotLoggedIn]
      && t.final == endSession(s)
  {
    var s := StartSession(Constructed(), "standard");
    var reqs := [Request("login", loginArgs), Request("withdraw", withdrawArgs),
                 Request(LogoutCode, withdrawArgs), Request("withdraw", withdrawArgs)];
    var e := endSession(s);
    var r3 := Run(e, reqs[3..], endSession);
    ClosedGateRefusesAll(e, reqs[3..], endSession);
    assert r3 == Transcript(e, [NotLoggedIn]);
    assert reqs[2..][1..] == reqs[3..];
    var r2 := Run(s, reqs[2..], endSession);
    assert r2 == Transcript(e, [EndSessionCalled, NotLoggedIn]);
    assert reqs[1..][1..] == reqs[2..];
    var r1 := Run(s, reqs[1..], endSession);
    assert r1 == Transcript(e, [Invoked(Withdraw, withdrawArgs), EndSessionCalled, NotLoggedIn]);
  }
}
