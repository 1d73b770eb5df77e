/**
 The transaction codes of the bank front end and the handler each one selects.

 `process_transaction` compares the code against a fixed chain of string
 literals with `==`, so matching is exact and case-sensitive: "Login" and
 "LOGOUT" are unknown codes. Nine codes select a handler class, "logout"
 selects `end_session`, and everything else falls through to the
 invalid-code branch.
 */
module TransactionCodes {

  /** The handler classes the dispatch chain instantiates, one per code.
      Their bodies are not part of this model: a call is only a tag. */
  datatype Handler =
    | Login
    | Withdraw
    | Transfer
    | PayBill
    | Deposit
    | CreateAccount
    | DeleteAccount
    | DisableAccount
    | ChangePlan

  /** What the dispatch chain selects for a code once the login gate is passed. */
  datatype Route = Call(handler: Handler) | EndSession | Unknown

  const LogoutCode: string := "logout"

  /** The ten codes the dispatch chain recognises. */
  const KnownCodes: set<string> :=
    {"login", "withdraw", "transfer", "paybill", "deposit",
     "create", "delete", "disable", "changeplan", "logout"}

  /** The code that selects each handler: the reference table the dispatch
      chain is checked against. */
  function CodeOf(h: Handler): (code: string)
    ensures code in KnownCodes && code != LogoutCode
  {
    match h
    case Login => "login"
    case Withdraw => "withdraw"
    case Transfer => "transfer"
    case PayBill => "paybill"
    case Deposit => "deposit"
    case CreateAccount => "create"
    case DeleteAccount => "delete"
    case DisableAccount => "disable"
    case ChangePlan => "changeplan"
  }

  /** The `if`/`elif` chain of `process_transaction`, in source order. */
  function RouteOf(code: string): (r: Route)
    ensures r.Call? ==> CodeOf(r.handler) == code
    ensures r.EndSession? <==> code == LogoutCode
    ensures r.Unknown? <==> code !in KnownCodes
  {
    if code == "login" then Call(Login)
    else if code == "withdraw" then Call(Withdraw)
    else if code == "transfer" then Call(Transfer)
    else if code == "paybill" then Call(PayBill)
    else if code == "deposit" then Call(Deposit)
    else if code == "create" then Call(CreateAccount)
    else if code == "delete" then Call(DeleteAccount)
    else if code == "disable" then Call(DisableAccount)
    else if code == "changeplan" then Call(ChangePlan)
    else if code == "logout" then EndSession
    else Unknown
  }

  /** Every handler is reached by its own code: the chain inverts the table. */
  lemma RouteOfCodeOf(h: Handler)
    ensures RouteOf(CodeOf(h)) == Call(h)
  {
    match h
    case Login =>
    case Withdraw =>
    case Transfer =>
    case PayBill =>
    case Deposit =>
    case CreateAccount =>
    case DeleteAccount =>
    case DisableAccount =>
    case ChangePlan =>
  }

  /** No two handlers share a code. */
  lemma CodeOfInjective(h1: Handler, h2: Handler)
    ensures CodeOf(h1) == CodeOf(h2) ==> h1 == h2
  {
    if CodeOf(h1) == CodeOf(h2) {
      RouteOfCodeOf(h1);
      RouteOfCodeOf(h2);
    }
  }

  /** A code selects handler `h` exactly when it is `h`'s code. */
  lemma RouteCallIff(code: string, h: Handler)
    ensures RouteOf(code) == Call(h) <==> code == CodeOf(h)
  {
    RouteOfCodeOf(h);
  }

  /** The known codes are precisely the nine handler codes plus "logout". */
  lemma KnownCodesAreHandlerCodesOrLogout(code: string)
    ensures code in KnownCodes <==> code == LogoutCode || exists h :: CodeOf(h) == code
  {
    if code in KnownCodes && code != LogoutCode {
      var r := RouteOf(code);
      assert CodeOf(r.handler) == code;
    }
  }

  /** Illustration: the ten literals of the chain are pairwise distinct. */
  lemma KnownCodesCount()
    ensures |KnownCodes| == 10
  {
    var s := {"login", "withdraw", "transfer", "paybill", "deposit",
              "create", "delete", "disable", "changeplan"};
    assert |s| == 9;
    assert LogoutCode !in s;
    assert KnownCodes == s + {LogoutCode};
  }

  /** Illustration of `RouteOf`'s unknown-code clause: matching is
      case-sensitive, so capitalised spellings of known codes are unknown. */
  lemma MatchingIsCaseSensitive()
    ensures RouteOf("Login").Unknown?
    ensures RouteOf("LOGOUT").Unknown?
    ensures RouteOf("Withdraw").Unknown?
  {
  }
}
