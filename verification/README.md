# Bank front end: session gate and transaction dispatcher

This project models `FrontEndSystem` from the bank transaction terminal simulation.
The object holds a session made of `session_type` and `logged_in`.
`init` resets the session and `start_session` opens it.
`process_transaction(code, args)` first checks the `logged_in` flag.
It then compares the code by exact, case-sensitive string equality against ten known codes.
The code selects one of nine handler classes, `end_session` for "logout", or the invalid-code error.

The model is functional:

- `TransactionCodes` (`transaction_codes.dfy`) holds the dispatch chain `RouteOf`.
  It also holds the reference table `CodeOf` from handler to code, and the lemmas tying the two together.
- `FrontEndSystem` (`front_end.dfy`) holds the object's attributes as an immutable record.
  It defines `Init`, `StartSession` and the transition `Process : (state, code, args) -> (state', outcome)`.
- `Sessions` (`sessions.dfy`) runs a sequence of requests through `Process`.
  It proves what holds over whole sessions.

Python attributes are modelled as `Attr<T> = Unset | Set(v)`.
The class defines `init`, not `__init__`, so a newly built object has no attributes at all.
Reading an unset `logged_in` is the `AttributeError` Python raises; the model calls it `MissingAttribute("logged_in")`.
A handler call is only a tag, `Invoked(handler, args)`.
`args` is a type parameter, forwarded unchanged.
The `end_session` call is a parameter `endSession: FrontEnd -> FrontEnd`.
The "logout" branch applies it and reports `EndSessionCalled`.

Two quirks of the code are visible in the model:

- The result of `Login().authenticate_user(args)` is discarded.
  A login with any credentials leaves the session as it was, so later transactions still run.
- The gate comes before the dispatch chain, so "login" itself is refused until `start_session` has set the flag.

## Model

| member | source | states |
|---|---|---|
| TransactionCodes.CodeOf | CSCI_3060U_Phase_2_Part_1.py:17-34 | each handler's code is one of the ten known codes and is not "logout" |
| TransactionCodes.RouteOf | CSCI_3060U_Phase_2_Part_1.py:17-38 | a selected handler is the one whose code equals the input; "logout" and only "logout" selects end_session; exactly the codes outside the known set fall through to the invalid-code branch |
| TransactionCodes.RouteOfCodeOf | CSCI_3060U_Phase_2_Part_1.py:17-34 | every handler is reached by its own code (the chain inverts the table) |
| TransactionCodes.CodeOfInjective | CSCI_3060U_Phase_2_Part_1.py:17-34 | no two handlers share a code |
| TransactionCodes.RouteCallIff | CSCI_3060U_Phase_2_Part_1.py:17-34 | a code selects handler h if and only if it is h's code |
| TransactionCodes.KnownCodesAreHandlerCodesOrLogout | CSCI_3060U_Phase_2_Part_1.py:17-38 | the known codes are exactly the nine handler codes plus "logout" |
| TransactionCodes.KnownCodesCount | CSCI_3060U_Phase_2_Part_1.py:17-36 | illustration: the ten literals of the chain are distinct |
| TransactionCodes.MatchingIsCaseSensitive | CSCI_3060U_Phase_2_Part_1.py:17-38 | illustration of `RouteOf`'s unknown-code clause: "Login", "LOGOUT" and "Withdraw" are invalid codes |
| FrontEndSystem.Fresh | CSCI_3060U_Phase_2_Part_1.py:1-2 | a newly built object has none of the three attributes |
| FrontEndSystem.Init | CSCI_3060U_Phase_2_Part_1.py:2-5 | init sets the session type to None, clears the logged-in flag (the gate is closed) and creates a logger |
| FrontEndSystem.InitForgetsHistory | CSCI_3060U_Phase_2_Part_1.py:2-5 | illustration: init reads no attribute, so it gives the same state whatever the object held before |
| FrontEndSystem.InitClosesGate | CSCI_3060U_Phase_2_Part_1.py:2-15 | after init every code, "login" included, gets the not-logged-in error and the state does not change |
| FrontEndSystem.StartSession | CSCI_3060U_Phase_2_Part_1.py:7-9 | start_session stores any session type and opens the gate; the logger attribute is untouched |
| FrontEndSystem.StartSessionWithoutInit | CSCI_3060U_Phase_2_Part_1.py:1-20 | start_session alone makes a new object usable although init never ran, and it then has no logger |
| FrontEndSystem.StartedSessionDispatches | CSCI_3060U_Phase_2_Part_1.py:7-38 | after start_session every code except "logout" goes to its handler with the caller's args, or to the invalid-code error, and the state is unchanged |
| FrontEndSystem.Process | CSCI_3060U_Phase_2_Part_1.py:12-38 | unset flag raises; false flag refuses every code; a handler runs only past the gate, only for its own code, with exactly the caller's args; every known code except "logout" runs a handler; "logout" and only "logout" calls end_session; unknown codes yield an error carrying the code; only end_session changes the state |
| FrontEndSystem.LoginNeverChangesSession | CSCI_3060U_Phase_2_Part_1.py:12-18 | "login" runs the Login handler if and only if the flag is already true, and never changes the state |
| FrontEndSystem.FreshObjectRaises | CSCI_3060U_Phase_2_Part_1.py:1-15 | a newly built object raises AttributeError on its first transaction, whatever the code |
| FrontEndSystem.Constructed | CSCI_3060U_Phase_2_Part_1.py:2-5 | the object built with init as its constructor has a readable, false logged-in flag and equals init applied to any state |
| FrontEndSystem.ConstructedObjectRefuses | CSCI_3060U_Phase_2_Part_1.py:2-15 | a properly constructed object answers every code with the not-logged-in error instead of raising |
| Sessions.Run | CSCI_3060U_Phase_2_Part_1.py:12-38 | over a whole session (a caller that catches a raised error and goes on), each call has one outcome, every handler outcome matches its request's code and args, and every end_session outcome comes from a "logout" request |
| Sessions.ClosedGateRefusesAll | CSCI_3060U_Phase_2_Part_1.py:12-15 | from a closed gate every call of any sequence gets the same refusal and the object never changes |
| Sessions.NoLogoutKeepsState | CSCI_3060U_Phase_2_Part_1.py:12-38 | a sequence without "logout" leaves the object exactly as it was, failed logins included |
| Sessions.OpenSessionDispatchesUntilLogout | CSCI_3060U_Phase_2_Part_1.py:12-38 | in an open session, every call before the first "logout" has the outcome it would have on the starting object, so a rejected login never stops later transactions |
| Sessions.StandardSessionScenario | CSCI_3060U_Phase_2_Part_1.py:2-38 | constructed object, start_session("standard"), login, withdraw, logout, withdraw: two handler calls, end_session, then not-logged-in once end_session has cleared the flag |

## Left out

- Name resolution: the model assumes that `TransactionLogger`, the nine handler classes (`Login`, `Withdraw`, `Transfer`, `PayBill`, `Deposit`, `CreateAccount`, `DeleteAccount`, `DisableAccount`, `ChangePlan`) and the method `end_session` resolve at run time. The file neither defines nor imports them. Read literally, `init` would raise `NameError` at line 5, every handler branch would raise `NameError`, and "logout" would raise `AttributeError` at line 36. A failure to resolve these names is not modelled.
- Handler bodies and the logger are not modelled; each call is only an outcome tag.
- `end_session`'s effect is a parameter of `Process`. `StandardSessionScenario` assumes only that it clears the flag.
- The authentication result is not modelled. The code discards it, so it cannot influence the session.
- Exceptions raised inside a handler are not modelled. For example, a handler may reject `args` because `args` is passed as one positional value.
- All `print` output and message text. Console output has no structured result; each message is an outcome tag instead.
- `Run` models a caller that catches a raised error and goes on with the next request. A Python caller that does not catch the `AttributeError` behind `MissingAttribute` stops at the first one.
- `args` is forwarded opaquely as a type parameter; its shape per code is not checked.
- `Process`: Python's truthiness test on `logged_in` is modelled only for the boolean values the class ever assigns.

## Findings

| source | as written | input that shows it | evidently intended | confidence | as-written member | corrected member |
|---|---|---|---|---|---|---|
| CSCI_3060U_Phase_2_Part_1.py:2 | the setup method is named `init`, so constructing `FrontEndSystem()` assigns no attributes | `FrontEndSystem().process_transaction("login", args)` reads the missing `logged_in` and raises `AttributeError` | `__init__`, so that a new object starts logged out and refuses transactions with the not-logged-in message | high; not executed | FrontEndSystem.FreshObjectRaises | FrontEndSystem.ConstructedObjectRefuses |
