# Dashboard account server, modelled in Dafny

`server.js` is a small Express service. It authenticates loader users and ties
each account to one hardware id (HWID) on first use. It also lets an
administrator add users, disable them and reset their HWID. All state lives in a
users dictionary (`users.json`) that every handler loads and saves back only when
it changes a record (at most one per request). Two middlewares guard the routes. `/admin/*` needs an
`x-admin-key` header equal to `ADMIN_KEY`. `/api/*` needs an `x-api-key` header
equal to `API_KEY`.

The model has four modules:

- `Wrappers` (`wrappers.dfy`): `Option`. It stands for JavaScript's
  `undefined`/`null`.
- `Accounts` (`accounts.dfy`): the record type `Account(password, hwid, disabled)`
  and the response bodies `{ok}`, `{ok, code}` and `{ok, error}` with the exact
  code strings. The four handlers are written as pure functions that take the
  dictionary as loaded and return the dictionary as saved, plus the body sent
  back. Lemmas state the order of the checks and the HWID transitions.
- `Gates` (`gates.dfy`): the two key checks. Each is JavaScript strict equality
  on optional strings. An absent header equals an unset key, so the gate passes
  in that case.
- `Server` (`server.dfy`): requests (headers plus route) and `Serve` (gate,
  then handler). `Run` serves a sequence of requests. Induction lemmas say what
  no request sequence can undo. The class `DashboardServer` holds the dictionary as a
  `map` field; its handler methods change it in place and are proved equal to
  the functions above.

An account is *bound* exactly when its `hwid` is truthy in JavaScript
(server.js:47). A `null`/absent hwid is unbound, and so is the empty string. So a
login that sends `hwid: ""` is answered `{ok:true}` and leaves the account
unbound (`Accounts.LoginEmptyHwidLeavesUnbound`).

Later revisions of this service add an empty-field check (`EMPTY_FIELDS`), a
single `INVALID_CREDENTIALS` code, `BIND_OK`/`OK` codes, session tokens, and
delete, toggle and bulk-import routes. This `server.js` has none of them. The
model follows `server.js`: `INVALID_USER` and `BAD_PASS` are separate codes, a
successful login is a bare `{ok:true}`, and admin misses are a bare
`{ok:false}`. The admin gate's rejection carries its code in an `error` field
and the api gate's in a `code` field, as in the source.

The server reads `ADMIN_KEY`/`API_KEY` from the environment and the dictionary
from a file. In the model these are parameters: `Config` and the constructor's
`users` argument. A "save" is the update of the `users` field, or the `store`
of an `Outcome` or `Response`.

## Model

| member | source | states |
|---|---|---|
| Accounts.CodeTextInjective | server.js:26-52 | no two result codes share a wire string, so within one route every coded failure is distinguishable (the three admin handlers' misses are all a bare `{ok:false}`) |
| Accounts.NewAccount | server.js:63 | the record `addUser` creates has the given password, is unbound and is enabled |
| Accounts.Login | server.js:40-54 | login never adds or removes users; it never touches another record's fields, or this record's password or disabled flag; it saves only on a `{ok:true}` that binds the record to the supplied hwid |
| Accounts.AddUser | server.js:59-66 | answers ok exactly when the username is new; adds exactly that key; never alters an existing record; the new record is `NewAccount(password)` |
| Accounts.DisableUser | server.js:68-74 | answers ok exactly when the user exists; keys unchanged; only that record changes and only its disabled flag, which becomes true |
| Accounts.ResetHwid | server.js:76-82 | answers ok exactly when the user exists; keys unchanged; only that record changes and only its hwid, which becomes unbound |
| Accounts.LoginUnknownUser | server.js:43 | an unknown username gets `INVALID_USER` whatever the other fields, and nothing is saved |
| Accounts.LoginCheckOrder | server.js:43-52 | each failure code fires exactly when its check fails and every earlier check passed (existence, password, disabled, hwid); a failed login saves nothing |
| Accounts.LoginOkIff | server.js:43-53 | login is ok exactly when the user exists, the password matches, the account is enabled and the hwid is unbound or equal to the supplied one |
| Accounts.LoginPasswordBeforeDisabled | server.js:44-45 | a disabled account given a wrong password gets `BAD_PASS`, not `DISABLED` |
| Accounts.LoginBindsUnbound | server.js:47-50 | an unbound, enabled account with the right password gets `{ok:true}`; only its hwid changes, to the supplied value |
| Accounts.LoginBound | server.js:52-53 | a bound account gets `{ok:true}` for its own hwid and `HWID_MISMATCH` for any other; the dictionary is unchanged either way |
| Accounts.LoginIdempotent | server.js:40-54 | repeating a login gives the same body and the same dictionary as the first call |
| Accounts.LoginBindThenOther | server.js:47-52 | after an ok first login binds a non-empty hwid, a login from a different hwid gets `HWID_MISMATCH` and saves nothing |
| Accounts.LoginEmptyHwidLeavesUnbound | server.js:47-50 | a login with an empty hwid is ok but leaves the account unbound; the next correct login binds to whatever hwid it carries |
| Accounts.DisableUserIdempotent | server.js:68-74 | disabling twice gives the same body and dictionary as disabling once |
| Accounts.DisableThenLogin | server.js:45-74 | after `disableUser`, a login with the correct password gets `DISABLED` and saves nothing |
| Accounts.ResetHwidIdempotent | server.js:76-82 | resetting twice gives the same body and dictionary as resetting once |
| Accounts.ResetThenLogin | server.js:47-82 | after `resetHwid`, a correct login on an enabled account binds to the supplied hwid; nothing else changes from before the reset |
| Accounts.AddUserThenLogin | server.js:47-66 | a newly added user's first correct login binds the supplied hwid and answers ok |
| Gates.AdminGate | server.js:24-29 | the admin gate passes exactly when the `x-admin-key` header equals `ADMIN_KEY` (absent equals unset); otherwise it answers 403 `{ok:false, error:"BAD_ADMIN_KEY"}` |
| Gates.ApiGate | server.js:32-37 | the api gate passes exactly when the `x-api-key` header equals `API_KEY` (absent equals unset); otherwise it answers 403 `{ok:false, code:"INVALID_API_KEY"}` |
| Gates.UnsetKeyAdmitsOnlyAbsentHeader | server.js:10-37 | with the key unset, a request without the header passes and any header value, even empty, is refused |
| Server.Serve | server.js:24-82 | a rejected request reaches no handler and changes nothing; a passed one answers 200; no request removes a user, changes a password or re-enables a disabled account; only a passed `addUser` adds keys; only a passed `resetHwid` for that user moves a bound hwid |
| Server.RunKeepsAccounts | server.js:40-82 | across any sequence of requests, every existing user survives with its password unchanged |
| Server.RunKeepsDisabled | server.js:68-74 | across any sequence of requests, a disabled account stays disabled (no route re-enables it) |
| Server.RunKeepsBinding | server.js:47-82 | across any sequence of requests without an authorised `resetHwid` for the user, a bound hwid stays exactly as it was |
| Server.RunRejectedChangesNothing | server.js:24-37 | a sequence of requests that all fail their gate leaves the dictionary unchanged |
| Server.DisabledNeverLogsIn | server.js:45-74 | once an account is disabled, no later login for it is ok, whatever requests come in between |
| Server.FirstBindIsPermanent | server.js:47-82 | after the first ok login binds a non-empty hwid, and until an authorised reset, the hwid stays that value, logins from any other hwid fail, and logins from that hwid succeed while the account is not disabled |
| Server.ResetAndRebindScenario | server.js:24-82 | from an empty store: add `x`, bind to HW1 (ok), HW2 refused with `HWID_MISMATCH`, reset, bind to HW2 (ok); an admin-keyed login is refused with 403 `INVALID_API_KEY` and changes nothing |
| Server.DashboardServer.constructor | server.js:10-18 | the server starts with the given keys and the dictionary loaded at start-up |
| Server.DashboardServer.Login | server.js:40-54 | the new dictionary and the body are exactly those of `Accounts.Login` on the old dictionary |
| Server.DashboardServer.AddUser | server.js:59-66 | the new dictionary and the body are exactly those of `Accounts.AddUser` on the old dictionary |
| Server.DashboardServer.DisableUser | server.js:68-74 | the new dictionary and the body are exactly those of `Accounts.DisableUser` on the old dictionary |
| Server.DashboardServer.ResetHwid | server.js:76-82 | the new dictionary and the body are exactly those of `Accounts.ResetHwid` on the old dictionary |
| Server.DashboardServer.Handle | server.js:24-82 | one request through the middleware and handler leaves the dictionary and reply given by `Serve` |

## Left out

- Express wiring is not modelled: `express.json`, `express.static`, route registration, `app.listen` and its console message (server.js:1-7, 84). They are framework plumbing. Static files served ahead of the gates are outside the model.
- File I/O in `loadUsers`/`saveUsers` is not modelled (server.js:13-21). The dictionary is an in-memory `map`, and a save is the update of that map. A malformed `users.json` makes `JSON.parse` throw (server.js:17) inside the handler, and Express answers with its error page. The model always starts from a well-formed dictionary.
- Reading `ADMIN_KEY`/`API_KEY` from the environment (server.js:10-11) is not modelled. The keys are `Config` parameters, each possibly unset.
- `GET /admin/list` (server.js:57) only returns the whole dictionary and has no model. Requests to routes other than the four POST routes are not modelled.
- Concurrency is not modelled. Overlapping requests can lose updates between load and save. The model serves requests strictly one after another.
- JavaScript coercion of `req.body` fields is not modelled: a missing field becomes `undefined`, and non-string values compare by `!==`. All inputs are strings.
- Prototype-chain lookups are not modelled. Usernames such as `constructor` or `__proto__` find inherited properties of the users object (server.js:43, 62, 71, 79). The model's dictionary holds only its own keys. So it does not capture what those names do in the source. `addUser` refuses them as existing. `disableUser`/`resetHwid` answer `{ok:true}` and write onto objects the whole process shares (`Object`, `Object.prototype`; server.js:72, 80). A login for them that sends no password passes the password check and is answered `{ok:true}` (server.js:44-50).
- Record values outside the modelled shape are not represented: a record that is not an object, a non-string password, or a truthy non-boolean `disabled`. Records are `Account` values with a string password and a boolean flag.
