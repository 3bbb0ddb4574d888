/**
 The users dictionary of the dashboard server and the four handlers that read and
 rewrite it: loader login (with its hardware-id binding) and the three admin
 mutations. Each handler is a function from the dictionary as loaded to the
 dictionary as saved, together with the JSON body sent back.
 */
module Accounts {
  import opened Wrappers

  /** One record of `users.json`. `hwid` is `None` for JSON `null` or a missing field. */
  datatype Account = Account(password: string, hwid: Option<string>, disabled: bool)

  type Users = map<string, Account>

  /** The `code` strings the handlers and gates put in a failure body. */
  datatype Code = InvalidUser | BadPass | Disabled | HwidMismatch | BadAdminKey | InvalidApiKey

  /** The JSON bodies the server sends: `{ok}`, `{ok, code}` and, for the admin gate only, `{ok, error}`. */
  datatype Body = Plain(ok: bool) | Coded(ok: bool, code: Code) | Errored(ok: bool, error: Code)

  /** What a handler leaves behind: the dictionary (saved or not) and the body it answers with. */
  datatype Outcome = Outcome(store: Users, body: Body)

  /** The wire spelling of each code. */
  function CodeText(c: Code): string
  {
    match c
    case InvalidUser => "INVALID_USER"
    case BadPass => "BAD_PASS"
    case Disabled => "DISABLED"
    case HwidMismatch => "HWID_MISMATCH"
    case BadAdminKey => "BAD_ADMIN_KEY"
    case InvalidApiKey => "INVALID_API_KEY"
  }

  /** Different codes never share a wire spelling, so a client can tell every outcome apart. */
  lemma CodeTextInjective(c: Code, d: Code)
    ensures CodeText(c) == CodeText(d) ==> c == d
  {
  }

  /**
   An account is bound when its hwid is truthy in JavaScript: an absent or
   `null` hwid and the empty string both leave it unbound.
   */
  predicate IsBound(a: Account)
  {
    a.hwid.Some? && a.hwid.value != ""
  }

  /** The record `addUser` creates: `{password, hwid: null, disabled: false}`. */
  function NewAccount(password: string): (a: Account)
    ensures a.password == password && !IsBound(a) && !a.disabled
  {
    Account(password, None, false)
  }

  /** `POST /api/login`: existence, password, disabled flag, then the hwid transition. */
  function Login(users: Users, username: string, password: string, hwid: string): (o: Outcome)
    ensures o.store.Keys == users.Keys
    ensures forall k :: k in users && k != username ==> o.store[k] == users[k]
    ensures username in users ==>
      o.store[username].password == users[username].password &&
      o.store[username].disabled == users[username].disabled
    ensures o.store != users ==> o.body == Plain(true) && o.store[username].hwid == Some(hwid)
  {
    if username !in users then Outcome(users, Coded(false, InvalidUser))
    else
      var a := users[username];
      if a.password != password then Outcome(users, Coded(false, BadPass))
      else if a.disabled then Outcome(users, Coded(false, Disabled))
      else if !IsBound(a) then Outcome(users[username := a.(hwid := Some(hwid))], Plain(true))
      else if a.hwid.value != hwid then Outcome(users, Coded(false, HwidMismatch))
      else Outcome(users, Plain(true))
  }

  /** `POST /admin/addUser`: refuses an existing username, otherwise adds a fresh record. */
  function AddUser(users: Users, username: string, password: string): (o: Outcome)
    ensures o.body.Plain? && (o.body.ok <==> username !in users)
    ensures o.store.Keys == users.Keys + {username}
    ensures forall k :: k in users ==> o.store[k] == users[k]
    ensures username !in users ==> o.store[username] == NewAccount(password)
  {
    if username in users then Outcome(users, Plain(false))
    else Outcome(users[username := NewAccount(password)], Plain(true))
  }

  /** `POST /admin/disableUser`: sets the disabled flag of an existing record. */
  function DisableUser(users: Users, username: string): (o: Outcome)
    ensures o.body.Plain? && (o.body.ok <==> username in users)
    ensures o.store.Keys == users.Keys
    ensures forall k :: k in users && k != username ==> o.store[k] == users[k]
    ensures username in users ==> o.store[username] == users[username].(disabled := true)
  {
    if username !in users then Outcome(users, Plain(false))
    else Outcome(users[username := users[username].(disabled := true)], Plain(true))
  }

  /** `POST /admin/resetHwid`: clears the hwid of an existing record (`hwid = null`). */
  function ResetHwid(users: Users, username: string): (o: Outcome)
    ensures o.body.Plain? && (o.body.ok <==> username in users)
    ensures o.store.Keys == users.Keys
    ensures forall k :: k in users && k != username ==> o.store[k] == users[k]
    ensures username in users ==> o.store[username] == users[username].(hwid := None)
    ensures username in users ==> !IsBound(o.store[username])
  {
    if username !in users then Outcome(users, Plain(false))
    else Outcome(users[username := users[username].(hwid := None)], Plain(true))
  }

  // ----- login: which check fires -----

  /** An unknown username is rejected first, whatever the other fields, and nothing is saved. */
  lemma LoginUnknownUser(users: Users, username: string, password: string, hwid: string)
    requires username !in users
    ensures Login(users, username, password, hwid) == Outcome(users, Coded(false, InvalidUser))
  {
  }

  /**
   Each failure code fires exactly under its own condition, each condition
   including that all earlier checks passed, and no failure saves anything.
   */
  lemma LoginCheckOrder(users: Users, username: string, password: string, hwid: string)
    ensures var o := Login(users, username, password, hwid);
      (o.body == Coded(false, InvalidUser) <==> username !in users) &&
      (o.body == Coded(false, BadPass) <==>
        username in users && users[username].password != password) &&
      (o.body == Coded(false, Disabled) <==>
        username in users && users[username].password == password && users[username].disabled) &&
      (o.body == Coded(false, HwidMismatch) <==>
        username in users && users[username].password == password && !users[username].disabled &&
        IsBound(users[username]) && users[username].hwid.value != hwid) &&
      (!o.body.ok ==> o.store == users)
  {
  }

  /** Login succeeds exactly when the password matches, the account is enabled and the hwid is free or equal. */
  lemma LoginOkIff(users: Users, username: string, password: string, hwid: string)
    ensures Login(users, username, password, hwid).body.ok <==>
      username in users && users[username].password == password && !users[username].disabled &&
      (!IsBound(users[username]) || users[username].hwid == Some(hwid))
  {
  }

  /** A disabled account given a wrong password is told BAD_PASS, not DISABLED. */
  lemma LoginPasswordBeforeDisabled(users: Users, username: string, password: string, hwid: string)
    requires username in users && users[username].disabled && users[username].password != password
    ensures Login(users, username, password, hwid).body == Coded(false, BadPass)
  {
  }

  // ----- login: the hwid transition -----

  /** An unbound, enabled account with the right password binds to the supplied hwid; only that record changes. */
  lemma LoginBindsUnbound(users: Users, username: string, password: string, hwid: string)
    requires username in users && users[username].password == password
    requires !users[username].disabled && !IsBound(users[username])
    ensures Login(users, username, password, hwid) ==
      Outcome(users[username := users[username].(hwid := Some(hwid))], Plain(true))
  {
  }

  /** A bound account answers ok for its own hwid and HWID_MISMATCH for any other, saving nothing either way. */
  lemma LoginBound(users: Users, username: string, password: string, hwid: string)
    requires username in users && users[username].password == password
    requires !users[username].disabled && IsBound(users[username])
    ensures Login(users, username, password, hwid).store == users
    ensures Login(users, username, password, hwid).body ==
      if users[username].hwid == Some(hwid) then Plain(true) else Coded(false, HwidMismatch)
  {
  }

  /** Repeating a login request gives the same answer and the same dictionary as the first one. */
  lemma LoginIdempotent(users: Users, username: string, password: string, hwid: string)
    ensures var o := Login(users, username, password, hwid);
      Login(o.store, username, password, hwid) == o
  {
  }

  /** After a first login binds to a non-empty hwid, any other hwid is refused. */
  lemma LoginBindThenOther(users: Users, username: string, password: string, hwid: string, other: string)
    requires username in users && !IsBound(users[username])
    requires hwid != "" && other != hwid
    ensures var o := Login(users, username, password, hwid);
      o.body.ok ==>
        Login(o.store, username, password, other) == Outcome(o.store, Coded(false, HwidMismatch))
  {
  }

  /**
   A login carrying an empty hwid is answered ok but leaves the account unbound,
   so the next login binds to whatever hwid it carries.
   */
  lemma LoginEmptyHwidLeavesUnbound(users: Users, username: string, password: string, other: string)
    requires username in users && users[username].password == password
    requires !users[username].disabled && !IsBound(users[username])
    ensures var o := Login(users, username, password, "");
      o.body == Plain(true) && !IsBound(o.store[username]) &&
      Login(o.store, username, password, other).body == Plain(true) &&
      Login(o.store, username, password, other).store[username].hwid == Some(other)
  {
  }

  // ----- admin mutations and what a later login sees -----

  /** Disabling twice is disabling once. */
  lemma DisableUserIdempotent(users: Users, username: string)
    ensures var o := DisableUser(users, username);
      DisableUser(o.store, username) == o
  {
  }

  /** Once disabled, an account with the right password is told DISABLED and nothing is saved. */
  lemma DisableThenLogin(users: Users, username: string, password: string, hwid: string)
    requires username in users && users[username].password == password
    ensures var s := DisableUser(users, username).store;
      Login(s, username, password, hwid) == Outcome(s, Coded(false, Disabled))
  {
  }

  /** Resetting twice is resetting once. */
  lemma ResetHwidIdempotent(users: Users, username: string)
    ensures var o := ResetHwid(users, username);
      ResetHwid(o.store, username) == o
  {
  }

  /** After a reset, a correct login on an enabled account binds to whatever hwid it supplies. */
  lemma ResetThenLogin(users: Users, username: string, password: string, hwid: string)
    requires username in users && users[username].password == password && !users[username].disabled
    ensures var s := ResetHwid(users, username).store;
      Login(s, username, password, hwid) ==
        Outcome(users[username := users[username].(hwid := Some(hwid))], Plain(true))
  {
  }

  /** A freshly added user is unbound and enabled: the first correct login binds it. */
  lemma AddUserThenLogin(users: Users, username: string, password: string, hwid: string)
    requires username !in users
    ensures var s := AddUser(users, username, password).store;
      Login(s, username, password, hwid) ==
        Outcome(users[username := Account(password, Some(hwid), false)], Plain(true))
  {
  }
}
