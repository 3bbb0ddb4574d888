/**
 The dashboard server as a whole: requests pass the matching key gate, then the
 handler reads the users dictionary, changes at most one record and writes it
 back. `Serve` is one request, `Run` a sequence of them; the class `DashboardServer`
 holds the dictionary and performs the same steps in place.
 */
module Server {
  import opened Wrappers
  import opened Accounts
  import opened Gates

  /** The HTTP status of every handler answer (Express's default). */
  const Success: nat := 200

  /** `ADMIN_KEY` and `API_KEY` as read from the environment at start-up; either may be unset. */
  datatype Config = Config(adminKey: Option<string>, apiKey: Option<string>)

  /** The two headers the gates read: `x-admin-key` and `x-api-key`. */
  datatype Headers = Headers(adminKey: Option<string>, apiKey: Option<string>)

  /** The four POST routes with the body fields each handler reads. */
  datatype Route =
    | LoginRoute(username: string, password: string, hwid: string)
    | AddUserRoute(username: string, password: string)
    | DisableUserRoute(username: string)
    | ResetHwidRoute(username: string)

  datatype Request = Request(headers: Headers, route: Route)

  datatype Response = Response(store: Users, reply: Reply)

  /** `/api/login` lies under the `/api` gate; every other route under the `/admin` gate. */
  function Gate(config: Config, req: Request): Verdict
  {
    if req.route.LoginRoute? then ApiGate(req.headers.apiKey, config.apiKey)
    else AdminGate(req.headers.adminKey, config.adminKey)
  }

  /** The handler each route reaches once its gate called `next()`. */
  function Dispatch(users: Users, route: Route): Outcome
  {
    match route
    case LoginRoute(u, p, h) => Login(users, u, p, h)
    case AddUserRoute(u, p) => AddUser(users, u, p)
    case DisableUserRoute(u) => DisableUser(users, u)
    case ResetHwidRoute(u) => ResetHwid(users, u)
  }

  /**
   One request end to end. A rejected request never reaches its handler; no
   request removes a user or changes a password, and only an admin request that
   passed its gate can clear a bound hwid or create an account.
   */
  function Serve(config: Config, users: Users, req: Request): (r: Response)
    ensures Gate(config, req).Reject? ==> r == Response(users, Gate(config, req).reply)
    ensures Gate(config, req).Next? ==> r.reply.status == Success
    ensures users.Keys <= r.store.Keys
    ensures r.store.Keys != users.Keys ==> req.route.AddUserRoute? && Gate(config, req).Next?
    ensures forall k :: k in users ==> r.store[k].password == users[k].password
    ensures forall k :: k in users && users[k].disabled ==> r.store[k].disabled
    ensures forall k :: k in users && IsBound(users[k]) && r.store[k].hwid != users[k].hwid ==>
      req.route == ResetHwidRoute(k) && Gate(config, req).Next?
  {
    match Gate(config, req)
    case Reject(reply) => Response(users, reply)
    case Next =>
      var o := Dispatch(users, req.route);
      Response(o.store, Reply(Success, o.body))
  }

  /** The dictionary after serving `reqs` one after another. */
  function Run(config: Config, users: Users, reqs: seq<Request>): Users
    decreases |reqs|
  {
    if reqs == [] then users
    else Run(config, Serve(config, users, reqs[0]).store, reqs[1..])
  }

  /** `req` is a `resetHwid` for `username` that the admin gate lets through. */
  predicate ResetsHwidOf(config: Config, req: Request, username: string)
  {
    req.route == ResetHwidRoute(username) && Gate(config, req).Next?
  }

  // ----- what survives any sequence of requests -----

  /** No request deletes an account or changes its password. */
  lemma {:induction false} RunKeepsAccounts(config: Config, users: Users, reqs: seq<Request>)
    ensures users.Keys <= Run(config, users, reqs).Keys
    ensures forall k :: k in users ==> Run(config, users, reqs)[k].password == users[k].password
    decreases |reqs|
  {
    if reqs != [] {
      RunKeepsAccounts(config, Serve(config, users, reqs[0]).store, reqs[1..]);
    }
  }

  /** There is no way back from `disableUser`: a disabled account stays disabled. */
  lemma {:induction false} RunKeepsDisabled(config: Config, users: Users, reqs: seq<Request>, username: string)
    requires username in users && users[username].disabled
    ensures username in Run(config, users, reqs) && Run(config, users, reqs)[username].disabled
    decreases |reqs|
  {
    if reqs != [] {
      RunKeepsDisabled(config, Serve(config, users, reqs[0]).store, reqs[1..], username);
    }
  }

  /** A bound hwid stays as it is until an admin-authorised `resetHwid` for that account. */
  lemma {:induction false} RunKeepsBinding(config: Config, users: Users, reqs: seq<Request>, username: string)
    requires username in users && IsBound(users[username])
    requires forall i :: 0 <= i < |reqs| ==> !ResetsHwidOf(config, reqs[i], username)
    ensures username in Run(config, users, reqs)
    ensures Run(config, users, reqs)[username].hwid == users[username].hwid
    decreases |reqs|
  {
    if reqs != [] {
      var next := Serve(config, users, reqs[0]).store;
      assert !ResetsHwidOf(config, reqs[0], username);
      forall i | 0 <= i < |reqs[1..]| ensures !ResetsHwidOf(config, reqs[1..][i], username) {
        assert reqs[1..][i] == reqs[i + 1];
      }
      RunKeepsBinding(config, next, reqs[1..], username);
    }
  }

  /** Requests whose keys are all wrong change nothing. */
  lemma {:induction false} RunRejectedChangesNothing(config: Config, users: Users, reqs: seq<Request>)
    requires forall i :: 0 <= i < |reqs| ==> Gate(config, reqs[i]).Reject?
    ensures Run(config, users, reqs) == users
    decreases |reqs|
  {
    if reqs != [] {
      assert Gate(config, reqs[0]).Reject?;
      forall i | 0 <= i < |reqs[1..]| ensures Gate(config, reqs[1..][i]).Reject? {
        assert reqs[1..][i] == reqs[i + 1];
      }
      RunRejectedChangesNothing(config, users, reqs[1..]);
    }
  }

  /** Once disabled, an account never logs in again, whatever happens in between. */
  lemma DisabledNeverLogsIn(config: Config, users: Users, reqs: seq<Request>,
                            username: string, password: string, hwid: string)
    requires username in users && users[username].disabled
    ensures !Login(Run(config, users, reqs), username, password, hwid).body.ok
  {
    RunKeepsDisabled(config, users, reqs, username);
  }

  /**
   The first successful login of an unbound account fixes its hwid: until an
   authorised reset, every other hwid is refused, and logins from that hwid
   succeed for as long as the account is not disabled.
   */
  lemma FirstBindIsPermanent(config: Config, users: Users, reqs: seq<Request>,
                             username: string, password: string, hwid: string, other: string)
    requires username in users && !IsBound(users[username]) && hwid != ""
    requires Login(users, username, password, hwid).body.ok
    requires forall i :: 0 <= i < |reqs| ==> !ResetsHwidOf(config, reqs[i], username)
    ensures var s := Run(config, Login(users, username, password, hwid).store, reqs);
      username in s && s[username].hwid == Some(hwid) &&
      (other != hwid ==> !Login(s, username, password, other).body.ok) &&
      (!s[username].disabled ==> Login(s, username, password, hwid).body == Plain(true))
  {
    RunKeepsBinding(config, Login(users, username, password, hwid).store, reqs, username);
    RunKeepsAccounts(config, Login(users, username, password, hwid).store, reqs);
  }

  /**
   A session against an empty dictionary: add `x`, bind it to HW1, be refused
   from HW2, reset, then bind to HW2; a login with the wrong api key is refused
   with 403 and changes nothing.
   */
  lemma ResetAndRebindScenario()
    ensures var c := Config(Some("admin-secret"), Some("api-secret"));
      var admin := Headers(Some("admin-secret"), None);
      var loader := Headers(None, Some("api-secret"));
      var r1 := Serve(c, map[], Request(admin, AddUserRoute("x", "p")));
      var r2 := Serve(c, r1.store, Request(loader, LoginRoute("x", "p", "HW1")));
      var r3 := Serve(c, r2.store, Request(loader, LoginRoute("x", "p", "HW2")));
      var r4 := Serve(c, r3.store, Request(admin, ResetHwidRoute("x")));
      var r5 := Serve(c, r4.store, Request(loader, LoginRoute("x", "p", "HW2")));
      var r6 := Serve(c, r5.store, Request(admin, LoginRoute("x", "p", "HW2")));
      r1.reply == Reply(Success, Plain(true)) &&
      r2.reply == Reply(Success, Plain(true)) && r2.store["x"].hwid == Some("HW1") &&
      r3.reply == Reply(Success, Coded(false, HwidMismatch)) && r3.store == r2.store &&
      r4.reply == Reply(Success, Plain(true)) &&
      r5.reply == Reply(Success, Plain(true)) && r5.store["x"].hwid == Some("HW2") &&
      r6.reply == Reply(Forbidden, Coded(false, InvalidApiKey)) && r6.store == r5.store
  {
  }

  /** The running server: the users dictionary it loads and saves, and the keys it was started with. */
  class DashboardServer {
    const config: Config
    var users: Users

    /** Start-up: the keys from the environment and the dictionary `users.json` holds (empty when absent). */
    constructor (config: Config, users: Users)
      ensures this.config == config && this.users == users
    {
      this.config := config;
      this.users := users;
    }

    /** The `/api/login` handler: answers as `Accounts.Login` and saves only on a bind. */
    method Login(username: string, password: string, hwid: string) returns (body: Body)
      modifies this
      ensures users == Accounts.Login(old(users), username, password, hwid).store
      ensures body == Accounts.Login(old(users), username, password, hwid).body
    {
      if username !in users {
        return Coded(false, InvalidUser);
      }
      var account := users[username];
      if account.password != password {
        return Coded(false, BadPass);
      }
      if account.disabled {
        return Coded(false, Disabled);
      }
      if !IsBound(account) {
        users := users[username := account.(hwid := Some(hwid))];
        return Plain(true);
      }
      if account.hwid.value != hwid {
        return Coded(false, HwidMismatch);
      }
      return Plain(true);
    }

    /** The `/admin/addUser` handler. */
    method AddUser(username: string, password: string) returns (body: Body)
      modifies this
      ensures users == Accounts.AddUser(old(users), username, password).store
      ensures body == Accounts.AddUser(old(users), username, password).body
    {
      if username in users {
        return Plain(false);
      }
      users := users[username := NewAccount(password)];
      return Plain(true);
    }

    /** The `/admin/disableUser` handler. */
    method DisableUser(username: string) returns (body: Body)
      modifies this
      ensures users == Accounts.DisableUser(old(users), username).store
      ensures body == Accounts.DisableUser(old(users), username).body
    {
      if username !in users {
        return Plain(false);
      }
      users := users[username := users[username].(disabled := true)];
      return Plain(true);
    }

    /** The `/admin/resetHwid` handler. */
    method ResetHwid(username: string) returns (body: Body)
      modifies this
      ensures users == Accounts.ResetHwid(old(users), username).store
      ensures body == Accounts.ResetHwid(old(users), username).body
    {
      if username !in users {
        return Plain(false);
      }
      users := users[username := users[username].(hwid := None)];
      return Plain(true);
    }

    /** One request through the middleware chain: the matching gate, then the route's handler. */
    method Handle(req: Request) returns (reply: Reply)
      modifies this
      ensures users == Serve(config, old(users), req).store
      ensures reply == Serve(config, old(users), req).reply
    {
      var verdict := Gate(config, req);
      if verdict.Reject? {
        return verdict.reply;
      }
      var body: Body;
      match req.route {
        case LoginRoute(u, p, h) => body := Login(u, p, h);
        case AddUserRoute(u, p) => body := AddUser(u, p);
        case DisableUserRoute(u) => body := DisableUser(u);
        case ResetHwidRoute(u) => body := ResetHwid(u);
      }
      return Reply(Success, body);
    }
  }
}
