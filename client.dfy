/**
 * The session-aware request gateway of src/api/client.ts.
 *
 * Every call goes through a request hook, which copies the stored token into a
 * bearer `Authorization` header (section 2.1 of RFC 6750), and a response hook,
 * which turns a first 401 into a call to `/auth/refresh-token` followed by one
 * replay of the original request.
 *
 * `Run` is the specification: it says, as a function of the world before the
 * call, what a call returns, what is sent over the network and what happens to
 * storage and session.  `Gateway.Request` is the imperative hook code, working on
 * a mutable `Config` as axios does, and is proved to behave exactly as `Run`.
 *
 * The network is an oracle: the reply to the k-th transmitted request (counting
 * from 0) is `net(k)`.  `fuel` bounds how deeply refresh calls and replays may
 * nest inside one another: the refresh and the replay a first 401 leads to each
 * run with one unit less.  The source has no such bound, and
 * `AlwaysUnauthorizedExhaustsFuel` shows why the model needs one; `FuelAdequate`
 * shows that every result other than `Exhausted` is the one any larger bound gives.
 */
module Client {
  import opened Wrappers
  import opened Http
  import Auth

  const RefreshPath := "/auth/refresh-token"
  const BearerPrefix := "Bearer "

  function Bearer(token: string): (h: string)
    ensures |h| == |BearerPrefix| + |token| && h[..|BearerPrefix|] == BearerPrefix
    ensures h[|BearerPrefix|..] == token
  {
    BearerPrefix + token
  }

  /** The parts of an axios request config the hooks look at or change. */
  datatype Req = Req(url: string, verb: Verb, authorization: Option<string>, retry: bool)

  /** A config as `api.post(url)` builds it: no `Authorization` header, no `_retry` mark. */
  function FreshReq(url: string, verb: Verb): Req
  {
    Req(url, verb, None, false)
  }

  /** What goes over the wire for one transmitted request. */
  datatype Wire = Wire(url: string, verb: Verb, authorization: Option<string>)

  function WireOf(r: Req): Wire
  {
    Wire(r.url, r.verb, r.authorization)
  }

  /**
   * A reply from the network: a response with its status and, for the refresh
   * endpoint, the `data.data.accessToken` it carries (`None` when `data.data` is
   * missing), or no response at all.
   */
  datatype Reply = Response(status: int, accessToken: Option<string>) | NoResponse

  type Network = nat -> Reply

  /** axios settles a response as a success exactly when its status is 2xx. */
  predicate IsSuccess(reply: Reply)
  {
    reply.Response? && 200 <= reply.status < 300
  }

  predicate IsUnauthorized(reply: Reply)
  {
    reply.Response? && reply.status == 401
  }

  /**
   * Why a call was rejected; `call` is the index of the transmission the error
   * came from.  `MalformedBody` is the TypeError thrown when a refresh response
   * has no `data.data`; `Exhausted` is the model's fuel running out.
   */
  datatype Failure =
    | HttpError(call: nat, status: int)
    | NetworkError(call: nat)
    | MalformedBody(call: nat)
    | Exhausted

  datatype Outcome =
    | Resolved(call: nat, status: int, accessToken: Option<string>)
    | Rejected(failure: Failure)

  /** The outcome of transmission `k` when the response hook lets it through unchanged. */
  function Direct(k: nat, reply: Reply): (o: Outcome)
    ensures o.Resolved? <==> IsSuccess(reply)
    ensures o.Resolved? ==> o.call == k && o.status == reply.status && o.accessToken == reply.accessToken
    ensures reply.NoResponse? ==> o == Rejected(NetworkError(k))
    ensures reply.Response? && !IsSuccess(reply) ==> o == Rejected(HttpError(k, reply.status))
  {
    match reply
    case NoResponse => Rejected(NetworkError(k))
    case Response(status, body) =>
      if 200 <= status < 300 then Resolved(k, status, body) else Rejected(HttpError(k, status))
  }

  /** Storage and session, and everything transmitted so far. */
  datatype World = World(auth: Auth.AuthState, sent: seq<Wire>)

  /** The result of one logical call: its outcome, the world after it, and its config after it. */
  datatype Step = Step(outcome: Outcome, world: World, req: Req)

  /** `localStorage.getItem('token')`, and whether it is truthy in `if (token)`. */
  function StoredToken(storage: map<string, string>): (t: Option<string>)
    ensures t.Some? <==> Auth.TokenKey in storage
    ensures t.Some? ==> t.value == storage[Auth.TokenKey]
  {
    if Auth.TokenKey in storage then Some(storage[Auth.TokenKey]) else None
  }

  predicate HasToken(storage: map<string, string>)
  {
    StoredToken(storage).Some? && StoredToken(storage).value != ""
  }

  /** `localStorage.getItem('user') || '{}'`: a missing or empty entry reads as `{}`. */
  function StoredUser(storage: map<string, string>): (u: string)
    ensures u != ""
    ensures Auth.UserKey in storage && storage[Auth.UserKey] != "" ==> u == storage[Auth.UserKey]
    ensures !(Auth.UserKey in storage && storage[Auth.UserKey] != "") ==> u == "{}"
  {
    if Auth.UserKey in storage && storage[Auth.UserKey] != "" then storage[Auth.UserKey] else "{}"
  }

  /** The request hook: overwrite the header with the stored token, when there is one. */
  function WithBearer(storage: map<string, string>, r: Req): (r': Req)
    ensures r'.url == r.url && r'.verb == r.verb && r'.retry == r.retry
    ensures HasToken(storage) ==> r'.authorization == Some(Bearer(StoredToken(storage).value))
    ensures !HasToken(storage) ==> r'.authorization == r.authorization
  {
    if HasToken(storage) then r.(authorization := Some(Bearer(StoredToken(storage).value))) else r
  }

  /** Append one transmission to the log. */
  function Transmit(w: World, r: Req): World
  {
    w.(sent := w.sent + [WireOf(r)])
  }

  /**
   * One logical call `api(r)`, with refresh calls and replays nested at most
   * `fuel` deep: the request hook, one transmission, and the response hook with
   * its refresh and replay.  The hooks never change the url or the verb, and the
   * config ends marked `_retry` exactly when it already was or its first reply was 401.
   */
  function Run(net: Network, persists: bool, w: World, r: Req, fuel: nat): (s: Step)
    ensures s.req.url == r.url && s.req.verb == r.verb
    ensures r.retry ==> s.req.retry
    ensures fuel > 0 ==> (s.req.retry <==> r.retry || IsUnauthorized(net(|w.sent|)))
    decreases fuel
  {
    if fuel == 0 then Step(Rejected(Exhausted), w, r)
    else
      var r1 := WithBearer(w.auth.storage, r);
      var k := |w.sent|;
      var w1 := Transmit(w, r1);
      var reply := net(k);
      if IsUnauthorized(reply) && !r1.retry then
        var r2 := r1.(retry := true);
        var rs := Run(net, persists, w1, FreshReq(RefreshPath, Post), fuel - 1);
        match rs.outcome
        case Rejected(f) =>
          Step(Rejected(f), rs.world.(auth := Auth.Dispatch(persists, rs.world.auth, Auth.Logout)), r2)
        case Resolved(call, _, body) =>
          if body.None? then
            Step(Rejected(MalformedBody(call)),
                 rs.world.(auth := Auth.Dispatch(persists, rs.world.auth, Auth.Logout)), r2)
          else
            var user := StoredUser(rs.world.auth.storage);
            var a := Auth.Dispatch(persists, rs.world.auth, Auth.SetCredentials(user, body.value));
            Run(net, persists, rs.world.(auth := a), r2.(authorization := Some(Bearer(body.value))), fuel - 1)
      else
        Step(Direct(k, reply), w1, r1)
  }

  /** The refresh call a first 401 issues, as a run of its own. */
  function RefreshRun(net: Network, persists: bool, w: World, r: Req, fuel: nat): Step
    requires fuel > 0
  {
    Run(net, persists, Transmit(w, WithBearer(w.auth.storage, r)), FreshReq(RefreshPath, Post), fuel - 1)
  }

  // ---------------------------------------------------------------------------
  // Properties of the specification

  /**
   * The log only grows, and a call with fuel left first transmits its own
   * config, as the request hook leaves it.
   */
  lemma {:induction false} SentGrows(net: Network, persists: bool, w: World, r: Req, fuel: nat)
    ensures var s := Run(net, persists, w, r, fuel);
      && |w.sent| <= |s.world.sent| && s.world.sent[..|w.sent|] == w.sent
      && (fuel > 0 ==> |w.sent| < |s.world.sent| &&
                       s.world.sent[..|w.sent| + 1] == w.sent + [WireOf(WithBearer(w.auth.storage, r))])
    decreases fuel
  {
    if fuel > 0 {
      var r1 := WithBearer(w.auth.storage, r);
      var w1 := Transmit(w, r1);
      var s := Run(net, persists, w, r, fuel);
      if IsUnauthorized(net(|w.sent|)) && !r1.retry {
        var rs := Run(net, persists, w1, FreshReq(RefreshPath, Post), fuel - 1);
        SentGrows(net, persists, w1, FreshReq(RefreshPath, Post), fuel - 1);
        assert rs.world.sent[..|w1.sent|] == w1.sent;
        match rs.outcome
        case Rejected(f) =>
        case Resolved(call, _, body) =>
          if body.Some? {
            var user := StoredUser(rs.world.auth.storage);
            var a := Auth.Dispatch(persists, rs.world.auth, Auth.SetCredentials(user, body.value));
            var r3 := r1.(retry := true).(authorization := Some(Bearer(body.value)));
            SentGrows(net, persists, rs.world.(auth := a), r3, fuel - 1);
            assert s == Run(net, persists, rs.world.(auth := a), r3, fuel - 1);
            assert s.world.sent[..|rs.world.sent|] == rs.world.sent;
            assert s.world.sent[..|w1.sent|] == rs.world.sent[..|w1.sent|];
          }
        assert s.world.sent[..|w1.sent|] == w1.sent;
        assert s.world.sent[..|w.sent|] == w1.sent[..|w.sent|];
      }
    }
  }

  /**
   * The bound does not matter once it suffices: a call that does not run out of
   * fuel gives the same outcome, world and config with one more unit.
   */
  lemma {:induction false} FuelAdequate(net: Network, persists: bool, w: World, r: Req, fuel: nat)
    requires Run(net, persists, w, r, fuel).outcome != Rejected(Exhausted)
    ensures Run(net, persists, w, r, fuel + 1) == Run(net, persists, w, r, fuel)
    decreases fuel
  {
    assert fuel > 0;
    var r1 := WithBearer(w.auth.storage, r);
    var w1 := Transmit(w, r1);
    if IsUnauthorized(net(|w.sent|)) && !r1.retry {
      var rs := Run(net, persists, w1, FreshReq(RefreshPath, Post), fuel - 1);
      assert rs.outcome != Rejected(Exhausted);
      FuelAdequate(net, persists, w1, FreshReq(RefreshPath, Post), fuel - 1);
      match rs.outcome
      case Rejected(f) =>
      case Resolved(call, _, body) =>
        if body.Some? {
          var user := StoredUser(rs.world.auth.storage);
          var a := Auth.Dispatch(persists, rs.world.auth, Auth.SetCredentials(user, body.value));
          var r3 := r1.(retry := true).(authorization := Some(Bearer(body.value)));
          FuelAdequate(net, persists, rs.world.(auth := a), r3, fuel - 1);
        }
    }
  }

  /** Hence any larger bound gives the same result as one that suffices. */
  lemma {:induction false} FuelAdequateAll(net: Network, persists: bool, w: World, r: Req, fuel: nat, more: nat)
    requires Run(net, persists, w, r, fuel).outcome != Rejected(Exhausted)
    ensures Run(net, persists, w, r, fuel + more) == Run(net, persists, w, r, fuel)
    decreases more
  {
    if more > 0 {
      FuelAdequateAll(net, persists, w, r, fuel, more - 1);
      FuelAdequate(net, persists, w, r, fuel + more - 1);
    }
  }

  /** The index a settled outcome refers to, if it refers to one. */
  function CallOf(o: Outcome): Option<nat>
  {
    match o
    case Resolved(call, _, _) => Some(call)
    case Rejected(HttpError(call, _)) => Some(call)
    case Rejected(NetworkError(call)) => Some(call)
    case Rejected(MalformedBody(call)) => Some(call)
    case Rejected(Exhausted) => None
  }

  /** Whatever a call settles with comes from one of its own transmissions. */
  lemma {:induction false} OutcomeFromOwnCalls(net: Network, persists: bool, w: World, r: Req, fuel: nat)
    ensures var s := Run(net, persists, w, r, fuel);
      CallOf(s.outcome).Some? ==> |w.sent| <= CallOf(s.outcome).value < |s.world.sent|
    decreases fuel
  {
    if fuel > 0 {
      var r1 := WithBearer(w.auth.storage, r);
      var w1 := Transmit(w, r1);
      if IsUnauthorized(net(|w.sent|)) && !r1.retry {
        var rs := Run(net, persists, w1, FreshReq(RefreshPath, Post), fuel - 1);
        OutcomeFromOwnCalls(net, persists, w1, FreshReq(RefreshPath, Post), fuel - 1);
        match rs.outcome
        case Rejected(f) =>
        case Resolved(call, _, body) =>
          if body.Some? {
            var user := StoredUser(rs.world.auth.storage);
            var a := Auth.Dispatch(persists, rs.world.auth, Auth.SetCredentials(user, body.value));
            var r3 := r1.(retry := true).(authorization := Some(Bearer(body.value)));
            OutcomeFromOwnCalls(net, persists, rs.world.(auth := a), r3, fuel - 1);
            SentGrows(net, persists, w1, FreshReq(RefreshPath, Post), fuel - 1);
          }
      }
    }
  }

  /**
   * A success goes straight back to the caller: one transmission, carrying the
   * stored bearer header, and no refresh; storage and session are unchanged.
   */
  lemma SuccessPassesThrough(net: Network, persists: bool, w: World, r: Req, fuel: nat)
    requires fuel > 0 && IsSuccess(net(|w.sent|))
    ensures var s := Run(net, persists, w, r, fuel);
      && s.outcome == Resolved(|w.sent|, net(|w.sent|).status, net(|w.sent|).accessToken)
      && s.world.sent == w.sent + [WireOf(WithBearer(w.auth.storage, r))]
      && s.world.auth == w.auth
  {
  }

  /**
   * No response, a status other than 401, or a config already marked `_retry`:
   * the call is rejected with the error of its own transmission, nothing else is
   * sent, and storage and session are unchanged.
   */
  lemma NonRefreshableErrorRejected(net: Network, persists: bool, w: World, r: Req, fuel: nat)
    requires fuel > 0 && !IsSuccess(net(|w.sent|))
    requires !IsUnauthorized(net(|w.sent|)) || r.retry
    ensures var s := Run(net, persists, w, r, fuel);
      var k := |w.sent|;
      && s.outcome.Rejected?
      && (net(k).NoResponse? ==> s.outcome.failure == NetworkError(k))
      && (net(k).Response? ==> s.outcome.failure == HttpError(k, net(k).status))
      && s.world.sent == w.sent + [WireOf(WithBearer(w.auth.storage, r))]
      && s.world.auth == w.auth
  {
  }

  /**
   * A config already marked `_retry` is sent exactly once, whatever the reply:
   * the mark set at the first 401 rules out a second refresh for the same config.
   */
  lemma RetriedRequestIsSingleShot(net: Network, persists: bool, w: World, r: Req, fuel: nat)
    requires fuel > 0 && r.retry
    ensures var s := Run(net, persists, w, r, fuel);
      && s.outcome == Direct(|w.sent|, net(|w.sent|))
      && |s.world.sent| == |w.sent| + 1
      && s.world.auth == w.auth
      && s.req.retry
  {
  }

  /**
   * On a first 401 the config is marked `_retry`, and the next transmission is
   * the refresh call: a POST to `/auth/refresh-token` with a fresh config, which
   * therefore goes through the request hook and carries the stored (stale) token.
   */
  lemma FirstUnauthorizedIssuesRefresh(net: Network, persists: bool, w: World, r: Req, fuel: nat)
    requires fuel > 1 && IsUnauthorized(net(|w.sent|)) && !r.retry
    ensures var s := Run(net, persists, w, r, fuel);
      && s.req.retry
      && |s.world.sent| >= |w.sent| + 2
      && s.world.sent[|w.sent|] == WireOf(WithBearer(w.auth.storage, r))
      && s.world.sent[|w.sent| + 1] == Wire(RefreshPath, Post, WithBearer(w.auth.storage, FreshReq(RefreshPath, Post)).authorization)
  {
    var r1 := WithBearer(w.auth.storage, r);
    var w1 := Transmit(w, r1);
    var fr := FreshReq(RefreshPath, Post);
    var rs := Run(net, persists, w1, fr, fuel - 1);
    var w2 := Transmit(w1, WithBearer(w1.auth.storage, fr));
    SentGrows(net, persists, w1, fr, fuel - 1);
    assert rs.world.sent[..|w2.sent|] == w2.sent;
    var s := Run(net, persists, w, r, fuel);
    match rs.outcome
    case Rejected(_) =>
    case Resolved(_, _, body) =>
      if body.Some? {
        var a := Auth.Dispatch(persists, rs.world.auth,
                               Auth.SetCredentials(StoredUser(rs.world.auth.storage), body.value));
        var r3 := r1.(retry := true).(authorization := Some(Bearer(body.value)));
        SentGrows(net, persists, rs.world.(auth := a), r3, fuel - 1);
        assert s == Run(net, persists, rs.world.(auth := a), r3, fuel - 1);
        assert s.world.sent[..|rs.world.sent|] == rs.world.sent;
      }
    assert s.world.sent[..|w2.sent|] == w2.sent;
    assert s.world.sent[|w.sent|] == w2.sent[|w.sent|];
    assert s.world.sent[|w.sent| + 1] == w2.sent[|w.sent| + 1];
  }

  /**
   * The refresh failed (rejected, or answered without `data.data`): `logout` is
   * dispatched, nothing is transmitted after the refresh (the original request
   * is not replayed), and the caller gets the refresh's error, never the
   * original 401.
   */
  lemma RefreshFailureLogsOut(net: Network, persists: bool, w: World, r: Req, fuel: nat)
    requires fuel > 0 && IsUnauthorized(net(|w.sent|)) && !r.retry
    requires var rs := RefreshRun(net, persists, w, r, fuel);
      rs.outcome.Rejected? || rs.outcome.accessToken.None?
    ensures var s := Run(net, persists, w, r, fuel);
      var rs := RefreshRun(net, persists, w, r, fuel);
      && s.world.auth.session == Auth.LoggedOut
      && (persists ==> Auth.TokenKey !in s.world.auth.storage && Auth.UserKey !in s.world.auth.storage)
      && s.world.sent == rs.world.sent
      && s.outcome == (if rs.outcome.Rejected? then rs.outcome else Rejected(MalformedBody(rs.outcome.call)))
      && s.outcome != Rejected(HttpError(|w.sent|, 401))
      && s.req.retry
  {
    var w1 := Transmit(w, WithBearer(w.auth.storage, r));
    OutcomeFromOwnCalls(net, persists, w1, FreshReq(RefreshPath, Post), fuel - 1);
  }

  /** The header the replay goes out with: the request hook's, whenever a token is stored. */
  function ReplayHeader(storage: map<string, string>, token: string): string
  {
    WithBearer(storage, Req("", Get, Some(Bearer(token)), true)).authorization.value
  }

  /**
   * The stored token wins over the header written for the replay: when storage
   * holds a non-empty token the replay carries it, and `Bearer <new token>`
   * survives only when nothing usable is stored.
   */
  lemma ReplayHeaderChoice(storage: map<string, string>, token: string)
    ensures HasToken(storage) ==> ReplayHeader(storage, token) == Bearer(storage[Auth.TokenKey])
    ensures !HasToken(storage) ==> ReplayHeader(storage, token) == Bearer(token)
  {
  }

  /**
   * The refresh succeeded with a token: `setCredentials` receives the stored user
   * (or `{}`) and the new token, the original request is replayed exactly once
   * with the header of `ReplayHeader`, and the caller gets the replay's outcome
   * as the response hook lets it through, a second 401 included.
   */
  lemma RefreshSuccessReplaysOnce(net: Network, persists: bool, w: World, r: Req, fuel: nat)
    requires fuel > 0 && IsUnauthorized(net(|w.sent|)) && !r.retry
    requires var rs := RefreshRun(net, persists, w, r, fuel);
      rs.outcome.Resolved? && rs.outcome.accessToken.Some?
    ensures var s := Run(net, persists, w, r, fuel);
      var rs := RefreshRun(net, persists, w, r, fuel);
      var token := rs.outcome.accessToken.value;
      var user := StoredUser(rs.world.auth.storage);
      var a := Auth.Dispatch(persists, rs.world.auth, Auth.SetCredentials(user, token));
      var j := |rs.world.sent|;
      && a.session == Auth.Session(Some(user), Some(token))
      && s.world.auth == a
      && s.world.sent == rs.world.sent + [Wire(r.url, r.verb, Some(ReplayHeader(a.storage, token)))]
      && s.outcome == Direct(j, net(j))
      && (persists ==> StoredToken(s.world.auth.storage) == Some(token))
      && (persists ==> s.world.sent[j].authorization == Some(Bearer(token)))
  {
    var rs := RefreshRun(net, persists, w, r, fuel);
    OutcomeFromOwnCalls(net, persists, Transmit(w, WithBearer(w.auth.storage, r)), FreshReq(RefreshPath, Post), fuel - 1);
    assert fuel > 1;
  }

  /**
   * If the server answers every call with 401, every refresh call's own 401
   * re-enters the response hook and issues another refresh: the calls go on
   * until the fuel runs out, all but the first being refresh calls with the
   * same stale header.  The source has no bound here.
   */
  lemma {:induction false} AlwaysUnauthorizedExhaustsFuel(net: Network, persists: bool, w: World, r: Req, fuel: nat)
    requires forall k :: IsUnauthorized(net(k))
    requires !r.retry
    ensures var s := Run(net, persists, w, r, fuel);
      && s.outcome == Rejected(Exhausted)
      && |s.world.sent| == |w.sent| + fuel
      && s.world.sent[..|w.sent|] == w.sent
      && (fuel > 0 ==> s.world.sent[|w.sent|] == WireOf(WithBearer(w.auth.storage, r)))
      && forall i :: |w.sent| < i < |s.world.sent| ==>
           s.world.sent[i] == WireOf(WithBearer(w.auth.storage, FreshReq(RefreshPath, Post)))
    decreases fuel
  {
    if fuel > 0 {
      var r1 := WithBearer(w.auth.storage, r);
      var w1 := Transmit(w, r1);
      var fr := FreshReq(RefreshPath, Post);
      AlwaysUnauthorizedExhaustsFuel(net, persists, w1, fr, fuel - 1);
      var rs := Run(net, persists, w1, fr, fuel - 1);
      var s := Run(net, persists, w, r, fuel);
      assert s.world.sent == rs.world.sent;
      assert s.world.sent[..|w1.sent|] == w1.sent;
      assert s.world.sent[..|w.sent|] == w1.sent[..|w.sent|];
      if fuel > 1 {
        assert s.world.sent[|w1.sent|] == WireOf(WithBearer(w.auth.storage, fr));
      }
    }
  }

  // ---------------------------------------------------------------------------
  // The hooks as code

  /** An axios request config: the hooks write its header and its `_retry` mark in place. */
  class Config {
    const url: string
    const verb: Verb
    var authorization: Option<string>
    var retry: bool

    constructor (url: string, verb: Verb)
      ensures Snapshot() == FreshReq(url, verb)
    {
      this.url := url;
      this.verb := verb;
      authorization := None;
      retry := false;
    }

    function Snapshot(): Req
      reads this
    {
      Req(url, verb, authorization, retry)
    }
  }

  /** The `api` instance with its two hooks, the browser storage and the session store. */
  class Gateway {
    const net: Network
    const persists: bool
    var auth: Auth.AuthState
    var sent: seq<Wire>

    constructor (net: Network, persists: bool, auth: Auth.AuthState)
      ensures this.net == net && this.persists == persists
      ensures Current() == World(auth, [])
    {
      this.net := net;
      this.persists := persists;
      this.auth := auth;
      sent := [];
    }

    /** The gateway's state as the specification sees it. */
    function Current(): World
      reads this
    {
      World(auth, sent)
    }

    /** `store.dispatch(a)`. */
    method Dispatch(a: Auth.Action)
      modifies this`auth
      ensures auth == Auth.Dispatch(persists, old(auth), a)
    {
      auth := Auth.Dispatch(persists, auth, a);
    }

    /** The request hook (lines 11-17): write the bearer header when a token is stored. */
    method RequestHook(cfg: Config)
      modifies cfg
      ensures cfg.Snapshot() == WithBearer(auth.storage, old(cfg.Snapshot()))
    {
      var token := StoredToken(auth.storage);
      if token.Some? && token.value != "" {
        cfg.authorization := Some(Bearer(token.value));
      }
    }

    /** Hand the config to the network and take its reply. */
    method Send(cfg: Config) returns (reply: Reply)
      modifies this`sent
      ensures sent == old(sent) + [WireOf(cfg.Snapshot())]
      ensures reply == net(|old(sent)|)
    {
      reply := net(|sent|);
      sent := sent + [WireOf(cfg.Snapshot())];
    }

    /** `api(cfg)`: the request hook, the transmission and the response hook (lines 20-47). */
    method Request(cfg: Config, fuel: nat) returns (o: Outcome)
      modifies this, cfg
      ensures var s := Run(net, persists, old(Current()), old(cfg.Snapshot()), fuel);
        o == s.outcome && Current() == s.world && cfg.Snapshot() == s.req
      decreases fuel
    {
      if fuel == 0 {
        return Rejected(Exhausted);
      }
      RequestHook(cfg);
      var k := |sent|;
      var reply := Send(cfg);
      if reply.Response? && reply.status == 401 && !cfg.retry {
        cfg.retry := true;
        var refresh := new Config(RefreshPath, Post);
        var ro := Request(refresh, fuel - 1);
        match ro {
          case Rejected(f) =>
            Dispatch(Auth.Logout);
            o := ro;
          case Resolved(call, _, body) =>
            if body.None? {
              Dispatch(Auth.Logout);
              o := Rejected(MalformedBody(call));
            } else {
              var user := StoredUser(auth.storage);
              Dispatch(Auth.SetCredentials(user, body.value));
              cfg.authorization := Some(Bearer(body.value));
              o := Request(cfg, fuel - 1);
            }
        }
      } else {
        o := Direct(k, reply);
      }
    }

    /** `api.get(url)`, `api.post(url)`, ...: a call on a fresh config. */
    method Call(url: string, verb: Verb, fuel: nat) returns (o: Outcome)
      modifies this
      ensures o == Run(net, persists, old(Current()), FreshReq(url, verb), fuel).outcome
      ensures Current() == Run(net, persists, old(Current()), FreshReq(url, verb), fuel).world
    {
      var cfg := new Config(url, verb);
      o := Request(cfg, fuel);
    }
  }
}
