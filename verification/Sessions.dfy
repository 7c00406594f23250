/**
  App sessions (server/session/session.go, server/store/session.go): one session per app and user,
  kept in the store and on the Mattermost server, extended or replaced as the clock moves on.
 */
module Sessions {
  import opened Wrappers
  import opened Bindings
  import opened Records
  import opened Mattermost
  import opened Keys
  import opened Paging
  import opened AppData

  const NS_PER_MS := 1_000_000
  const SESSION_LENGTH := 600_000_000_000
  const MIN_SESSION_LENGTH := 300_000_000_000

  /** Session.IsExpired, `now` in nanoseconds; a session without an expiry does not expire. */
  predicate Expired(s: Session, now: int) {
    s.expiresAt > 0 && now / NS_PER_MS > s.expiresAt
  }

  lemma ExpiredForGood(s: Session, now: int, later: int)
    requires now <= later && Expired(s, now)
    ensures Expired(s, later)
  {
    assert now / NS_PER_MS <= later / NS_PER_MS;
  }

  function Remaining(s: Session, now: int): int {
    s.expiresAt * NS_PER_MS - now
  }

  function KeyOf(s: Session): string {
    SessionKey(s.appID, s.userID)
  }

  // ---------------------------------------------------------------- the state machine

  /** The time, the store, and the app sessions that the Mattermost server has. */
  datatype World = World(now: int, data: KVData, live: map<string, Session>)

  /** A stored session is filed under its own app and user, and is what the server has. */
  predicate Mirrored(w: World, key: string) {
    && key in w.data && w.data[key].SessionValue?
    && var s := w.data[key].session;
    && key == KeyOf(s) && s.id != "" && '_' !in s.userID
    && s.id in w.live && w.live[s.id] == s
  }

  predicate Stored(data: KVData, s: Session) {
    KeyOf(s) in data && data[KeyOf(s)] == SessionValue(s)
  }

  /** A session on the server that has not expired is the stored one. */
  predicate Accounted(w: World, id: string) {
    && id in w.live && w.live[id].id == id && '_' !in w.live[id].userID
    && (Expired(w.live[id], w.now) || Stored(w.data, w.live[id]))
  }

  ghost predicate SessionsInv(w: World) {
    && (forall k :: k in w.data && IsSessionKey(k) ==> Mirrored(w, k))
    && (forall id :: id in w.live ==> Accounted(w, id))
  }

  /** Two sessions for one app and user, neither of them expired. */
  predicate BothLive(w: World, i: string, j: string) {
    && i in w.live && j in w.live
    && !Expired(w.live[i], w.now) && !Expired(w.live[j], w.now)
    && w.live[i].appID == w.live[j].appID && w.live[i].userID == w.live[j].userID
  }

  ghost predicate AtMostOneLive(w: World) {
    forall i, j :: BothLive(w, i, j) ==> i == j
  }

  lemma InvMeansAtMostOne(w: World)
    requires SessionsInv(w)
    ensures AtMostOneLive(w)
  {
    forall i, j | BothLive(w, i, j)
      ensures i == j
    {
      assert Accounted(w, i) && Accounted(w, j);
    }
  }

  predicate HasSession(data: KVData, key: string) {
    key in data && data[key].SessionValue?
  }

  /** Where the sessions mirror the server's, what is stored for an app and a user is their session. */
  lemma StoredIsTheirs(w: World, appID: AppID, userID: UserID)
    requires '_' !in userID
    ensures SessionsInv(w) && SessionKey(appID, userID) in w.data ==>
      && HasSession(w.data, SessionKey(appID, userID))
      && w.data[SessionKey(appID, userID)].session.appID == appID
      && w.data[SessionKey(appID, userID)].session.userID == userID
      && Mirrored(w, SessionKey(appID, userID))
  {
    var key := SessionKey(appID, userID);
    SessionKeyIsOne(Session("", appID, userID, 0));
    if SessionsInv(w) && key in w.data {
      assert Mirrored(w, key);
      SessionKeyInjective(appID, userID, w.data[key].session.appID, w.data[key].session.userID);
    }
  }

  /** Time passes. */
  predicate Ticked(w: World, w': World) {
    w.now <= w'.now && w'.data == w.data && w'.live == w.live
  }

  /**
    A session is handed out: a new one where none is alive, or the stored one, perhaps extended.
   */
  predicate Issued(w: World, w': World, s: Session) {
    && w'.data == w.data[KeyOf(s) := SessionValue(s)] && w'.live == w.live[s.id := s] && w'.now == w.now
    && s.id != "" && '_' !in s.userID && Remaining(s, w.now) > MIN_SESSION_LENGTH
    && if s.id in w.live then
         HasSession(w.data, KeyOf(s)) && w.data[KeyOf(s)].session.(expiresAt := s.expiresAt) == s
       else HasSession(w.data, KeyOf(s)) ==> Expired(w.data[KeyOf(s)].session, w.now)
  }

  /** A stored session is revoked unless expired, and removed. */
  predicate Revoked(w: World, w': World, s: Session) {
    && Stored(w.data, s) && w'.now == w.now && w'.data == w.data - {KeyOf(s)}
    && w'.live == if Expired(s, w.now) then w.live else w.live - {s.id}
  }

  /** Something else is written to the flat store. */
  ghost predicate Elsewhere(w: World, w': World) {
    && w'.now == w.now && w'.live == w.live
    && forall k :: IsSessionKey(k) ==> (k in w.data <==> k in w'.data) && (k in w.data ==> w'.data[k] == w.data[k])
  }

  ghost predicate Next(w: World, w': World) {
    Ticked(w, w') || Elsewhere(w, w') || (exists s :: Issued(w, w', s)) || (exists s :: Revoked(w, w', s))
  }

  lemma SessionKeyIsOne(s: Session)
    ensures IsSessionKey(KeyOf(s))
  {
    assert KeyOf(s)[..2] == KV_TOKEN_PREFIX;
  }

  lemma TickKeepsInv(w: World, w': World)
    requires SessionsInv(w) && Ticked(w, w')
    ensures SessionsInv(w')
  {
    forall k | k in w'.data && IsSessionKey(k)
      ensures Mirrored(w', k)
    {
      assert Mirrored(w, k);
    }
    forall id | id in w'.live
      ensures Accounted(w', id)
    {
      assert Accounted(w, id);
      if Expired(w.live[id], w.now) {
        ExpiredForGood(w.live[id], w.now, w'.now);
      }
    }
  }

  lemma ElsewhereKeepsInv(w: World, w': World)
    requires SessionsInv(w) && Elsewhere(w, w')
    ensures SessionsInv(w')
  {
    forall k | k in w'.data && IsSessionKey(k)
      ensures Mirrored(w', k)
    {
      assert Mirrored(w, k);
    }
    forall id | id in w'.live
      ensures Accounted(w', id)
    {
      assert Accounted(w, id);
      SessionKeyIsOne(w.live[id]);
    }
  }

  /** The session stored where s goes is either the same session or expired. */
  lemma IssueReplaces(w: World, w': World, s: Session)
    requires SessionsInv(w) && Issued(w, w', s) && KeyOf(s) in w.data
    ensures Mirrored(w, KeyOf(s))
    ensures w.data[KeyOf(s)].session.id == s.id || Expired(w.data[KeyOf(s)].session, w.now)
  {
    SessionKeyIsOne(s);
    assert Mirrored(w, KeyOf(s));
  }

  lemma IssueKeepsInv(w: World, w': World, s: Session)
    requires SessionsInv(w) && Issued(w, w', s)
    ensures SessionsInv(w')
  {
    var key := KeyOf(s);
    forall k | k in w'.data && IsSessionKey(k)
      ensures Mirrored(w', k)
    {
      if k != key {
        assert Mirrored(w, k);
        if w.data[k].session.id == s.id {
          IssueReplaces(w, w', s);
        }
      }
    }
    forall id | id in w'.live
      ensures Accounted(w', id)
    {
      if id != s.id {
        assert Accounted(w, id);
        if KeyOf(w.live[id]) == key {
          if key in w.data {
            IssueReplaces(w, w', s);
          }
        }
      }
    }
  }

  /** So does issuing one after some time. */
  lemma LaterIssueKeepsInv(w: World, w': World, s: Session)
    requires SessionsInv(w) && w.now <= w'.now && Issued(w.(now := w'.now), w', s)
    ensures SessionsInv(w')
  {
    TickKeepsInv(w, w.(now := w'.now));
    IssueKeepsInv(w.(now := w'.now), w', s);
  }

  lemma RevokeKeepsInv(w: World, w': World, s: Session)
    requires SessionsInv(w) && Revoked(w, w', s)
    ensures SessionsInv(w')
  {
    SessionKeyIsOne(s);
    assert Mirrored(w, KeyOf(s));
    forall k | k in w'.data && IsSessionKey(k)
      ensures Mirrored(w', k)
    {
      assert Mirrored(w, k);
    }
    forall id | id in w'.live
      ensures Accounted(w', id)
    {
      assert Accounted(w, id);
    }
  }

  /** Over every run without failures each stored session mirrors the server's, and at most one per pair is alive. */
  lemma {:induction false} RunKeepsInv(ws: seq<World>, n: nat)
    requires n < |ws| && SessionsInv(ws[0])
    requires forall i :: 0 <= i < |ws| - 1 ==> Next(ws[i], ws[i + 1])
    ensures SessionsInv(ws[n]) && AtMostOneLive(ws[n])
  {
    if n > 0 {
      RunKeepsInv(ws, n - 1);
      var w, w' := ws[n - 1], ws[n];
      assert Next(ws[n - 1], ws[n - 1 + 1]);
      if Ticked(w, w') {
        TickKeepsInv(w, w');
      } else if Elsewhere(w, w') {
        ElsewhereKeepsInv(w, w');
      } else if s :| Issued(w, w', s) {
        IssueKeepsInv(w, w', s);
      } else {
        var s :| Revoked(w, w', s);
        RevokeKeepsInv(w, w', s);
      }
    }
    InvMeansAtMostOne(ws[n]);
  }

  /** What disabling an app does to sessions: the keys it matches leave the store, the server keeps them. */
  ghost predicate StoreCleared(w: World, w': World, appID: AppID) {
    && w'.now == w.now && w'.live == w.live
    && (forall k :: k in w'.data <==> k in w.data && !TokenOf(k, appID))
    && (forall k :: k in w'.data ==> w'.data[k] == w.data[k])
  }

  /** As long as a session has not expired, what is stored for its app and user is this session. */
  lemma StoredIfLive(w: World, id: string, now: int)
    requires SessionsInv(w) && id in w.live && w.now <= now && !Expired(w.live[id], now)
    ensures HasSession(w.data, KeyOf(w.live[id])) && w.data[KeyOf(w.live[id])].session == w.live[id]
  {
    assert Accounted(w, id);
    if Expired(w.live[id], w.now) {
      ExpiredForGood(w.live[id], w.now, now);
    }
  }

  /** A session that has just been issued has not expired. */
  lemma IssuedIsLive(t: Session, now: int)
    requires Remaining(t, now) > MIN_SESSION_LENGTH
    ensures !Expired(t, now)
  {
    assert t.expiresAt * NS_PER_MS > now;
  }

  lemma NewAndOld(start: World, w: World, t: Session, id: string)
    requires SessionsInv(start) && start.now <= w.now && t.id !in start.live && w.live == start.live[t.id := t]
    requires '_' !in t.userID && !Expired(t, w.now) && id in start.live && id != t.id
    ensures BothLive(w, id, t.id) ==>
      HasSession(start.data, KeyOf(t)) && !Expired(start.data[KeyOf(t)].session, w.now)
  {
    if BothLive(w, id, t.id) {
      StoredIfLive(start, id, w.now);
    }
  }

  /**
    Clearing the store alone is outside of these steps. The app is disabled and enabled again, time
    passes, and a request is given a new session: then two live sessions of one app and user exist if
    and only if the cleared one has not expired by then. An app that was not disabled itself, but whose
    session was matched with the disabled one's, needs no enabling in between.
   */
  lemma ClearingLeavesASecondSession(
      appID: AppID, start: World, disabled: World, enabled: World, later: World, t: Session, end: World)
    requires SessionsInv(start) && StoreCleared(start, disabled, appID)
    requires Elsewhere(disabled, enabled) && Ticked(enabled, later)
    requires TokenOf(KeyOf(t), appID) && t.id !in later.live && Issued(later, end, t)
    ensures AtMostOneLive(end) <==>
            (HasSession(start.data, KeyOf(t)) ==> Expired(start.data[KeyOf(t)].session, end.now))
  {
    IssuedIsLive(t, end.now);
    SessionKeyIsOne(t);
    if HasSession(start.data, KeyOf(t)) && !Expired(start.data[KeyOf(t)].session, end.now) {
      StoredIsTheirs(start, t.appID, t.userID);
      assert BothLive(end, start.data[KeyOf(t)].session.id, t.id);
    } else {
      forall i, j | BothLive(end, i, j) ensures i == j {
        if i != t.id && j != t.id {
          StoredIfLive(start, i, end.now);
          StoredIfLive(start, j, end.now);
          assert Accounted(start, i) && Accounted(start, j);
        } else if i != t.id {
          NewAndOld(start, end, t, i);
        } else if j != t.id {
          NewAndOld(start, end, t, j);
          assert BothLive(end, j, i);
        }
      }
    }
  }

  /** A run that reaches it: the request comes one minute after the app was disabled and enabled. */
  lemma SecondSessionReachable() returns (start: World, disabled: World, later: World, t: Session, end: World)
    ensures SessionsInv(start) && StoreCleared(start, disabled, "app") && Ticked(disabled, later)
    ensures t.id !in later.live && Issued(later, end, t) && !AtMostOneLive(end)
  {
    var s := Session("s", "app", "user", 1_000_000);
    t := Session("t", "app", "user", 1_000_000);
    start := World(0, map[KeyOf(s) := SessionValue(s)], map["s" := s]);
    disabled := start.(data := map[]);
    later := disabled.(now := 60_000_000_000);
    end := World(later.now, map[KeyOf(t) := SessionValue(t)], start.live["t" := t]);
    TokenBelongsTo("app", "user", "app");
    assert Mirrored(start, KeyOf(s)) && Accounted(start, "s");
    assert BothLive(end, "s", "t");
  }

  // ---------------------------------------------------------------- revocation

  ghost function SetOf(keys: seq<string>): set<string> {
    set k | k in keys
  }

  ghost predicate SessionsAt(data: KVData, keys: seq<string>, sessions: seq<Session>) {
    && |sessions| == |keys|
    && forall i :: 0 <= i < |keys| ==> keys[i] in data && data[keys[i]] == SessionValue(sessions[i])
  }

  /** The store has lost these keys, and the server no sessions but theirs. */
  ghost predicate Cleared(w: World, w': World, gone: set<string>) {
    && w.now <= w'.now && w'.data == w.data - gone
    && (forall id :: id in w'.live ==> id in w.live && w'.live[id] == w.live[id])
    && (forall id :: id in w.live && id !in w'.live ==> KeyOf(w.live[id]) in gone)
  }

  ghost predicate AllMirrored(w: World, keys: seq<string>) {
    forall i :: 0 <= i < |keys| ==> Mirrored(w, keys[i])
  }

  /** The sessions stored under different session keys. */
  ghost predicate Revocable(w: World, keys: seq<string>, sessions: seq<Session>) {
    && SessionsInv(w) && NoDuplicates(keys) && SessionsAt(w.data, keys, sessions)
    && forall i :: 0 <= i < |keys| ==> IsSessionKey(keys[i])
  }

  lemma ClearedStep(start: World, between: World, after: World, keys: seq<string>, sessions: seq<Session>, i: nat)
    requires Revocable(start, keys, sessions) && i < |keys|
    requires SessionsInv(between) && Cleared(start, between, SetOf(keys[..i]))
    requires Stored(between.data, sessions[i]) ==>
      between.now <= after.now && Revoked(between.(now := after.now), after, sessions[i])
    ensures SessionsInv(after) && Cleared(start, after, SetOf(keys[..i + 1]))
  {
    var s := sessions[i];
    assert Mirrored(start, keys[i]);
    assert keys[i] !in keys[..i];
    assert Stored(between.data, s);
    assert Mirrored(between, keys[i]);
    assert SetOf(keys[..i + 1]) == SetOf(keys[..i]) + {keys[i]};
    TickKeepsInv(between, between.(now := after.now));
    RevokeKeepsInv(between.(now := after.now), after, s);
  }

  /**
    All sessions whose key p selects are gone from the store, and those on the server have expired or
    are gone; nothing else has changed.
   */
  ghost predicate AllRevoked(w: World, w': World, p: string -> bool) {
    && (forall k :: k in w'.data <==> k in w.data && !p(k))
    && (forall k :: k in w'.data ==> w'.data[k] == w.data[k])
    && (forall id :: id in w'.live ==> id in w.live && w'.live[id] == w.live[id])
    && (forall id :: id in w'.live && p(KeyOf(w'.live[id])) ==> Expired(w'.live[id], w'.now))
    && (forall id :: id in w.live && !p(KeyOf(w.live[id])) ==> id in w'.live)
  }

  lemma MatchingKeys(w: World, listing: seq<string>, p: string -> bool)
    requires SessionsInv(w) && Lists(listing, w.data) && forall k :: p(k) ==> IsSessionKey(k)
    ensures NoDuplicates(Filter(listing, p))
    ensures forall k :: k in Filter(listing, p) <==> k in w.data && p(k)
    ensures AllMirrored(w, Filter(listing, p))
  {
    FilterNoDuplicates(listing, p);
    forall k ensures k in Filter(listing, p) <==> k in w.data && p(k) {
      FilterMember(listing, p, k);
    }
    forall i | 0 <= i < |Filter(listing, p)|
      ensures Mirrored(w, Filter(listing, p)[i])
    {
      assert Filter(listing, p)[i] in Filter(listing, p);
    }
  }

  lemma ClearedMeansRevoked(w: World, w': World, keys: seq<string>, p: string -> bool)
    requires SessionsInv(w) && SessionsInv(w') && Cleared(w, w', SetOf(keys))
    requires forall k :: k in keys <==> k in w.data && p(k)
    ensures AllRevoked(w, w', p)
  {
    forall id | id in w'.live && p(KeyOf(w'.live[id]))
      ensures Expired(w'.live[id], w'.now)
    {
      assert Accounted(w', id);
    }
  }

  /** What listKeysForUser selects. */
  predicate ParsedFor(key: string, userID: UserID) {
    ParseSessionKey(key).Some? && ParseSessionKey(key).value.1 == userID
  }

  /** Revoking by user passes over exactly the sessions of apps with an underscore in their ID. */
  lemma RevokedForUserIff(s: Session, userID: UserID)
    requires '_' !in userID && '_' !in s.userID
    ensures ParsedFor(KeyOf(s), userID) <==> s.userID == userID && '_' !in s.appID
  {
    ParseUndoesSessionKey(s.appID, s.userID);
  }

  // ---------------------------------------------------------------- the service

  class Clock {
    var now: int

    constructor (start: int)
      ensures now == start
    {
      now := start;
    }

    /** time.Now(): never earlier than the last time. */
    method Read() returns (t: int)
      modifies this
      ensures old(now) <= now && t == now
    {
      var elapsed: int := *;
      now := if elapsed > 0 then now + elapsed else now;
      t := now;
    }
  }

  /** The session API of the Mattermost server. */
  class SessionAPI {
    var live: map<string, Session>
    /** How many calls have returned an error. */
    ghost var errors: nat

    constructor ()
      ensures live == map[] && errors == 0
    {
      live, errors := map[], 0;
    }

    /** The server chooses an ID that no session has. */
    method Create(s: Session) returns (ok: bool, created: Session)
      modifies this
      ensures errors == old(errors) + Failure(ok)
      ensures ok ==> created == s.(id := created.id) && created.id != "" && created.id !in old(live)
      ensures live == if ok then old(live)[created.id := created] else old(live)
    {
      var id: string := *;
      ok := id != "" && id !in live;
      created := s.(id := id);
      errors := errors + Failure(ok);
      if ok {
        live := live[id := created];
      }
    }

    method ExtendExpiry(id: string, expiresAt: int) returns (ok: bool)
      modifies this
      ensures errors == old(errors) + Failure(ok)
      ensures ok ==> id in old(live) && live == old(live)[id := old(live)[id].(expiresAt := expiresAt)]
      ensures !ok ==> live == old(live)
    {
      ok := *;
      ok := ok && id in live;
      errors := errors + Failure(ok);
      if ok {
        live := live[id := live[id].(expiresAt := expiresAt)];
      }
    }

    method Revoke(id: string) returns (ok: bool)
      modifies this
      ensures errors == old(errors) + Failure(ok)
      ensures live == if ok then old(live) - {id} else old(live)
    {
      ok := *;
      errors := errors + Failure(ok);
      if ok {
        live := live - {id};
      }
    }
  }

  /** The expiry, in milliseconds, is ten minutes after some moment between the two, in nanoseconds. */
  predicate LastsTenMinutes(s: Session, from: int, to: int) {
    (from + 600_000_000_000) / 1_000_000 <= s.expiresAt <= (to + 600_000_000_000) / 1_000_000
  }

  /** More than five minutes of the session are left. */
  predicate FiveMinutesLeft(s: Session, now: int) {
    s.expiresAt * 1_000_000 - now > 300_000_000_000
  }

  predicate PastExpiry(s: Session, now: int) {
    s.expiresAt > 0 && now / 1_000_000 > s.expiresAt
  }

  /** The session under a key, if it has an ID. */
  function StoredSession(data: KVData, key: string): Option<Session> {
    if key in data && data[key].SessionValue? && data[key].session.id != "" then Some(data[key].session) else None
  }

  datatype SessionError = NoUser | NoApp | Builtin | Failed

  class SessionService {
    const server: Server
    const api: SessionAPI
    const clock: Clock

    constructor (server: Server, api: SessionAPI, clock: Clock)
      ensures this.server == server && this.api == api && this.clock == clock
    {
      this.server, this.api, this.clock := server, api, clock;
    }

    ghost function W(): World
      reads server`data, api`live, clock
    {
      World(clock.now, server.data, api.live)
    }

    /** How many calls to the Mattermost server have failed. */
    ghost function Errors(): nat
      reads server`errors, api`errors
    {
      server.errors + api.errors
    }

    /** store.Session.Get: a session without an ID counts as not found. */
    method GetSession(key: string) returns (ok: bool, s: Option<Session>)
      modifies server`errors
      ensures server.errors == old(server.errors) + Failure(ok)
      ensures ok ==> s == if HasSession(server.data, key) && server.data[key].session.id != ""
                          then Some(server.data[key].session) else None
      ensures !ok ==> s == None
    {
      var v;
      ok, v := server.KVGet(key);
      s := if ok && v.Some? && v.value.SessionValue? && v.value.session.id != "" then Some(v.value.session) else None;
    }

    method SaveSession(appID: AppID, userID: UserID, s: Session) returns (ok: bool)
      requires server.Valid()
      modifies server
      ensures server.Valid() && server.saved == old(server.saved)
      ensures server.errors == old(server.errors) + Failure(ok)
      ensures ok ==> server.data == old(server.data)[SessionKey(appID, userID) := SessionValue(s)]
    {
      ghost var o;
      ok, o := server.KVSet(SessionKey(appID, userID), SessionValue(s));
    }

    /**
      createSession (session.go:63-117); `userFound` and `app` are what looking them up gives. A
      session is created by the server first and then stored.
     */
    method CreateSession(appID: AppID, userID: UserID, userFound: bool, app: Option<App>)
      returns (r: Result<Session, SessionError>)
      requires server.Valid()
      modifies server, api, clock
      ensures server.Valid() && server.saved == old(server.saved) && old(clock.now) <= clock.now
      ensures Errors() == old(Errors()) + Failure(r != Err(Failed))
      ensures r.Ok? ==> r.value.appID == appID && r.value.userID == userID
      ensures r.Ok? ==> r.value.id !in old(api.live) && r.value.id != ""
      ensures r.Ok? ==> Remaining(r.value, clock.now) > MIN_SESSION_LENGTH
      ensures r.Ok? ==> LastsTenMinutes(r.value, old(clock.now), clock.now)
      ensures r.Ok? ==> server.data == old(server.data)[SessionKey(appID, userID) := SessionValue(r.value)]
      ensures r.Ok? ==> api.live == old(api.live)[r.value.id := r.value]
      ensures r.Ok? ==> userFound && app.Some? && !app.value.builtin
      ensures r == Err(NoUser) <==> !userFound
      ensures r == Err(NoApp) <==> userFound && app.None?
      ensures r == Err(Builtin) <==> userFound && app.Some? && app.value.builtin
      ensures r.Err? && r != Err(Failed) ==> server.data == old(server.data) && api.live == old(api.live)
    {
      if !userFound {
        return Err(NoUser);
      }
      if app.None? {
        return Err(NoApp);
      }
      if app.value.builtin {
        return Err(Builtin);
      }
      var now := clock.Read();
      var session := Session("", appID, userID, (now + SESSION_LENGTH) / NS_PER_MS);
      var ok;
      ok, session := api.Create(session);
      if !ok {
        return Err(Failed);
      }
      ok := SaveSession(appID, userID, session);
      if !ok {
        return Err(Failed);
      }
      return Ok(session);
    }

    /** extendSessionExpiryIfNeeded (session.go:119-141). */
    method ExtendIfNeeded(appID: AppID, userID: UserID, session: Session)
      returns (ok: bool, s: Session, ghost at: int)
      requires server.Valid()
      modifies server, api, clock
      ensures server.Valid() && server.saved == old(server.saved) && old(clock.now) <= clock.now
      ensures Errors() == old(Errors()) + Failure(ok) && old(clock.now) <= at <= clock.now
      ensures ok ==> s.(expiresAt := session.expiresAt) == session && Remaining(s, clock.now) > MIN_SESSION_LENGTH
      ensures FiveMinutesLeft(session, at) ==>
        ok && s == session && server.data == old(server.data) && api.live == old(api.live)
      ensures ok && !FiveMinutesLeft(session, at) ==>
        && session.id in old(api.live) && LastsTenMinutes(s, at, clock.now)
        && server.data == old(server.data)[SessionKey(appID, userID) := SessionValue(s)]
        && api.live == old(api.live)[session.id := old(api.live)[session.id].(expiresAt := s.expiresAt)]
    {
      s := session;
      var now := clock.Read();
      at := now;
      if Remaining(session, now) > MIN_SESSION_LENGTH {
        return true, s, at;
      }
      now := clock.Read();
      var newExpiry := (now + SESSION_LENGTH) / NS_PER_MS;
      ok := api.ExtendExpiry(session.id, newExpiry);
      if !ok {
        return;
      }
      s := session.(expiresAt := newExpiry);
      ok := SaveSession(appID, userID, s);
    }

    /** The first branch of GetOrCreate: a stored session that has not expired. */
    method KeepSession(appID: AppID, userID: UserID, stored: Session) returns (r: Result<Session, SessionError>)
      requires server.Valid() && StoredSession(server.data, SessionKey(appID, userID)) == Some(stored)
      modifies server, api, clock
      ensures server.Valid() && server.saved == old(server.saved) && old(clock.now) <= clock.now
      ensures Errors() == old(Errors()) + Failure(r.Ok?) && (r.Err? ==> r == Err(Failed))
      ensures r.Ok? ==> r.value == stored.(expiresAt := r.value.expiresAt)
      ensures r.Ok? ==> r.value == stored || LastsTenMinutes(r.value, old(clock.now), clock.now)
      ensures r.Ok? && '_' !in userID && old(SessionsInv(W())) ==>
        && r.value.appID == appID && r.value.userID == userID
        && Issued(old(W()).(now := clock.now), W(), r.value) && SessionsInv(W())
    {
      ghost var w := W();
      if '_' !in userID {
        StoredIsTheirs(w, appID, userID);
      }
      var ok, s;
      ghost var at;
      ok, s, at := ExtendIfNeeded(appID, userID, stored);
      r := if ok then Ok(s) else Err(Failed);
      if ok && '_' !in userID && old(SessionsInv(W())) {
        assert server.data == w.data[KeyOf(s) := SessionValue(s)] && api.live == w.live[s.id := s];
        LaterIssueKeepsInv(w, W(), s);
      }
    }

    /** The other branch: nothing is stored for the app and the user, or what is has expired at `at`. */
    method ReplaceSession(appID: AppID, userID: UserID, userFound: bool, app: Option<App>, ghost at: int)
      returns (r: Result<Session, SessionError>)
      requires server.Valid() && at <= clock.now
      requires var found := StoredSession(server.data, SessionKey(appID, userID));
        found.Some? ==> PastExpiry(found.value, at)
      modifies server, api, clock
      ensures server.Valid() && server.saved == old(server.saved) && old(clock.now) <= clock.now
      ensures Errors() == old(Errors()) + Failure(r != Err(Failed))
      ensures r.Ok? ==> userFound && app.Some? && !app.value.builtin && r.value.id !in old(api.live)
      ensures r.Ok? ==> r.value == Session(r.value.id, appID, userID, r.value.expiresAt)
      ensures r.Ok? ==> LastsTenMinutes(r.value, old(clock.now), clock.now)
      ensures r.Ok? && '_' !in userID && old(SessionsInv(W())) ==>
        Issued(old(W()).(now := clock.now), W(), r.value)
      ensures '_' !in userID && old(SessionsInv(W())) && r != Err(Failed) ==> SessionsInv(W())
      ensures r.Err? && r != Err(Failed) ==> server.data == old(server.data) && api.live == old(api.live)
    {
      ghost var w, proper := W(), '_' !in userID && SessionsInv(W());
      if proper {
        StoredIsTheirs(w, appID, userID);
      }
      r := CreateSession(appID, userID, userFound, app);
      if r.Ok? && proper {
        if SessionKey(appID, userID) in w.data {
          ExpiredForGood(w.data[SessionKey(appID, userID)].session, at, clock.now);
        }
        LaterIssueKeepsInv(w, W(), r.value);
      } else if r != Err(Failed) && proper {
        TickKeepsInv(w, W());
      }
    }

    /**
      GetOrCreate: the session that is returned is stored, is the server's, and has more than the
      minimum length left at the last reading of the clock. One that has not expired is kept.
     */
    method GetOrCreate(appID: AppID, userID: UserID, userFound: bool, app: Option<App>)
      returns (r: Result<Session, SessionError>, ghost at: int)
      requires server.Valid()
      modifies server, api, clock
      ensures server.Valid() && server.saved == old(server.saved) && old(clock.now) <= at <= clock.now
      ensures Errors() == old(Errors()) + Failure(r != Err(Failed))
      ensures var found := StoredSession(old(server.data), SessionKey(appID, userID));
        r.Ok? ==>
          if found.Some? && !PastExpiry(found.value, at)
          then && r.value == found.value.(expiresAt := r.value.expiresAt)
               && (r.value == found.value || LastsTenMinutes(r.value, old(clock.now), clock.now))
          else && userFound && app.Some? && !app.value.builtin
               && r.value == Session(r.value.id, appID, userID, r.value.expiresAt)
               && r.value.id !in old(api.live) && LastsTenMinutes(r.value, old(clock.now), clock.now)
      ensures r.Ok? && '_' !in userID && old(SessionsInv(W())) ==>
        && r.value.appID == appID && r.value.userID == userID
        && Issued(old(W()).(now := clock.now), W(), r.value)
      ensures '_' !in userID && old(SessionsInv(W())) && r != Err(Failed) ==> SessionsInv(W())
      ensures r.Err? && r != Err(Failed) ==> server.data == old(server.data) && api.live == old(api.live)
    {
      ghost var w, proper := W(), '_' !in userID && SessionsInv(W());
      at := clock.now;
      var ok, stored := GetSession(SessionKey(appID, userID));
      if !ok {
        return Err(Failed), at;
      }
      var expired := true;
      if stored.Some? {
        var now := clock.Read();
        expired := Expired(stored.value, now);
      }
      at := clock.now;
      if proper {
        TickKeepsInv(w, W());
      }
      if !expired {
        r := KeepSession(appID, userID, stored.value);
        return;
      }
      r := ReplaceSession(appID, userID, userFound, app, at);
    }

    /**
      ListForApp and ListForUser once the keys are known; an unreadable session ends the former and
      is passed over by the latter.
     */
    method ReadSessions(keys: seq<string>, strict: bool) returns (ok: bool, sessions: seq<Session>)
      modifies server`errors
      ensures server.errors >= old(server.errors)
      ensures server.errors == old(server.errors) && AllMirrored(W(), keys) ==>
        ok && SessionsAt(server.data, keys, sessions)
    {
      sessions := [];
      for i := 0 to |keys|
        invariant server.errors >= old(server.errors)
        invariant server.errors == old(server.errors) && AllMirrored(W(), keys) ==>
          SessionsAt(server.data, keys[..i], sessions)
      {
        assert AllMirrored(W(), keys) ==> Mirrored(W(), keys[i]);
        var got, s := GetSession(keys[i]);
        if got && s.Some? {
          sessions := sessions + [s.value];
        } else if strict {
          return false, sessions;
        }
      }
      assert keys[..|keys|] == keys;
      ok := true;
    }

    /** One round of revokeSessions; failures are only logged. */
    method RevokeOne(session: Session)
      requires server.Valid()
      modifies server, api, clock
      ensures server.Valid() && server.saved == old(server.saved) && Errors() >= old(Errors())
      ensures Errors() == old(Errors()) && Stored(old(server.data), session) ==>
        old(clock.now) <= clock.now && Revoked(old(W()).(now := clock.now), W(), session)
    {
      var now := clock.Read();
      if !Expired(session, now) {
        var revoked := api.Revoke(session.id);
      }
      var deleted, o := server.KVDelete(SessionKey(session.appID, session.userID));
    }

    /** revokeSessions (session.go:147-164). */
    method RevokeSessions(sessions: seq<Session>, ghost keys: seq<string>)
      requires server.Valid()
      modifies server, api, clock
      ensures server.Valid() && server.saved == old(server.saved) && Errors() >= old(Errors())
      ensures Errors() == old(Errors()) && old(Revocable(W(), keys, sessions)) ==>
        SessionsInv(W()) && Cleared(old(W()), W(), SetOf(keys))
    {
      ghost var start, able := W(), Revocable(W(), keys, sessions);
      assert able ==> SetOf(keys[..0]) == {};
      for i := 0 to |sessions|
        invariant server.Valid() && server.saved == old(server.saved) && Errors() >= old(Errors())
        invariant Errors() == old(Errors()) && able ==> SessionsInv(W()) && Cleared(start, W(), SetOf(keys[..i]))
      {
        ghost var between := W();
        RevokeOne(sessions[i]);
        if Errors() == old(Errors()) && able {
          ClearedStep(start, between, W(), keys, sessions, i);
        }
      }
      assert able ==> keys[..|keys|] == keys;
    }

    /** Every session that the predicate selects by its key, from the store and from the server. */
    method RevokeMatching(p: string -> bool, strict: bool) returns (ok: bool)
      requires server.Valid() && forall k :: p(k) ==> IsSessionKey(k)
      modifies server, api, clock
      ensures server.Valid() && server.saved == old(server.saved)
      ensures Errors() >= old(Errors())
      ensures Errors() == old(Errors()) && old(SessionsInv(W())) ==>
        ok && SessionsInv(W()) && AllRevoked(old(W()), W(), p)
      ensures !ok ==> W() == old(W())
    {
      var keys, sessions;
      ok, keys := ListMatching(server, p);
      if !ok {
        return;
      }
      if SessionsInv(W()) {
        MatchingKeys(W(), server.keys, p);
      }
      ok, sessions := ReadSessions(keys, strict);
      if !ok {
        return;
      }
      ghost var before := W();
      RevokeSessions(sessions, keys);
      if Errors() == old(Errors()) && SessionsInv(before) {
        ClearedMeansRevoked(before, W(), keys, p);
      }
    }

    /** Without a failure exactly the matched sessions are gone. */
    method RevokeSessionsForApp(appID: AppID) returns (ok: bool)
      requires server.Valid()
      modifies server, api, clock
      ensures server.Valid() && server.saved == old(server.saved)
      ensures Errors() >= old(Errors())
      ensures Errors() == old(Errors()) && old(SessionsInv(W())) ==>
        ok && SessionsInv(W()) && AllRevoked(old(W()), W(), k => TokenOf(k, appID))
      ensures !ok ==> W() == old(W())
    {
      forall k | TokenOf(k, appID) ensures IsSessionKey(k) {
        TokensAreNotData(k, appID, appID);
      }
      ok := RevokeMatching(k => TokenOf(k, appID), true);
    }

    method RevokeSessionsForUser(userID: UserID) returns (ok: bool)
      requires server.Valid()
      modifies server, api, clock
      ensures server.Valid() && server.saved == old(server.saved)
      ensures Errors() >= old(Errors())
      ensures Errors() == old(Errors()) && old(SessionsInv(W())) ==>
        ok && SessionsInv(W()) && AllRevoked(old(W()), W(), k => ParsedFor(k, userID))
      ensures !ok ==> W() == old(W())
    {
      forall k | ParsedFor(k, userID) ensures IsSessionKey(k) {
        SessionKeyUndoesParse(k);
        SessionKeyIsOne(Session("", ParseSessionKey(k).value.0, ParseSessionKey(k).value.1, 0));
      }
      ok := RevokeMatching(k => ParsedFor(k, userID), false);
    }
  }
}
