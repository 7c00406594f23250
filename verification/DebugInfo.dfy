/** The counters over the whole key space (server/store/kv_debug_info.go). */
module DebugInfo {
  import opened Strings
  import opened Bindings
  import opened Records
  import opened Mattermost
  import opened Keys
  import opened Paging

  datatype AppInfo = AppInfo(
    kvCount: nat, byNamespace: map<string, nat>, byUserID: map<UserID, nat>, tokenCount: nat, userCount: nat)
  {
    function Total(): nat {
      kvCount + userCount + tokenCount
    }
  }

  datatype Info = Info(
    installedAppCount: nat, apps: map<AppID, AppInfo>, appsTotal: nat, manifestCount: nat, oauth2StateCount: nat,
    other: nat, subscriptionCount: nat, total: nat, debug: nat)

  const NO_APP := AppInfo(0, map[], map[], 0, 0)
  const BOT_ID_KEY := "mmi_botid"

  // ---------------------------------------------------------------- what the counters should say

  /** Everything that is counted. */
  datatype Counter =
    | All | AppsTotal | Subs | States | AppRecords | Manifests | BotID | Debug
    | KVOf(appID: AppID) | KVIn(appID: AppID, ns: string) | KVBy(appID: AppID, userID: UserID)
    | UsersOf(appID: AppID) | TokensOf(appID: AppID)

  predicate IsDataKey(key: string, gns: string) {
    ParseHashkey(key).Some? && ParseHashkey(key).value.gns == gns
  }

  predicate IsKVOf(key: string, a: AppID) {
    IsDataKey(key, KV_APP_PREFIX) && ParseHashkey(key).value.appID == a
  }

  predicate IsTokenKey(key: string) {
    HasPrefix(key, KV_TOKEN_PREFIX) && ParseSessionKey(key).Some?
  }

  /** Whether a key belongs to a counter, said without the order of the tests in the code. */
  predicate Belongs(key: string, c: Counter) {
    match c
    case All => true
    case AppsTotal => IsDataKey(key, KV_APP_PREFIX) || IsDataKey(key, KV_USER_PREFIX) || IsTokenKey(key)
    case Subs => HasPrefix(key, KV_SUB_PREFIX)
    case States => HasPrefix(key, KV_OAUTH2_STATE_PREFIX)
    case AppRecords => HasPrefix(key, KV_INSTALLED_APP_PREFIX)
    case Manifests => HasPrefix(key, KV_LOCAL_MANIFEST_PREFIX)
    case BotID => key == BOT_ID_KEY
    case Debug => HasPrefix(key, KV_DEBUG_PREFIX)
    case KVOf(a) => IsKVOf(key, a)
    case KVIn(a, ns) => IsKVOf(key, a) && ParseHashkey(key).value.ns == ns
    case KVBy(a, u) => IsKVOf(key, a) && ParseHashkey(key).value.userID == u
    case UsersOf(a) => IsDataKey(key, KV_USER_PREFIX) && ParseHashkey(key).value.appID == a
    case TokensOf(a) => IsTokenKey(key) && ParseSessionKey(key).value.0 == a
  }

  function One(b: bool): nat {
    if b then 1 else 0
  }

  function Count(keys: seq<string>, c: Counter): nat {
    if keys == [] then 0 else Count(keys[..|keys| - 1], c) + One(Belongs(keys[|keys| - 1], c))
  }

  lemma CountSnoc(keys: seq<string>, i: nat, c: Counter)
    requires i < |keys|
    ensures Count(keys[..i + 1], c) == Count(keys[..i], c) + One(Belongs(keys[i], c))
  {
    assert keys[..i + 1][..i] == keys[..i];
  }

  lemma {:induction false} CountAppend(a: seq<string>, b: seq<string>, c: Counter)
    ensures Count(a + b, c) == Count(a, c) + Count(b, c)
    decreases |b|
  {
    if b == [] {
      assert a + b == a;
    } else {
      assert (a + b)[..|a + b| - 1] == a + b[..|b| - 1];
      CountAppend(a, b[..|b| - 1], c);
    }
  }

  function AppOf(info: Info, a: AppID): AppInfo {
    if a in info.apps then info.apps[a] else NO_APP
  }

  function At<K>(m: map<K, nat>, k: K): nat {
    if k in m then m[k] else 0
  }

  /** The counters of one app. */
  function AppValue(app: AppInfo, c: Counter): nat {
    match c
    case KVOf(_) => app.kvCount
    case KVIn(_, ns) => At(app.byNamespace, ns)
    case KVBy(_, u) => At(app.byUserID, u)
    case UsersOf(_) => app.userCount
    case TokensOf(_) => app.tokenCount
    case _ => 0
  }

  function Value(info: Info, c: Counter): nat {
    match c
    case All => info.total
    case AppsTotal => info.appsTotal
    case Subs => info.subscriptionCount
    case States => info.oauth2StateCount
    case AppRecords => info.installedAppCount
    case Manifests => info.manifestCount
    case BotID => info.other
    case Debug => info.debug
    case _ => AppValue(AppOf(info, c.appID), c)
  }

  // ---------------------------------------------------------------- sums over maps

  ghost function Sum<K>(m: map<K, nat>): nat
    decreases |m|
  {
    if m == map[] then 0
    else
      var k :| k in m;
      m[k] + Sum(m - {k})
  }

  lemma {:induction false} SumRemove<K>(m: map<K, nat>, k: K)
    requires k in m
    ensures Sum(m) == m[k] + Sum(m - {k})
    decreases |m|
  {
    var j :| j in m && Sum(m) == m[j] + Sum(m - {j});
    if j != k {
      SumRemove(m - {j}, k);
      SumRemove(m - {k}, j);
      assert m - {j} - {k} == m - {k} - {j};
    }
  }

  lemma SumUpdate<K>(m: map<K, nat>, k: K, v: nat)
    ensures Sum(m[k := v]) == Sum(m) - At(m, k) + v
  {
    SumRemove(m[k := v], k);
    if k in m {
      SumRemove(m, k);
      assert m[k := v] - {k} == m - {k};
    } else {
      assert m[k := v] - {k} == m;
    }
  }

  function Totals(apps: map<AppID, AppInfo>): map<AppID, nat> {
    map a | a in apps :: apps[a].Total()
  }

  /** An app's count is the sum over its namespaces, and the sum over its users. */
  ghost predicate AppAddsUp(app: AppInfo) {
    app.kvCount == Sum(app.byNamespace) && app.kvCount == Sum(app.byUserID)
  }

  ghost predicate EachAddsUp(apps: map<AppID, AppInfo>) {
    forall a :: a in apps ==> AppAddsUp(apps[a])
  }

  /** AppsTotal is the sum of the per-app totals, and each app adds up. */
  ghost predicate AddsUp(info: Info) {
    info.appsTotal == Sum(Totals(info.apps)) && EachAddsUp(info.apps)
  }

  lemma TotalsUpdate(apps: map<AppID, AppInfo>, a: AppID, app: AppInfo)
    ensures Totals(apps[a := app]) == Totals(apps)[a := app.Total()]
  {
  }

  lemma SumOfTotals(apps: map<AppID, AppInfo>, a: AppID, app: AppInfo)
    ensures Sum(Totals(apps[a := app])) == Sum(Totals(apps)) - (if a in apps then apps[a].Total() else 0) + app.Total()
  {
    TotalsUpdate(apps, a, app);
    SumUpdate(Totals(apps), a, app.Total());
  }

  lemma EachWith(apps: map<AppID, AppInfo>, a: AppID, app: AppInfo)
    requires EachAddsUp(apps) && AppAddsUp(app)
    ensures EachAddsUp(apps[a := app])
  {
  }

  lemma NoAppAddsUp()
    ensures AppAddsUp(NO_APP)
  {
  }

  /** forAppID followed by one increment of the app's counters and of AppsTotal. */
  function Enter(info: Info, a: AppID, app: AppInfo): Info {
    info.(apps := info.apps[a := app], appsTotal := info.appsTotal + 1)
  }

  lemma EnterAddsUp(info: Info, a: AppID, app: AppInfo)
    requires AddsUp(info) && AppAddsUp(app) && app.Total() == AppOf(info, a).Total() + 1
    ensures AddsUp(Enter(info, a, app))
  {
    SumOfTotals(info.apps, a, app);
    EachWith(info.apps, a, app);
  }

  lemma EmptyAppAddsUp(info: Info, a: AppID)
    requires AddsUp(info) && a !in info.apps
    ensures AddsUp(info.(apps := info.apps[a := NO_APP])) && AppAddsUp(NO_APP)
  {
    SumOfTotals(info.apps, a, NO_APP);
    NoAppAddsUp();
    EachWith(info.apps, a, NO_APP);
  }

  // ---------------------------------------------------------------- the counting

  lemma Prefixes(key: string)
    ensures IsDataKey(key, KV_APP_PREFIX) ==> Tag(key) == ".k"
    ensures IsDataKey(key, KV_USER_PREFIX) ==> Tag(key) == ".u"
    ensures HasPrefix(key, KV_TOKEN_PREFIX) ==> Tag(key) == ".t"
    ensures HasPrefix(key, KV_OAUTH2_STATE_PREFIX) ==> Tag(key) == ".o"
    ensures HasPrefix(key, KV_SUB_PREFIX) ==> Tag(key) == "su"
    ensures HasPrefix(key, KV_INSTALLED_APP_PREFIX) ==> Tag(key) == "ap"
    ensures HasPrefix(key, KV_LOCAL_MANIFEST_PREFIX) ==> Tag(key) == "ma"
    ensures HasPrefix(key, KV_DEBUG_PREFIX) ==> Tag(key) == ".d"
    ensures key == BOT_ID_KEY ==> Tag(key) == "mm"
  {
    if ParseHashkey(key).Some? {
      assert key[0..2] == key[..2];
    }
    TagOfPrefix(key, KV_TOKEN_PREFIX);
    TagOfPrefix(key, KV_OAUTH2_STATE_PREFIX);
    TagOfPrefix(key, KV_SUB_PREFIX);
    TagOfPrefix(key, KV_INSTALLED_APP_PREFIX);
    TagOfPrefix(key, KV_LOCAL_MANIFEST_PREFIX);
    TagOfPrefix(key, KV_DEBUG_PREFIX);
  }

  /** The counters a key belongs to exclude each other, but for the nested ones. */
  datatype Kind = AppKV | UserRecord | Token | SubsKind | State | AppRecord | ManifestRecord | Bot | DebugKind | Unknown

  function KindOf(key: string): Kind {
    if IsDataKey(key, KV_APP_PREFIX) then AppKV
    else if IsDataKey(key, KV_USER_PREFIX) then UserRecord
    else if HasPrefix(key, KV_SUB_PREFIX) then SubsKind
    else if HasPrefix(key, KV_TOKEN_PREFIX) then if ParseSessionKey(key).Some? then Token else Unknown
    else if HasPrefix(key, KV_OAUTH2_STATE_PREFIX) then State
    else if HasPrefix(key, KV_INSTALLED_APP_PREFIX) then AppRecord
    else if HasPrefix(key, KV_LOCAL_MANIFEST_PREFIX) then ManifestRecord
    else if key == BOT_ID_KEY then Bot
    else if HasPrefix(key, KV_DEBUG_PREFIX) then DebugKind
    else Unknown
  }

  lemma KindsExclude(key: string)
    ensures IsDataKey(key, KV_APP_PREFIX) <==> KindOf(key) == AppKV
    ensures IsDataKey(key, KV_USER_PREFIX) <==> KindOf(key) == UserRecord
    ensures IsTokenKey(key) <==> KindOf(key) == Token
    ensures Belongs(key, Subs) <==> KindOf(key) == SubsKind
    ensures Belongs(key, States) <==> KindOf(key) == State
    ensures Belongs(key, AppRecords) <==> KindOf(key) == AppRecord
    ensures Belongs(key, Manifests) <==> KindOf(key) == ManifestRecord
    ensures Belongs(key, BotID) <==> KindOf(key) == Bot
    ensures Belongs(key, Debug) <==> KindOf(key) == DebugKind
  {
    Prefixes(key);
  }

  /** The counters that a key belongs to. */
  function CountersOf(key: string): set<Counter> {
    match KindOf(key)
    case AppKV =>
      var p := ParseHashkey(key).value;
      {All, AppsTotal, KVOf(p.appID), KVIn(p.appID, p.ns), KVBy(p.appID, p.userID)}
    case UserRecord => {All, AppsTotal, UsersOf(ParseHashkey(key).value.appID)}
    case Token => {All, AppsTotal, TokensOf(ParseSessionKey(key).value.0)}
    case SubsKind => {All, Subs}
    case State => {All, States}
    case AppRecord => {All, AppRecords}
    case ManifestRecord => {All, Manifests}
    case Bot => {All, BotID}
    case DebugKind => {All, Debug}
    case Unknown => {All}
  }

  lemma BelongsIff(key: string, c: Counter)
    ensures Belongs(key, c) <==> c in CountersOf(key)
  {
    KindsExclude(key);
  }

  /** `after` differs from `before` by one in each of the counters. */
  ghost predicate Counted(before: Info, after: Info, counters: set<Counter>) {
    forall c :: Value(after, c) == Value(before, c) + One(c in counters)
  }

  function BumpKV(app: AppInfo, ns: string, userID: UserID): (r: AppInfo)
    ensures r.Total() == app.Total() + 1
  {
    app.(
      kvCount := app.kvCount + 1,
      byNamespace := app.byNamespace[ns := At(app.byNamespace, ns) + 1],
      byUserID := app.byUserID[userID := At(app.byUserID, userID) + 1])
  }

  function BumpUser(app: AppInfo): (r: AppInfo)
    ensures r.Total() == app.Total() + 1
  {
    app.(userCount := app.userCount + 1)
  }

  function BumpToken(app: AppInfo): (r: AppInfo)
    ensures r.Total() == app.Total() + 1
  {
    app.(tokenCount := app.tokenCount + 1)
  }

  lemma BumpKVAddsUp(app: AppInfo, ns: string, userID: UserID)
    requires AppAddsUp(app)
    ensures AppAddsUp(BumpKV(app, ns, userID))
  {
    SumUpdate(app.byNamespace, ns, At(app.byNamespace, ns) + 1);
    SumUpdate(app.byUserID, userID, At(app.byUserID, userID) + 1);
  }

  lemma OtherBumpsAddUp(app: AppInfo)
    requires AppAddsUp(app)
    ensures AppAddsUp(BumpUser(app)) && AppAddsUp(BumpToken(app))
  {
  }

  predicate OfApp(c: Counter, a: AppID) {
    (c.KVOf? || c.KVIn? || c.KVBy? || c.UsersOf? || c.TokensOf?) && c.appID == a
  }

  /** These counters of the app went up by one, its others did not change. */
  ghost predicate Bumped(before: AppInfo, after: AppInfo, a: AppID, counters: set<Counter>) {
    && (forall c :: c in counters ==> OfApp(c, a))
    && (forall c :: OfApp(c, a) ==> AppValue(after, c) == AppValue(before, c) + One(c in counters))
  }

  lemma BumpKVCounts(app: AppInfo, a: AppID, ns: string, userID: UserID)
    ensures Bumped(app, BumpKV(app, ns, userID), a, {KVOf(a), KVIn(a, ns), KVBy(a, userID)})
  {
  }

  lemma BumpUserCounts(app: AppInfo, a: AppID)
    ensures Bumped(app, BumpUser(app), a, {UsersOf(a)})
  {
  }

  lemma BumpTokenCounts(app: AppInfo, a: AppID)
    ensures Bumped(app, BumpToken(app), a, {TokensOf(a)})
  {
  }

  lemma CountedApp(info: Info, a: AppID, app: AppInfo, counters: set<Counter>)
    requires Bumped(AppOf(info, a), app, a, counters)
    ensures Counted(info, Enter(info, a, app), counters + {AppsTotal})
  {
    var after := Enter(info, a, app);
    forall c ensures Value(after, c) == Value(info, c) + One(c in counters + {AppsTotal}) {
      if OfApp(c, a) {
        assert AppOf(after, a) == app;
      }
    }
  }

  /** forAppID: look up, or enter, the counters of an app. */
  method ForAppID(info: Info, a: AppID) returns (r: Info, app: AppInfo)
    requires AddsUp(info)
    ensures AddsUp(r) && app == AppOf(info, a) && AppAddsUp(app)
    ensures r == info.(apps := info.apps[a := app])
  {
    if a in info.apps {
      r, app := info, info.apps[a];
      assert info.apps == info.apps[a := app];
    } else {
      EmptyAppAddsUp(info, a);
      r, app := info.(apps := info.apps[a := NO_APP]), NO_APP;
    }
  }

  lemma EnterTwice(info: Info, a: AppID, app: AppInfo)
    ensures Enter(info.(apps := info.apps[a := AppOf(info, a)]), a, app) == Enter(info, a, app)
  {
    assert info.apps[a := AppOf(info, a)][a := app] == info.apps[a := app];
  }

  lemma EntryIsNoCount(info: Info, a: AppID)
    ensures Counted(info, info.(apps := info.apps[a := AppOf(info, a)]), {})
  {
  }

  method CountAppKV(info: Info, p: Parsed) returns (r: Info)
    requires AddsUp(info)
    ensures AddsUp(r)
    ensures Counted(info, r, {KVOf(p.appID), KVIn(p.appID, p.ns), KVBy(p.appID, p.userID)} + {AppsTotal})
  {
    var app;
    r, app := ForAppID(info, p.appID);
    BumpKVAddsUp(app, p.ns, p.userID);
    app := BumpKV(app, p.ns, p.userID);
    EnterTwice(info, p.appID, app);
    EnterAddsUp(info, p.appID, app);
    BumpKVCounts(AppOf(info, p.appID), p.appID, p.ns, p.userID);
    CountedApp(info, p.appID, app, {KVOf(p.appID), KVIn(p.appID, p.ns), KVBy(p.appID, p.userID)});
    r := Enter(r, p.appID, app);
  }

  method CountUser(info: Info, p: Parsed) returns (r: Info)
    requires AddsUp(info)
    ensures AddsUp(r) && Counted(info, r, {UsersOf(p.appID)} + {AppsTotal})
  {
    var app;
    r, app := ForAppID(info, p.appID);
    OtherBumpsAddUp(app);
    app := BumpUser(app);
    EnterTwice(info, p.appID, app);
    EnterAddsUp(info, p.appID, app);
    BumpUserCounts(AppOf(info, p.appID), p.appID);
    CountedApp(info, p.appID, app, {UsersOf(p.appID)});
    r := Enter(r, p.appID, app);
  }

  method CountToken(info: Info, appID: AppID) returns (r: Info)
    requires AddsUp(info)
    ensures AddsUp(r) && Counted(info, r, {TokensOf(appID)} + {AppsTotal})
  {
    var app;
    r, app := ForAppID(info, appID);
    OtherBumpsAddUp(app);
    app := BumpToken(app);
    EnterTwice(info, appID, app);
    EnterAddsUp(info, appID, app);
    BumpTokenCounts(AppOf(info, appID), appID);
    CountedApp(info, appID, app, {TokensOf(appID)});
    r := Enter(r, appID, app);
  }

  /** What the branch for hashkeys counts; other keys of that length only get their app an entry. */
  method CountHashkey(info: Info, key: string) returns (r: Info, isHashKey: bool)
    requires AddsUp(info)
    ensures AddsUp(r)
    ensures isHashKey <==> KindOf(key) in {AppKV, UserRecord}
    ensures Counted(info, r, if isHashKey then Below(key) else {})
  {
    KindsExclude(key);
    BelowKinds(key);
    r, isHashKey := info, false;
    var parsed := ParseHashkey(key);
    if parsed.Some? {
      isHashKey := true;
      if parsed.value.gns == KV_APP_PREFIX {
        r := CountAppKV(info, parsed.value);
      } else if parsed.value.gns == KV_USER_PREFIX {
        r := CountUser(info, parsed.value);
      } else {
        var app;
        EntryIsNoCount(info, parsed.value.appID);
        r, app := ForAppID(info, parsed.value.appID);
        isHashKey := false;
      }
    }
  }

  /** The counters a key belongs to, but for the total. */
  function Below(key: string): set<Counter> {
    CountersOf(key) - {All}
  }

  lemma BelowKinds(key: string)
    ensures KindOf(key) == AppKV ==>
      var p := ParseHashkey(key).value;
      Below(key) == {KVOf(p.appID), KVIn(p.appID, p.ns), KVBy(p.appID, p.userID)} + {AppsTotal}
    ensures KindOf(key) == UserRecord ==> Below(key) == {UsersOf(ParseHashkey(key).value.appID)} + {AppsTotal}
    ensures KindOf(key) == Token ==> Below(key) == {TokensOf(ParseSessionKey(key).value.0)} + {AppsTotal}
    ensures KindOf(key) == Unknown ==> Below(key) == {}
  {
  }

  /** The tests of the switch, in their order, find the kind of every key that is not counted yet. */
  lemma SwitchFindsKind(key: string)
    requires KindOf(key) !in {AppKV, UserRecord}
    ensures KindOf(key) ==
      if HasPrefix(key, KV_SUB_PREFIX) then SubsKind
      else if HasPrefix(key, KV_TOKEN_PREFIX) then if ParseSessionKey(key).Some? then Token else Unknown
      else if HasPrefix(key, KV_OAUTH2_STATE_PREFIX) then State
      else if HasPrefix(key, KV_INSTALLED_APP_PREFIX) then AppRecord
      else if HasPrefix(key, KV_LOCAL_MANIFEST_PREFIX) then ManifestRecord
      else if key == BOT_ID_KEY then Bot
      else if HasPrefix(key, KV_DEBUG_PREFIX) then DebugKind
      else Unknown
  {
  }

  lemma FirstPlainCounts(info: Info)
    ensures Counted(info, info.(subscriptionCount := info.subscriptionCount + 1), {Subs})
    ensures Counted(info, info.(oauth2StateCount := info.oauth2StateCount + 1), {States})
    ensures Counted(info, info.(installedAppCount := info.installedAppCount + 1), {AppRecords})
  {
  }

  lemma LastPlainCounts(info: Info)
    ensures Counted(info, info.(manifestCount := info.manifestCount + 1), {Manifests})
    ensures Counted(info, info.(other := info.other + 1), {BotID})
    ensures Counted(info, info.(debug := info.debug + 1), {Debug})
    ensures Counted(info, info, {})
  {
  }

  lemma PlainBelow(key: string)
    ensures match KindOf(key)
            case SubsKind => Below(key) == {Subs}
            case State => Below(key) == {States}
            case AppRecord => Below(key) == {AppRecords}
            case ManifestRecord => Below(key) == {Manifests}
            case Bot => Below(key) == {BotID}
            case DebugKind => Below(key) == {Debug}
            case _ => true
  {
  }

  /** The switch for all other keys; session keys that cannot be parsed are passed over. */
  method CountOther(info: Info, key: string) returns (r: Info)
    requires AddsUp(info) && KindOf(key) !in {AppKV, UserRecord}
    ensures AddsUp(r) && Counted(info, r, Below(key))
  {
    SwitchFindsKind(key);
    BelowKinds(key);
    PlainBelow(key);
    FirstPlainCounts(info);
    LastPlainCounts(info);
    r := info;
    if HasPrefix(key, KV_SUB_PREFIX) {
      r := r.(subscriptionCount := r.subscriptionCount + 1);
    } else if HasPrefix(key, KV_TOKEN_PREFIX) {
      var parsed := ParseSessionKey(key);
      if parsed.None? {
        return;
      }
      r := CountToken(info, parsed.value.0);
    } else if HasPrefix(key, KV_OAUTH2_STATE_PREFIX) {
      r := r.(oauth2StateCount := r.oauth2StateCount + 1);
    } else if HasPrefix(key, KV_INSTALLED_APP_PREFIX) {
      r := r.(installedAppCount := r.installedAppCount + 1);
    } else if HasPrefix(key, KV_LOCAL_MANIFEST_PREFIX) {
      r := r.(manifestCount := r.manifestCount + 1);
    } else if key == BOT_ID_KEY {
      r := r.(other := r.other + 1);
    } else if HasPrefix(key, KV_DEBUG_PREFIX) {
      r := r.(debug := r.debug + 1);
    }
  }

  /** Every counter has counted exactly its keys. */
  ghost predicate Exact(info: Info, keys: seq<string>) {
    forall c :: Value(info, c) == Count(keys, c)
  }

  lemma CountStep(keys: seq<string>, more: seq<string>, i: nat, c: Counter)
    requires i < |more|
    ensures Count(keys + more[..i + 1], c) == Count(keys + more[..i], c) + One(c in CountersOf(more[i]))
  {
    CountAppend(keys, more[..i], c);
    CountAppend(keys, more[..i + 1], c);
    CountSnoc(more, i, c);
    BelongsIff(more[i], c);
  }

  lemma ExactStep(before: Info, between: Info, after: Info, isHashKey: bool, keys: seq<string>, more: seq<string>,
      i: nat)
    requires i < |more| && Exact(before, keys + more[..i])
    requires Counted(before.(total := before.total + 1), between, if isHashKey then Below(more[i]) else {})
    requires if isHashKey then after == between else Counted(between, after, Below(more[i]))
    ensures Exact(after, keys + more[..i + 1])
  {
    forall c ensures Value(after, c) == Count(keys + more[..i + 1], c) {
      CountStep(keys, more, i, c);
      var start := before.(total := before.total + 1);
      assert Value(start, c) == Value(before, c) + One(c == All);
      assert Value(between, c) == Value(start, c) + One(isHashKey && c in Below(more[i]));
    }
  }

  /** One key. */
  method CountKey(info: Info, key: string) returns (r: Info, ghost between: Info, ghost isHashKey: bool)
    requires AddsUp(info)
    ensures AddsUp(r)
    ensures Counted(info.(total := info.total + 1), between, if isHashKey then Below(key) else {})
    ensures if isHashKey then r == between else Counted(between, r, Below(key))
  {
    var counted := info.(total := info.total + 1);
    var hashed;
    counted, hashed := CountHashkey(counted, key);
    between, isHashKey := counted, hashed;
    if !hashed {
      counted := CountOther(counted, key);
    }
    r := counted;
  }

  method CountPage(start: Info, ghost seen: seq<string>, ks: seq<string>) returns (info: Info)
    requires Exact(start, seen) && AddsUp(start)
    ensures Exact(info, seen + ks) && AddsUp(info)
  {
    info := start;
    assert seen + ks[..0] == seen;
    for i := 0 to |ks|
      invariant Exact(info, seen + ks[..i]) && AddsUp(info)
    {
      ghost var before, between, isHashKey := info, info, false;
      info, between, isHashKey := CountKey(info, ks[i]);
      ExactStep(before, between, info, isHashKey, seen, ks, i);
    }
    assert ks[..|ks|] == ks;
  }

  /** All counters are exact, and those of the apps add up. */
  method GetDebugKVInfo(server: Server) returns (ok: bool, info: Info)
    modifies server`errors
    ensures server.errors == old(server.errors) + Failure(ok)
    ensures ok ==> Exact(info, server.keys) && AddsUp(info)
  {
    info := Info(0, map[], 0, 0, 0, 0, 0, 0, 0);
    assert Totals(info.apps) == map[];
    var n := 0;
    while true
      invariant Exact(info, Pages(server.keys, n)) && AddsUp(info) && server.errors == old(server.errors)
      decreases |server.keys| - n * LIST_KEYS_PER_PAGE
    {
      var listed, ks := server.ListKeys(n, LIST_KEYS_PER_PAGE);
      if !listed {
        return false, info;
      }
      EmptyPageIsLast(server.keys, n);
      if ks == [] {
        return true, info;
      }
      info := CountPage(info, Pages(server.keys, n), ks);
      n := n + 1;
    }
  }

  lemma {:induction false} CountIsFilter(keys: seq<string>, c: Counter, p: string -> bool)
    requires forall k :: p(k) <==> Belongs(k, c)
    ensures Count(keys, c) == |Filter(keys, p)|
  {
    if keys != [] {
      var front, last := keys[..|keys| - 1], keys[|keys| - 1];
      CountIsFilter(front, c, p);
      assert keys == front + [last];
      FilterAppend(front, [last], p);
    }
  }

  /** An exact counter shows how many keys it is about. */
  lemma CounterShows(info: Info, keys: seq<string>, c: Counter, p: string -> bool)
    requires Exact(info, keys) && forall k :: p(k) <==> Belongs(k, c)
    ensures Value(info, c) == |Filter(keys, p)|
  {
    CountIsFilter(keys, c, p);
  }

  /** What the plain counters of an exact report say, on the texts of the keys. */
  lemma PlainCounters(info: Info, keys: seq<string>)
    requires Exact(info, keys)
    ensures info.total == |keys|
    ensures info.subscriptionCount == |Filter(keys, k => HasPrefix(k, "sub."))|
    ensures info.oauth2StateCount == |Filter(keys, k => HasPrefix(k, ".o"))|
    ensures info.other == |Filter(keys, k => k == "mmi_botid")|
  {
    CountersPartition(keys);
    assert info.total == Value(info, All);
    CounterShows(info, keys, Subs, k => HasPrefix(k, "sub."));
    CounterShows(info, keys, States, k => HasPrefix(k, ".o"));
    CounterShows(info, keys, BotID, k => k == "mmi_botid");
  }

  lemma RecordCounters(info: Info, keys: seq<string>)
    requires Exact(info, keys)
    ensures info.installedAppCount == |Filter(keys, k => HasPrefix(k, "app."))|
    ensures info.manifestCount == |Filter(keys, k => HasPrefix(k, "man."))|
    ensures info.debug == |Filter(keys, k => HasPrefix(k, ".debug."))|
  {
    CounterShows(info, keys, AppRecords, k => HasPrefix(k, "app."));
    CounterShows(info, keys, Manifests, k => HasPrefix(k, "man."));
    CounterShows(info, keys, Debug, k => HasPrefix(k, ".debug."));
  }

  /** A hashkey of the app under the tag, and a session key of the app. */
  predicate DataKey(k: string, tag: string, a: AppID) {
    |k| == 82 && k[..2] == tag && TrimSpace(k[2..34]) == a
  }

  predicate TokenKey(k: string, a: AppID) {
    '_' !in a && HasPrefix(k, ".t_" + a + "_") && '_' !in k[|a| + 4..]
  }

  lemma TokenKeyIff(k: string, a: AppID)
    ensures TokenKey(k, a) <==> Belongs(k, TokensOf(a))
  {
    if TokenKey(k, a) {
      var u := k[|a| + 4..];
      assert k == SessionKey(a, u);
      ParseUndoesSessionKey(a, u);
    }
    if Belongs(k, TokensOf(a)) {
      SessionKeyUndoesParse(k);
      var u := ParseSessionKey(k).value.1;
      assert k == SessionKey(a, u) == ".t_" + a + "_" + u;
      ParseUndoesSessionKey(a, u);
    }
  }

  lemma TagIs(k: string)
    ensures |k| == 82 ==> k[..2] == k[0..2]
  {
  }

  /** The same for the counters of one app. */
  lemma AppCounters(info: Info, keys: seq<string>, a: AppID)
    requires Exact(info, keys)
    ensures var app := if a in info.apps then info.apps[a] else AppInfo(0, map[], map[], 0, 0);
            && app.kvCount == |Filter(keys, k => DataKey(k, ".k", a))|
            && app.userCount == |Filter(keys, k => DataKey(k, ".u", a))|
            && app.tokenCount == |Filter(keys, k => TokenKey(k, a))|
  {
    forall k: string
      ensures DataKey(k, ".k", a) <==> Belongs(k, KVOf(a))
      ensures DataKey(k, ".u", a) <==> Belongs(k, UsersOf(a))
      ensures TokenKey(k, a) <==> Belongs(k, TokensOf(a))
    {
      TagIs(k);
      TokenKeyIff(k, a);
    }
    CounterShows(info, keys, KVOf(a), k => DataKey(k, ".k", a));
    CounterShows(info, keys, UsersOf(a), k => DataKey(k, ".u", a));
    CounterShows(info, keys, TokensOf(a), k => TokenKey(k, a));
  }

  /** And for its counters by namespace and by user. */
  lemma AppCountersBy(info: Info, keys: seq<string>, a: AppID, ns: string, u: UserID)
    requires Exact(info, keys)
    ensures var app := if a in info.apps then info.apps[a] else AppInfo(0, map[], map[], 0, 0);
            && (if ns in app.byNamespace then app.byNamespace[ns] else 0) ==
               |Filter(keys, k => DataKey(k, ".k", a) && TrimSpace(k[60..62]) == ns)|
            && (if u in app.byUserID then app.byUserID[u] else 0) ==
               |Filter(keys, k => DataKey(k, ".k", a) && k[34..60] == u)|
  {
    forall k: string
      ensures DataKey(k, ".k", a) && TrimSpace(k[60..62]) == ns <==> Belongs(k, KVIn(a, ns))
      ensures DataKey(k, ".k", a) && k[34..60] == u <==> Belongs(k, KVBy(a, u))
    {
      TagIs(k);
    }
    CounterShows(info, keys, KVIn(a, ns), k => DataKey(k, ".k", a) && TrimSpace(k[60..62]) == ns);
    CounterShows(info, keys, KVBy(a, u), k => DataKey(k, ".k", a) && k[34..60] == u);
  }

  /** How many keys are in no counter but the total. */
  function Unrecognised(keys: seq<string>): nat {
    if keys == [] then 0 else Unrecognised(keys[..|keys| - 1]) + One(KindOf(keys[|keys| - 1]) == Unknown)
  }

  /** The counters partition the key space: nothing is counted twice, and what is missing is unrecognised. */
  lemma {:induction false} CountersPartition(keys: seq<string>)
    ensures |keys| == Count(keys, AppsTotal) + Count(keys, Subs) + Count(keys, States) + Count(keys, AppRecords) +
                      Count(keys, Manifests) + Count(keys, BotID) + Count(keys, Debug) + Unrecognised(keys)
    ensures Count(keys, All) == |keys|
  {
    if keys != [] {
      CountersPartition(keys[..|keys| - 1]);
      KindsExclude(keys[|keys| - 1]);
    }
  }
}
