/**
  Subscriptions: the key of an event (server/store/subscriptions.go, apps/subscription.go), the lists
  stored under these keys, and the operations on them (server/appservices/subscriptions.go).
  Together the lists represent one map (event, app, owner) -> call.
 */
module Subscriptions {
  import opened Wrappers
  import opened Bindings
  import opened Records
  import opened Keys
  import opened Paging

  // ---------------------------------------------------------------- keys of events

  const USER_CREATED := "user_created"
  const USER_JOINED_CHANNEL := "user_joined_channel"
  const USER_LEFT_CHANNEL := "user_left_channel"
  const USER_JOINED_TEAM := "user_joined_team"
  const USER_LEFT_TEAM := "user_left_team"
  const BOT_JOINED_CHANNEL := "bot_joined_channel"
  const BOT_LEFT_CHANNEL := "bot_left_channel"
  const BOT_JOINED_TEAM := "bot_joined_team"
  const BOT_LEFT_TEAM := "bot_left_team"
  const CHANNEL_CREATED := "channel_created"

  predicate Global(subject: string) {
    subject in {USER_CREATED, BOT_JOINED_TEAM, BOT_LEFT_TEAM, BOT_JOINED_CHANNEL, BOT_LEFT_CHANNEL}
  }

  predicate OfChannels(subject: string) {
    subject in {USER_JOINED_CHANNEL, USER_LEFT_CHANNEL}
  }

  predicate OfTeams(subject: string) {
    subject in {USER_JOINED_TEAM, USER_LEFT_TEAM}
  }

  function Suffix(id: string): string {
    if id == "" then "" else "." + id
  }

  function SubsKey(e: Event): Option<string> {
    if Global(e.subject) then
      if e.teamID != "" || e.channelID != "" then None else Some(KV_SUB_PREFIX + e.subject)
    else if OfChannels(e.subject) then
      if e.teamID != "" then None else Some(KV_SUB_PREFIX + e.subject + Suffix(e.channelID))
    else if OfTeams(e.subject) then
      if e.channelID != "" then None else Some(KV_SUB_PREFIX + e.subject + Suffix(e.teamID))
    else if e.subject == CHANNEL_CREATED then
      if e.channelID != "" || e.teamID == "" then None else Some(KV_SUB_PREFIX + e.subject + "." + e.teamID)
    else None
  }

  datatype Complaint = EmptySubject | UnknownSubject | TeamNotEmpty | TeamEmpty | ChannelNotEmpty

  function If(c: bool, complaint: Complaint): seq<Complaint> {
    if c then [complaint] else []
  }

  /** Event.validate: every complaint, in the order in which they are appended. */
  function Complaints(e: Event): seq<Complaint> {
    If(e.subject == "", EmptySubject) +
    if Global(e.subject) then If(e.teamID != "", TeamNotEmpty) + If(e.channelID != "", ChannelNotEmpty)
    else if e.subject == CHANNEL_CREATED then If(e.teamID == "", TeamEmpty) + If(e.channelID != "", ChannelNotEmpty)
    else if OfTeams(e.subject) then If(e.channelID != "", ChannelNotEmpty)
    else if OfChannels(e.subject) then If(e.teamID != "", TeamNotEmpty)
    else [UnknownSubject]
  }

  /** The events that have a key are exactly those that validate. */
  lemma KeyDefinedIffValid(e: Event)
    ensures SubsKey(e).Some? <==> Complaints(e) == []
  {
    assert If(true, EmptySubject) != [];
    if Complaints(e) == [] {
      assert e.subject != "";
    }
  }

  predicate Unscoped(e: Event) {
    e.channelID == "" && e.teamID == ""
  }

  /** Subject by subject: which events can be subscribed to, and under which key the list is kept. */
  lemma KeyTable(e: Event)
    ensures SubsKey(e).Some? <==>
            || (e.subject in {"user_created", "bot_joined_channel", "bot_left_channel"} && Unscoped(e))
            || (e.subject in {"bot_joined_team", "bot_left_team"} && Unscoped(e))
            || (e.subject in {"user_joined_channel", "user_left_channel"} && e.teamID == "")
            || (e.subject in {"user_joined_team", "user_left_team"} && e.channelID == "")
            || (e.subject == "channel_created" && e.channelID == "" && e.teamID != "")
    ensures SubsKey(e).Some? && Unscoped(e) ==> SubsKey(e).value == "sub." + e.subject
    ensures SubsKey(e).Some? && e.channelID != "" ==> SubsKey(e).value == "sub." + e.subject + "." + e.channelID
    ensures SubsKey(e).Some? && e.teamID != "" ==> SubsKey(e).value == "sub." + e.subject + "." + e.teamID
  {
    assert "sub." + e.subject + "" == "sub." + e.subject;
    assert "sub." + e.subject + ("." + e.channelID) == "sub." + e.subject + "." + e.channelID;
    assert "sub." + e.subject + ("." + e.teamID) == "sub." + e.subject + "." + e.teamID;
  }

  /** Each complaint is made exactly for the events that it is about. */
  lemma ComplaintTable(e: Event)
    ensures var bot := e.subject in {"bot_joined_channel", "bot_left_channel", "bot_joined_team", "bot_left_team"};
            var channels := e.subject in {"user_joined_channel", "user_left_channel"};
            var teams := e.subject in {"user_joined_team", "user_left_team"};
            var global, created := bot || e.subject == "user_created", e.subject == "channel_created";
            && (EmptySubject in Complaints(e) <==> e.subject == "")
            && (UnknownSubject in Complaints(e) <==> !global && !channels && !teams && !created)
            && (TeamNotEmpty in Complaints(e) <==> (global || channels) && e.teamID != "")
            && (TeamEmpty in Complaints(e) <==> created && e.teamID == "")
            && (ChannelNotEmpty in Complaints(e) <==> (global || teams || created) && e.channelID != "")
  {
  }

  /** The part of s before its first '.'. */
  function BeforeDot(s: string): string {
    if s == [] || s[0] == '.' then [] else [s[0]] + BeforeDot(s[1..])
  }

  lemma {:induction false} BeforeDotOf(subject: string, rest: string)
    requires '.' !in subject && (rest == "" || rest[0] == '.')
    ensures BeforeDot(subject + rest) == subject
  {
    if subject == [] {
      assert subject + rest == rest;
    } else {
      assert (subject + rest)[1..] == subject[1..] + rest;
      BeforeDotOf(subject[1..], rest);
    }
  }

  /** What follows the subject in the key: empty, or a dot and the only ID the event carries. */
  function Rest(e: Event): (r: string) {
    Suffix(e.channelID + e.teamID)
  }

  lemma GlobalHasNoDot(subject: string)
    requires Global(subject)
    ensures '.' !in subject
  {
    assert '.' !in USER_CREATED && '.' !in BOT_JOINED_TEAM && '.' !in BOT_LEFT_TEAM;
    assert '.' !in BOT_JOINED_CHANNEL && '.' !in BOT_LEFT_CHANNEL;
  }

  lemma ScopedHasNoDot(subject: string)
    requires OfChannels(subject) || OfTeams(subject) || subject == CHANNEL_CREATED
    ensures '.' !in subject
  {
    assert '.' !in USER_JOINED_CHANNEL && '.' !in USER_LEFT_CHANNEL;
    assert '.' !in USER_JOINED_TEAM && '.' !in USER_LEFT_TEAM && '.' !in CHANNEL_CREATED;
  }

  lemma Joined(prefix: string, subject: string, id: string)
    ensures prefix + subject + Suffix(id) == prefix + (subject + Suffix(id))
    ensures id != "" ==> prefix + subject + "." + id == prefix + (subject + Suffix(id))
    ensures id == "" ==> prefix + subject == prefix + (subject + Suffix(id))
  {
  }

  lemma KeyShape(e: Event)
    requires SubsKey(e).Some?
    ensures SubsKey(e).value == KV_SUB_PREFIX + (e.subject + Rest(e))
    ensures '.' !in e.subject && (e.channelID == "" || e.teamID == "")
    ensures OfChannels(e.subject) || e.channelID == ""
    ensures OfTeams(e.subject) || e.subject == CHANNEL_CREATED || e.teamID == ""
  {
    if Global(e.subject) {
      GlobalHasNoDot(e.subject);
    } else {
      ScopedHasNoDot(e.subject);
    }
    var id := e.channelID + e.teamID;
    assert id == if e.teamID == "" then e.channelID else e.teamID;
    Joined(KV_SUB_PREFIX, e.subject, id);
  }

  lemma SubsKeyIsSubsKey(e: Event)
    requires SubsKey(e).Some?
    ensures IsSubsKey(SubsKey(e).value)
  {
    KeyShape(e);
  }

  /** Different events have different keys. */
  lemma SubsKeyInjective(e: Event, f: Event)
    requires SubsKey(e).Some? && SubsKey(e) == SubsKey(f)
    ensures e == f
  {
    KeyShape(e);
    KeyShape(f);
    var k := SubsKey(e).value;
    assert k[4..] == e.subject + Rest(e) && k[4..] == f.subject + Rest(f);
    BeforeDotOf(e.subject, Rest(e));
    BeforeDotOf(f.subject, Rest(f));
    assert e.subject == f.subject;
    var n := |e.subject|;
    assert (e.subject + Rest(e))[n..] == Rest(e) && (f.subject + Rest(f))[n..] == Rest(f);
    SuffixInjective(e.channelID + e.teamID, f.channelID + f.teamID);
    assert e.channelID + e.teamID == if OfChannels(e.subject) then e.channelID else e.teamID;
    assert f.channelID + f.teamID == if OfChannels(e.subject) then f.channelID else f.teamID;
  }

  lemma SuffixInjective(a: string, b: string)
    ensures Suffix(a) == Suffix(b) ==> a == b
  {
    assert a != "" ==> Suffix(a)[1..] == a;
    assert b != "" ==> Suffix(b)[1..] == b;
  }

  // ---------------------------------------------------------------- one list

  predicate Has(s: Subscription, appID: AppID, owner: UserID) {
    s.appID == appID && s.ownerUserID == owner
  }

  function Find(subs: seq<Subscription>, appID: AppID, owner: UserID): Option<Call> {
    if subs == [] then None
    else if Has(subs[0], appID, owner) then Some(subs[0].call)
    else Find(subs[1..], appID, owner)
  }

  predicate Unique(subs: seq<Subscription>) {
    subs == [] || (Find(subs[1..], subs[0].appID, subs[0].ownerUserID) == None && Unique(subs[1..]))
  }

  /** The list without its first entry of this app and owner; all others stay, in order. */
  function Removed(subs: seq<Subscription>, appID: AppID, owner: UserID): seq<Subscription> {
    if subs == [] then []
    else if Has(subs[0], appID, owner) then subs[1..]
    else [subs[0]] + Removed(subs[1..], appID, owner)
  }

  lemma {:induction false} FindInRemoved(subs: seq<Subscription>, appID: AppID, owner: UserID, a: AppID, o: UserID)
    requires Unique(subs)
    ensures Find(Removed(subs, appID, owner), a, o) ==
            if a == appID && o == owner then None else Find(subs, a, o)
  {
    if subs != [] && !Has(subs[0], appID, owner) {
      FindInRemoved(subs[1..], appID, owner, a, o);
    }
  }

  lemma {:induction false} RemovedUnique(subs: seq<Subscription>, appID: AppID, owner: UserID)
    requires Unique(subs)
    ensures Unique(Removed(subs, appID, owner))
  {
    if subs != [] && !Has(subs[0], appID, owner) {
      RemovedUnique(subs[1..], appID, owner);
      FindInRemoved(subs[1..], appID, owner, subs[0].appID, subs[0].ownerUserID);
    }
  }

  lemma {:induction false} RemovedAbsent(subs: seq<Subscription>, appID: AppID, owner: UserID)
    requires Find(subs, appID, owner) == None
    ensures Removed(subs, appID, owner) == subs
  {
    if subs != [] {
      RemovedAbsent(subs[1..], appID, owner);
    }
  }

  lemma {:induction false} FindInAppended(subs: seq<Subscription>, s: Subscription, a: AppID, o: UserID)
    ensures Find(subs + [s], a, o) ==
            if Find(subs, a, o).Some? then Find(subs, a, o)
            else if Has(s, a, o) then Some(s.call) else None
  {
    if subs == [] {
      assert [] + [s] == [s];
    } else {
      assert (subs + [s])[1..] == subs[1..] + [s];
      FindInAppended(subs[1..], s, a, o);
    }
  }

  lemma {:induction false} AppendedUnique(subs: seq<Subscription>, s: Subscription)
    requires Unique(subs) && Find(subs, s.appID, s.ownerUserID) == None
    ensures Unique(subs + [s])
  {
    if subs == [] {
      assert [] + [s] == [s];
    } else {
      assert (subs + [s])[1..] == subs[1..] + [s];
      AppendedUnique(subs[1..], s);
      FindInAppended(subs[1..], s, subs[0].appID, subs[0].ownerUserID);
    }
  }

  function NotOf(subs: seq<Subscription>, appID: AppID): seq<Subscription> {
    Filter(subs, (s: Subscription) => s.appID != appID)
  }

  lemma {:induction false} FindInNotOf(subs: seq<Subscription>, appID: AppID, a: AppID, o: UserID)
    ensures Find(NotOf(subs, appID), a, o) == if a == appID then None else Find(subs, a, o)
  {
    if subs != [] {
      FindInNotOf(subs[1..], appID, a, o);
    }
  }

  lemma {:induction false} NotOfUnique(subs: seq<Subscription>, appID: AppID)
    requires Unique(subs)
    ensures Unique(NotOf(subs, appID))
    ensures |NotOf(subs, appID)| == |subs| ==> NotOf(subs, appID) == subs
  {
    if subs != [] {
      NotOfUnique(subs[1..], appID);
      FindInNotOf(subs[1..], appID, subs[0].appID, subs[0].ownerUserID);
      FilterLength(subs[1..], (s: Subscription) => s.appID != appID);
    }
  }

  // ---------------------------------------------------------------- all lists

  /** The list under one key; empty when there is none. */
  function Stored(data: KVData, key: string): seq<Subscription> {
    if key in data && data[key].SubsValue? then data[key].stored.subscriptions else []
  }

  /** The map that the lists represent. */
  function Lookup(data: KVData, e: Event, appID: AppID, owner: UserID): Option<Call> {
    if SubsKey(e).None? then None else Find(Stored(data, SubsKey(e).value), appID, owner)
  }

  /** A subscription key holds a non-empty list without duplicates, filed under its own event. */
  predicate WellFiled(data: KVData, key: string) {
    && key in data && data[key].SubsValue?
    && SubsKey(data[key].stored.event) == Some(key)
    && data[key].stored.subscriptions != []
    && Unique(data[key].stored.subscriptions)
  }

  ghost predicate SubsInv(data: KVData) {
    forall k :: k in data && IsSubsKey(k) ==> WellFiled(data, k)
  }

  /** subscriptionStore.Save, when its one call succeeds. */
  function SaveSubs(data: KVData, e: Event, subs: seq<Subscription>): KVData
    requires SubsKey(e).Some?
  {
    if subs == [] then data - {SubsKey(e).value}
    else data[SubsKey(e).value := SubsValue(StoredSubscriptions(e, subs))]
  }

  lemma SaveKeepsInv(data: KVData, e: Event, subs: seq<Subscription>)
    requires SubsInv(data) && SubsKey(e).Some? && Unique(subs)
    ensures SubsInv(SaveSubs(data, e, subs))
  {
    var after := SaveSubs(data, e, subs);
    forall k | k in after && IsSubsKey(k)
      ensures WellFiled(after, k)
    {
      assert k != SubsKey(e).value ==> WellFiled(data, k);
    }
  }

  lemma LookupAfterSave(data: KVData, e: Event, subs: seq<Subscription>, f: Event, a: AppID, o: UserID)
    requires SubsKey(e).Some?
    ensures Lookup(SaveSubs(data, e, subs), f, a, o) ==
            if f == e then Find(subs, a, o) else Lookup(data, f, a, o)
  {
    if SubsKey(f) == SubsKey(e) {
      SubsKeyInjective(f, e);
    }
  }

  /** Subscribe and Unsubscribe on the stored lists, when no call fails. */
  function Subscribed(data: KVData, e: Event, appID: AppID, owner: UserID, call: Call): KVData
    requires SubsKey(e).Some?
  {
    SaveSubs(data, e, Removed(Stored(data, SubsKey(e).value), appID, owner) + [Subscription(call, appID, owner)])
  }

  function Unsubscribed(data: KVData, e: Event, appID: AppID, owner: UserID): KVData
    requires SubsKey(e).Some?
  {
    SaveSubs(data, e, Removed(Stored(data, SubsKey(e).value), appID, owner))
  }

  lemma StoredUnique(data: KVData, e: Event)
    requires SubsInv(data) && SubsKey(e).Some?
    ensures Unique(Stored(data, SubsKey(e).value))
  {
    SubsKeyIsSubsKey(e);
    var key := SubsKey(e).value;
    if key in data {
      assert WellFiled(data, key);
    }
  }

  /** Subscribe is a map update, for every event, app and owner. */
  lemma SubscribeIsUpdate(data: KVData, e: Event, appID: AppID, owner: UserID, call: Call, f: Event, a: AppID,
      o: UserID)
    requires SubsInv(data) && SubsKey(e).Some?
    ensures SubsInv(Subscribed(data, e, appID, owner, call))
    ensures Lookup(Subscribed(data, e, appID, owner, call), f, a, o) ==
            if (f, a, o) == (e, appID, owner) then Some(call) else Lookup(data, f, a, o)
  {
    var subs, s := Stored(data, SubsKey(e).value), Subscription(call, appID, owner);
    StoredUnique(data, e);
    RemovedUnique(subs, appID, owner);
    FindInRemoved(subs, appID, owner, appID, owner);
    AppendedUnique(Removed(subs, appID, owner), s);
    SaveKeepsInv(data, e, Removed(subs, appID, owner) + [s]);
    LookupAfterSave(data, e, Removed(subs, appID, owner) + [s], f, a, o);
    FindInAppended(Removed(subs, appID, owner), s, a, o);
    FindInRemoved(subs, appID, owner, a, o);
  }

  lemma {:induction false} RemovedCuts(subs: seq<Subscription>, appID: AppID, owner: UserID)
    returns (front: seq<Subscription>, back: seq<Subscription>)
    ensures Removed(subs, appID, owner) == front + back
    ensures subs == match Find(subs, appID, owner)
                    case Some(call) => front + [Subscription(call, appID, owner)] + back
                    case None => front + back
  {
    if subs == [] {
      front, back := [], [];
    } else if Has(subs[0], appID, owner) {
      front, back := [], subs[1..];
    } else {
      var rest;
      rest, back := RemovedCuts(subs[1..], appID, owner);
      front := [subs[0]] + rest;
      assert subs == [subs[0]] + subs[1..];
    }
  }

  /** In the list, a subscription loses its old place and gets the last one; all others stay, in order. */
  lemma SubscribeOrder(data: KVData, e: Event, appID: AppID, owner: UserID, call: Call)
    returns (front: seq<Subscription>, back: seq<Subscription>)
    requires SubsKey(e).Some?
    ensures Stored(data, SubsKey(e).value) ==
            match Lookup(data, e, appID, owner)
            case Some(was) => front + [Subscription(was, appID, owner)] + back
            case None => front + back
    ensures Stored(Subscribed(data, e, appID, owner, call), SubsKey(e).value) ==
            front + back + [Subscription(call, appID, owner)]
    ensures Stored(Unsubscribed(data, e, appID, owner), SubsKey(e).value) == front + back
  {
    front, back := RemovedCuts(Stored(data, SubsKey(e).value), appID, owner);
  }

  /** Unsubscribe is removal from the map. */
  lemma UnsubscribeIsRemoval(data: KVData, e: Event, appID: AppID, owner: UserID, f: Event, a: AppID, o: UserID)
    requires SubsInv(data) && SubsKey(e).Some?
    ensures SubsInv(Unsubscribed(data, e, appID, owner))
    ensures Lookup(Unsubscribed(data, e, appID, owner), f, a, o) ==
            if (f, a, o) == (e, appID, owner) then None else Lookup(data, f, a, o)
  {
    var subs := Stored(data, SubsKey(e).value);
    StoredUnique(data, e);
    RemovedUnique(subs, appID, owner);
    SaveKeepsInv(data, e, Removed(subs, appID, owner));
    LookupAfterSave(data, e, Removed(subs, appID, owner), f, a, o);
    FindInRemoved(subs, appID, owner, a, o);
  }

  /** One step of UnsubscribeApp: the list under one key, rewritten only if it gets shorter. */
  function WithoutAppAt(data: KVData, key: string, appID: AppID): KVData
    requires WellFiled(data, key)
  {
    var stored := data[key].stored;
    var modified := NotOf(stored.subscriptions, appID);
    if |modified| < |stored.subscriptions| then SaveSubs(data, stored.event, modified) else data
  }

  lemma WithoutAppAtStep(data: KVData, key: string, appID: AppID)
    requires SubsInv(data) && WellFiled(data, key)
    ensures SubsInv(WithoutAppAt(data, key, appID))
    ensures var after := WithoutAppAt(data, key, appID);
            forall k :: k != key ==> (k in data <==> k in after) && (k in data ==> after[k] == data[k])
    ensures Stored(WithoutAppAt(data, key, appID), key) == NotOf(data[key].stored.subscriptions, appID)
  {
    var subs := data[key].stored.subscriptions;
    NotOfUnique(subs, appID);
    FilterLength(subs, (s: Subscription) => s.appID != appID);
    SaveKeepsInv(data, data[key].stored.event, NotOf(subs, appID));
  }

  /** Every list of `before` whose key is in `done` has lost the app's entries; nothing else differs. */
  ghost predicate AppGoneFrom(before: KVData, after: KVData, done: set<string>, appID: AppID) {
    && (forall k :: k !in done ==> (k in before <==> k in after) && (k in before ==> after[k] == before[k]))
    && (forall k :: k in done ==> Stored(after, k) == NotOf(Stored(before, k), appID))
  }

  lemma AppGoneStep(before: KVData, between: KVData, done: set<string>, key: string, appID: AppID)
    requires SubsInv(between) && AppGoneFrom(before, between, done, appID) && key !in done
    requires key in before && IsSubsKey(key)
    ensures WellFiled(between, key) && between[key] == before[key]
    ensures SubsInv(WithoutAppAt(between, key, appID))
    ensures AppGoneFrom(before, WithoutAppAt(between, key, appID), done + {key}, appID)
  {
    assert WellFiled(between, key);
    var after := WithoutAppAt(between, key, appID);
    WithoutAppAtStep(between, key, appID);
    forall k | k in done + {key}
      ensures Stored(after, k) == NotOf(Stored(before, k), appID)
    {
      if k != key {
        assert Stored(after, k) == Stored(between, k);
      }
    }
  }

  /** All subscription keys of `data`. */
  ghost predicate AllSubsKeys(done: set<string>, data: KVData) {
    forall k :: k in done <==> k in data && IsSubsKey(k)
  }

  /** UnsubscribeApp filters the map. */
  lemma UnsubscribeAppIsFilter(before: KVData, after: KVData, done: set<string>, appID: AppID, f: Event, a: AppID,
      o: UserID)
    requires AppGoneFrom(before, after, done, appID) && AllSubsKeys(done, before)
    ensures Lookup(after, f, a, o) == if a == appID then None else Lookup(before, f, a, o)
  {
    if SubsKey(f).Some? {
      var key := SubsKey(f).value;
      SubsKeyIsSubsKey(f);
      FindInNotOf(Stored(before, key), appID, a, o);
      if key !in done {
        assert key !in before && key !in after;
      }
    }
  }

  // ---------------------------------------------------------------- whole runs

  datatype Op =
    | OpSubscribe(event: Event, appID: AppID, owner: UserID, call: Call)
    | OpUnsubscribe(event: Event, appID: AppID, owner: UserID)
    | OpUnsubscribeApp(appID: AppID)

  type SubsMap = map<(Event, AppID, UserID), Call>

  /** What an operation means for the map. */
  function Apply(m: SubsMap, op: Op): SubsMap {
    match op
    case OpSubscribe(e, a, o, call) => m[(e, a, o) := call]
    case OpUnsubscribe(e, a, o) => m - {(e, a, o)}
    case OpUnsubscribeApp(a) => map k | k in m && k.1 != a :: m[k]
  }

  function ApplyAll(m: SubsMap, ops: seq<Op>): SubsMap {
    if ops == [] then m else Apply(ApplyAll(m, ops[..|ops| - 1]), ops[|ops| - 1])
  }

  /** What an operation that succeeds does to the stored lists. */
  ghost predicate Step(before: KVData, op: Op, after: KVData) {
    match op
    case OpSubscribe(e, a, o, call) => SubsKey(e).Some? && after == Subscribed(before, e, a, o, call)
    case OpUnsubscribe(e, a, o) => SubsKey(e).Some? && after == Unsubscribed(before, e, a, o)
    case OpUnsubscribeApp(a) => SubsInv(after) && exists done :: AllSubsKeys(done, before) && AppGoneFrom(before,
        after, done, a)
  }

  ghost predicate Represents(data: KVData, m: SubsMap) {
    forall e, a, o :: Lookup(data, e, a, o) == if (e, a, o) in m then Some(m[(e, a, o)]) else None
  }

  lemma StepRefines(before: KVData, op: Op, after: KVData, m: SubsMap)
    requires SubsInv(before) && Represents(before, m) && Step(before, op, after)
    ensures SubsInv(after) && Represents(after, Apply(m, op))
  {
    if op.OpSubscribe? {
      SubscribeIsUpdate(before, op.event, op.appID, op.owner, op.call, op.event, op.appID, op.owner);
    } else if op.OpUnsubscribe? {
      UnsubscribeIsRemoval(before, op.event, op.appID, op.owner, op.event, op.appID, op.owner);
    }
    forall e, a, o
      ensures Lookup(after, e, a, o) == if (e, a, o) in Apply(m, op) then Some(Apply(m, op)[(e, a, o)]) else None
    {
      match op
      case OpSubscribe(f, b, p, call) => SubscribeIsUpdate(before, f, b, p, call, e, a, o);
      case OpUnsubscribe(f, b, p) => UnsubscribeIsRemoval(before, f, b, p, e, a, o);
      case OpUnsubscribeApp(b) =>
        var done :| AllSubsKeys(done, before) && AppGoneFrom(before, after, done, b);
        UnsubscribeAppIsFilter(before, after, done, b, e, a, o);
    }
  }

  /** A run: the states around each operation. */
  ghost predicate SubsRun(states: seq<KVData>, ops: seq<Op>) {
    |states| == |ops| + 1 && forall i :: 0 <= i < |ops| ==> Step(states[i], ops[i], states[i + 1])
  }

  lemma ApplySnoc(m: SubsMap, ops: seq<Op>, n: nat)
    requires n < |ops|
    ensures ApplyAll(m, ops[..n + 1]) == Apply(ApplyAll(m, ops[..n]), ops[n])
  {
    assert ops[..n + 1][..n] == ops[..n];
  }

  /** Over every run the lists behave as one map (event, app, owner) -> call. */
  lemma {:induction false} RunRefinesMap(states: seq<KVData>, ops: seq<Op>, m: SubsMap, n: nat)
    requires SubsRun(states, ops) && n <= |ops| && SubsInv(states[0]) && Represents(states[0], m)
    ensures SubsInv(states[n]) && Represents(states[n], ApplyAll(m, ops[..n]))
  {
    if n > 0 {
      RunRefinesMap(states, ops, m, n - 1);
      ApplySnoc(m, ops, n - 1);
      assert Step(states[n - 1], ops[n - 1], states[n - 1 + 1]);
      StepRefines(states[n - 1], ops[n - 1], states[n], ApplyAll(m, ops[..n - 1]));
    }
  }
}
