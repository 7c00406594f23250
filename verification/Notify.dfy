/** Which subscriptions an event is dispatched to (server/proxy/notify.go). */
module Notify {
  import opened Wrappers
  import opened Bindings
  import opened Records
  import opened Mattermost
  import opened Subscriptions
  import opened AppServices

  /** One goroutine started by notifyAll. */
  datatype Dispatch = Dispatch(event: Event, sub: Subscription)

  function Dispatches(e: Event, subs: seq<Subscription>, wanted: Subscription -> bool): seq<Dispatch> {
    if subs == [] then []
    else if wanted(subs[0]) then [Dispatch(e, subs[0])] + Dispatches(e, subs[1..], wanted)
    else Dispatches(e, subs[1..], wanted)
  }

  lemma {:induction false} DispatchesSnoc(e: Event, subs: seq<Subscription>, i: nat, wanted: Subscription -> bool)
    requires i < |subs|
    ensures Dispatches(e, subs[..i + 1], wanted) ==
            if wanted(subs[i]) then Dispatches(e, subs[..i], wanted) + [Dispatch(e, subs[i])]
            else Dispatches(e, subs[..i], wanted)
  {
    var front := subs[..i + 1];
    if i > 0 {
      assert front[1..] == subs[1..][..i - 1 + 1] && subs[..i][1..] == subs[1..][..i - 1];
      DispatchesSnoc(e, subs[1..], i - 1, wanted);
    }
  }

  /** notifyAll: nothing is dispatched when the list cannot be read. */
  method NotifyAll(server: Server, e: Event, wanted: Subscription -> bool) returns (read: bool, sent: seq<Dispatch>)
    modifies server`errors
    ensures server.errors == old(server.errors) + Failure(read || SubsKey(e).None?)
    ensures SubsKey(e).None? ==> sent == Dispatches(e, ListOf(server.data, e), wanted)
    ensures read ==> sent == Dispatches(e, ListOf(server.data, e), wanted)
    ensures !read ==> sent == []
  {
    sent := [];
    var got := Get(server, e);
    if got.Err? {
      return false, [];
    }
    var subs := got.value;
    for i := 0 to |subs|
      invariant sent == Dispatches(e, subs[..i], wanted) && server.errors == old(server.errors)
    {
      DispatchesSnoc(e, subs, i, wanted);
      if wanted(subs[i]) {
        sent := sent + [Dispatch(e, subs[i])];
      }
    }
    assert subs[..|subs|] == subs;
    read := true;
  }

  datatype User = User(id: UserID, isBot: bool)

  function Everyone(): Subscription -> bool {
    (s: Subscription) => true
  }

  function OwnedBy(member: UserID): Subscription -> bool {
    (s: Subscription) => s.ownerUserID == member
  }

  function OfBot(enabled: map<AppID, App>, member: UserID): Subscription -> bool {
    (s: Subscription) => s.appID in enabled && enabled[s.appID].botUserID == member
  }

  /** The three notifications of a join or leave: specific, "self", and for bots the deprecated one. */
  function Fanout(data: KVData, specific: Event, self: Event, bot: Event, member: UserID, isBot: bool,
      enabled: map<AppID, App>)
    : seq<Dispatch>
  {
    Dispatches(specific, ListOf(data, specific), Everyone()) +
    Dispatches(self, ListOf(data, self), OwnedBy(member)) +
    if isBot then Dispatches(bot, ListOf(data, bot), OfBot(enabled, member)) else []
  }

  /** Which of the three lists could be read; `bot` counts for bots only. */
  datatype Answers = Answers(specific: bool, self: bool, bot: bool)

  function Failures(answers: Answers, isBot: bool): nat {
    Failure(answers.specific) + Failure(answers.self) + if isBot then Failure(answers.bot) else 0
  }

  function Answered(data: KVData, e: Event, wanted: Subscription -> bool, read: bool): seq<Dispatch> {
    if read then Dispatches(e, ListOf(data, e), wanted) else []
  }

  /** A list that cannot be read costs its own notification and neither of the others. */
  function PartialFanout(data: KVData, specific: Event, self: Event, bot: Event, member: UserID, isBot: bool,
      enabled: map<AppID, App>, answers: Answers)
    : seq<Dispatch>
  {
    Answered(data, specific, Everyone(), answers.specific) +
    Answered(data, self, OwnedBy(member), answers.self) +
    if isBot then Answered(data, bot, OfBot(enabled, member), answers.bot) else []
  }

  /** The subject of a member's events, and the deprecated one of a bot's. */
  function ChannelSubjects(joined: bool): (string, string) {
    if joined then (USER_JOINED_CHANNEL, BOT_JOINED_CHANNEL) else (USER_LEFT_CHANNEL, BOT_LEFT_CHANNEL)
  }

  function TeamSubjects(joined: bool): (string, string) {
    if joined then (USER_JOINED_TEAM, BOT_JOINED_TEAM) else (USER_LEFT_TEAM, BOT_LEFT_TEAM)
  }

  function ChannelFanout(data: KVData, channelID: string, joined: bool, member: UserID, isBot: bool,
      enabled: map<AppID, App>)
    : seq<Dispatch>
  {
    var subject, bot := ChannelSubjects(joined).0, ChannelSubjects(joined).1;
    Fanout(data, Event(subject, channelID, ""), Event(subject, "", ""), Event(bot, "", ""), member, isBot, enabled)
  }

  function TeamFanout(data: KVData, teamID: string, joined: bool, member: UserID, isBot: bool, enabled: map<AppID, App>)
    : seq<Dispatch>
  {
    var subject, bot := TeamSubjects(joined).0, TeamSubjects(joined).1;
    Fanout(data, Event(subject, "", teamID), Event(subject, "", ""), Event(bot, "", ""), member, isBot, enabled)
  }

  /** `user` and `channelID` are what the server answers, None when it fails. */
  method NotifyUserChannel(server: Server, member: UserID, joined: bool,
                           user: Option<User>, channelID: Option<string>, enabled: map<AppID, App>)
    returns (sent: seq<Dispatch>, ghost answers: Answers)
    modifies server`errors
    ensures user.None? || channelID.None? ==> sent == [] && server.errors == old(server.errors)
    ensures user.Some? && channelID.Some? ==>
      var subject, bot := ChannelSubjects(joined).0, ChannelSubjects(joined).1;
      && sent == PartialFanout(server.data, Event(subject, channelID.value, ""), Event(subject, "", ""),
        Event(bot, "", ""), member, user.value.isBot, enabled, answers)
      && server.errors == old(server.errors) + Failures(answers, user.value.isBot)
    ensures user.Some? && channelID.Some? && server.errors == old(server.errors) ==>
      sent == ChannelFanout(server.data, channelID.value, joined, member, user.value.isBot, enabled)
  {
    answers := Answers(false, false, false);
    var subject := USER_JOINED_CHANNEL;
    if !joined {
      subject := USER_LEFT_CHANNEL;
    }
    if user.None? {
      return [], answers;
    }
    if channelID.None? {
      return [], answers;
    }
    var read, first := NotifyAll(server, Event(subject, channelID.value, ""), Everyone());
    var readSelf, second := NotifyAll(server, Event(subject, "", ""), OwnedBy(member));
    sent, answers := first + second, Answers(read, readSelf, false);
    if user.value.isBot {
      subject := BOT_JOINED_CHANNEL;
      if !joined {
        subject := BOT_LEFT_CHANNEL;
      }
      var readBot, third := NotifyAll(server, Event(subject, "", ""), OfBot(enabled, member));
      sent, answers := sent + third, answers.(bot := readBot);
    }
  }

  method NotifyUserTeam(server: Server, member: UserID, teamID: string, joined: bool,
                        user: Option<User>, enabled: map<AppID, App>)
    returns (sent: seq<Dispatch>, ghost answers: Answers)
    modifies server`errors
    ensures user.None? ==> sent == [] && server.errors == old(server.errors)
    ensures user.Some? ==>
      var subject, bot := TeamSubjects(joined).0, TeamSubjects(joined).1;
      && sent == PartialFanout(server.data, Event(subject, "", teamID), Event(subject, "", ""),
        Event(bot, "", ""), member, user.value.isBot, enabled, answers)
      && server.errors == old(server.errors) + Failures(answers, user.value.isBot)
    ensures user.Some? && server.errors == old(server.errors) ==>
      sent == TeamFanout(server.data, teamID, joined, member, user.value.isBot, enabled)
  {
    answers := Answers(false, false, false);
    var subject := USER_JOINED_TEAM;
    if !joined {
      subject := USER_LEFT_TEAM;
    }
    if user.None? {
      return [], answers;
    }
    var read, first := NotifyAll(server, Event(subject, "", teamID), Everyone());
    var readSelf, second := NotifyAll(server, Event(subject, "", ""), OwnedBy(member));
    sent, answers := first + second, Answers(read, readSelf, false);
    if user.value.isBot {
      subject := BOT_JOINED_TEAM;
      if !joined {
        subject := BOT_LEFT_TEAM;
      }
      var readBot, third := NotifyAll(server, Event(subject, "", ""), OfBot(enabled, member));
      sent, answers := sent + third, answers.(bot := readBot);
    }
  }

  /** A channel without a team, a direct message, notifies no one. */
  method NotifyChannelCreated(server: Server, teamID: string) returns (sent: seq<Dispatch>)
    modifies server`errors
    ensures server.errors >= old(server.errors)
    ensures teamID == "" || server.errors > old(server.errors) ==> sent == []
    ensures forall d :: d in sent ==> d.event == Event(CHANNEL_CREATED, "", teamID)
    ensures server.errors == old(server.errors) && teamID != "" && SubsInv(server.data) ==> forall s ::
      Dispatch(Event(CHANNEL_CREATED, "", teamID), s) in sent <==>
      Lookup(server.data, Event(CHANNEL_CREATED, "", teamID), s.appID, s.ownerUserID) == Some(s.call)
    ensures SubsInv(server.data) ==> NoDuplicates(sent)
  {
    if teamID == "" {
      return [];
    }
    var read;
    read, sent := NotifyAll(server, Event(CHANNEL_CREATED, "", teamID), Everyone());
    if read && SubsInv(server.data) {
      forall s {
        DispatchedIff(server.data, Event(CHANNEL_CREATED, "", teamID), Everyone(), s);
      }
      ListOfUnique(server.data, Event(CHANNEL_CREATED, "", teamID));
      DispatchesNoDuplicates(Event(CHANNEL_CREATED, "", teamID),
          ListOf(server.data, Event(CHANNEL_CREATED, "", teamID)), Everyone());
    }
    DispatchesOfOneEvent(Event(CHANNEL_CREATED, "", teamID), ListOf(server.data, Event(CHANNEL_CREATED, "", teamID)),
        Everyone());
  }

  // ---------------------------------------------------------------- exactness

  lemma {:induction false} FindMember(subs: seq<Subscription>, s: Subscription)
    requires Unique(subs)
    ensures s in subs <==> Find(subs, s.appID, s.ownerUserID) == Some(s.call)
  {
    if subs != [] {
      FindMember(subs[1..], s);
      FindMember(subs[1..], subs[0]);
      assert s in subs <==> s == subs[0] || s in subs[1..];
    }
  }

  lemma {:induction false} DispatchesOfOneEvent(e: Event, subs: seq<Subscription>, wanted: Subscription -> bool)
    ensures forall d :: d in Dispatches(e, subs, wanted) <==> d.event == e && d.sub in subs && wanted(d.sub)
  {
    if subs != [] {
      DispatchesOfOneEvent(e, subs[1..], wanted);
      assert forall s :: s in subs <==> s == subs[0] || s in subs[1..];
    }
  }

  lemma {:induction false} DispatchesNoDuplicates(e: Event, subs: seq<Subscription>, wanted: Subscription -> bool)
    requires Unique(subs)
    ensures NoDuplicates(Dispatches(e, subs, wanted))
  {
    if subs != [] {
      DispatchesNoDuplicates(e, subs[1..], wanted);
      DispatchesOfOneEvent(e, subs[1..], wanted);
      FindMember(subs[1..], subs[0]);
      assert Dispatch(e, subs[0]) !in Dispatches(e, subs[1..], wanted);
    }
  }

  lemma ListOfUnique(data: KVData, e: Event)
    requires SubsInv(data)
    ensures Unique(ListOf(data, e))
  {
    if SubsKey(e).Some? {
      StoredUnique(data, e);
    }
  }

  /** One notifyAll reaches exactly the matching entries of the subscription map. */
  lemma DispatchedIff(data: KVData, e: Event, wanted: Subscription -> bool, s: Subscription)
    requires SubsInv(data)
    ensures Dispatch(e, s) in Dispatches(e, ListOf(data, e), wanted) <==>
            Lookup(data, e, s.appID, s.ownerUserID) == Some(s.call) && wanted(s)
  {
    ListOfUnique(data, e);
    FindMember(ListOf(data, e), s);
    DispatchesOfOneEvent(e, ListOf(data, e), wanted);
  }

  /** What is subscribed to, and so dispatched, for one of three different events. */
  ghost predicate Selected(data: KVData, specific: Event, self: Event, bot: Event, member: UserID, isBot: bool,
                           enabled: map<AppID, App>, d: Dispatch) {
    && Lookup(data, d.event, d.sub.appID, d.sub.ownerUserID) == Some(d.sub.call)
    && (|| d.event == specific
        || (d.event == self && d.sub.ownerUserID == member)
        || (isBot && d.event == bot && d.sub.appID in enabled && enabled[d.sub.appID].botUserID == member))
  }

  lemma NoDuplicatesConcat<T>(a: seq<T>, b: seq<T>)
    requires NoDuplicates(a) && NoDuplicates(b) && forall x :: x in a ==> x !in b
    ensures NoDuplicates(a + b)
  {
    forall i, j | 0 <= i < j < |a + b|
      ensures (a + b)[i] != (a + b)[j]
    {
      if i < |a| <= j {
        assert a[i] in a && b[j - |a|] in b;
      }
    }
  }

  lemma FanoutMember(data: KVData, specific: Event, self: Event, bot: Event, member: UserID, isBot: bool,
                     enabled: map<AppID, App>, d: Dispatch)
    requires SubsInv(data)
    ensures d in Fanout(data, specific, self, bot, member, isBot, enabled) <==>
            Selected(data, specific, self, bot, member, isBot, enabled, d)
  {
    DispatchedIff(data, specific, Everyone(), d.sub);
    DispatchedIff(data, self, OwnedBy(member), d.sub);
    DispatchedIff(data, bot, OfBot(enabled, member), d.sub);
    DispatchesOfOneEvent(specific, ListOf(data, specific), Everyone());
    DispatchesOfOneEvent(self, ListOf(data, self), OwnedBy(member));
    DispatchesOfOneEvent(bot, ListOf(data, bot), OfBot(enabled, member));
  }

  /** A list that cannot be read costs the dispatches for its own event, and no others. */
  lemma PartialFanoutExact(data: KVData, specific: Event, self: Event, bot: Event, member: UserID, isBot: bool,
                           enabled: map<AppID, App>, answers: Answers, d: Dispatch)
    requires SubsInv(data)
    ensures d in PartialFanout(data, specific, self, bot, member, isBot, enabled, answers) <==>
            && Lookup(data, d.event, d.sub.appID, d.sub.ownerUserID) == Some(d.sub.call)
            && (|| (answers.specific && d.event == specific)
                || (answers.self && d.event == self && d.sub.ownerUserID == member)
                || (isBot && answers.bot && d.event == bot && d.sub.appID in enabled &&
                    enabled[d.sub.appID].botUserID == member))
  {
    DispatchedIff(data, specific, Everyone(), d.sub);
    DispatchedIff(data, self, OwnedBy(member), d.sub);
    DispatchedIff(data, bot, OfBot(enabled, member), d.sub);
    DispatchesOfOneEvent(specific, ListOf(data, specific), Everyone());
    DispatchesOfOneEvent(self, ListOf(data, self), OwnedBy(member));
    DispatchesOfOneEvent(bot, ListOf(data, bot), OfBot(enabled, member));
  }

  lemma FanoutNoDuplicates(data: KVData, specific: Event, self: Event, bot: Event, member: UserID, isBot: bool,
                           enabled: map<AppID, App>)
    requires SubsInv(data) && specific != self && specific != bot && self != bot
    ensures NoDuplicates(Fanout(data, specific, self, bot, member, isBot, enabled))
  {
    var first := Dispatches(specific, ListOf(data, specific), Everyone());
    var second := Dispatches(self, ListOf(data, self), OwnedBy(member));
    var third := Dispatches(bot, ListOf(data, bot), OfBot(enabled, member));
    DispatchesOfOneEvent(specific, ListOf(data, specific), Everyone());
    DispatchesOfOneEvent(self, ListOf(data, self), OwnedBy(member));
    DispatchesOfOneEvent(bot, ListOf(data, bot), OfBot(enabled, member));
    ListOfUnique(data, specific);
    ListOfUnique(data, self);
    ListOfUnique(data, bot);
    DispatchesNoDuplicates(specific, ListOf(data, specific), Everyone());
    DispatchesNoDuplicates(self, ListOf(data, self), OwnedBy(member));
    DispatchesNoDuplicates(bot, ListOf(data, bot), OfBot(enabled, member));
    NoDuplicatesConcat(first, second);
    forall x | x in first + second ensures x !in third {
      assert x in first || x in second;
    }
    NoDuplicatesConcat(first + second, third);
  }

  ghost predicate NoneOwned(data: KVData, e: Event, owner: UserID) {
    forall appID :: Lookup(data, e, appID, owner) == None
  }

  lemma NothingForMember(data: KVData, e: Event, member: UserID)
    requires SubsInv(data) && NoneOwned(data, e, member)
    ensures Dispatches(e, ListOf(data, e), OwnedBy(member)) == []
  {
    var sent := Dispatches(e, ListOf(data, e), OwnedBy(member));
    DispatchesOfOneEvent(e, ListOf(data, e), OwnedBy(member));
    if sent != [] {
      assert sent[0] in sent;
      DispatchedIff(data, e, OwnedBy(member), sent[0].sub);
    }
  }

  lemma OwnedRepeats(first: seq<Dispatch>, second: seq<Dispatch>, third: seq<Dispatch>, d: Dispatch)
    requires d in first && d in second
    ensures !NoDuplicates(first + second + third)
  {
    var i :| 0 <= i < |first| && first[i] == d;
    var j :| 0 <= j < |second| && second[j] == d;
    var all := first + second + third;
    assert all[i] == d && all[|first| + j] == d;
  }

  lemma OnlyOneEach(data: KVData, self: Event, bot: Event, member: UserID, isBot: bool, enabled: map<AppID, App>)
    requires SubsInv(data) && self != bot && NoneOwned(data, self, member)
    ensures NoDuplicates(Fanout(data, self, self, bot, member, isBot, enabled))
  {
    var first := Dispatches(self, ListOf(data, self), Everyone());
    var third := if isBot then Dispatches(bot, ListOf(data, bot), OfBot(enabled, member)) else [];
    NothingForMember(data, self, member);
    DispatchesOfOneEvent(self, ListOf(data, self), Everyone());
    DispatchesOfOneEvent(bot, ListOf(data, bot), OfBot(enabled, member));
    ListOfUnique(data, self);
    ListOfUnique(data, bot);
    DispatchesNoDuplicates(self, ListOf(data, self), Everyone());
    DispatchesNoDuplicates(bot, ListOf(data, bot), OfBot(enabled, member));
    NoDuplicatesConcat(first, third);
    assert first + [] + third == first + third;
  }

  /**
    With the unscoped event in place of the specific one, the member's own unscoped subscriptions are
    dispatched twice; nothing else is.
   */
  lemma SameEventRepeats(data: KVData, self: Event, bot: Event, member: UserID, isBot: bool, enabled: map<AppID, App>)
    requires SubsInv(data) && self != bot
    ensures NoDuplicates(Fanout(data, self, self, bot, member, isBot, enabled)) <==> NoneOwned(data, self, member)
  {
    if appID :| Lookup(data, self, appID, member) != None {
      var s := Subscription(Lookup(data, self, appID, member).value, appID, member);
      DispatchedIff(data, self, Everyone(), s);
      DispatchedIff(data, self, OwnedBy(member), s);
      var first := Dispatches(self, ListOf(data, self), Everyone());
      var second := Dispatches(self, ListOf(data, self), OwnedBy(member));
      var third := if isBot then Dispatches(bot, ListOf(data, bot), OfBot(enabled, member)) else [];
      OwnedRepeats(first, second, third, Dispatch(self, s));
    } else {
      OnlyOneEach(data, self, bot, member, isBot, enabled);
    }
  }

  /**
    Exact fan-out of a channel join or leave: a subscription is dispatched if and only if it is for
    this channel, or unscoped and owned by the member, or a deprecated bot one of an enabled app whose
    bot is the member. Each is dispatched once, unless the channel has no ID.
   */
  lemma ChannelFanoutExact(data: KVData, channelID: string, joined: bool, member: UserID, isBot: bool,
                           enabled: map<AppID, App>, d: Dispatch)
    requires SubsInv(data)
    ensures var subject := if joined then USER_JOINED_CHANNEL else USER_LEFT_CHANNEL;
            var bot := if joined then BOT_JOINED_CHANNEL else BOT_LEFT_CHANNEL;
            d in ChannelFanout(data, channelID, joined, member, isBot, enabled) <==>
            Selected(data, Event(subject, channelID, ""), Event(subject, "", ""), Event(bot, "", ""), member, isBot,
                enabled, d)
    ensures NoDuplicates(ChannelFanout(data, channelID, joined, member, isBot, enabled)) <==>
            channelID != "" ||
            NoneOwned(data, Event(if joined then USER_JOINED_CHANNEL else USER_LEFT_CHANNEL, "", ""), member)
  {
    var subject, bot := ChannelSubjects(joined).0, ChannelSubjects(joined).1;
    assert subject[0] == 'u' && bot[0] == 'b';
    FanoutMember(data, Event(subject, channelID, ""), Event(subject, "", ""), Event(bot, "", ""), member, isBot,
        enabled, d);
    if channelID != "" {
      FanoutNoDuplicates(data, Event(subject, channelID, ""), Event(subject, "", ""), Event(bot, "", ""), member,
          isBot, enabled);
    } else {
      SameEventRepeats(data, Event(subject, "", ""), Event(bot, "", ""), member, isBot, enabled);
    }
  }

  /** The same for teams. */
  lemma TeamFanoutExact(data: KVData, teamID: string, joined: bool, member: UserID, isBot: bool,
                        enabled: map<AppID, App>, d: Dispatch)
    requires SubsInv(data)
    ensures var subject := if joined then USER_JOINED_TEAM else USER_LEFT_TEAM;
            var bot := if joined then BOT_JOINED_TEAM else BOT_LEFT_TEAM;
            d in TeamFanout(data, teamID, joined, member, isBot, enabled) <==>
            Selected(data, Event(subject, "", teamID), Event(subject, "", ""), Event(bot, "", ""), member, isBot,
                enabled, d)
    ensures NoDuplicates(TeamFanout(data, teamID, joined, member, isBot, enabled)) <==>
            teamID != "" ||
            NoneOwned(data, Event(if joined then USER_JOINED_TEAM else USER_LEFT_TEAM, "", ""), member)
  {
    var subject, bot := TeamSubjects(joined).0, TeamSubjects(joined).1;
    assert subject[0] == 'u' && bot[0] == 'b';
    FanoutMember(data, Event(subject, "", teamID), Event(subject, "", ""), Event(bot, "", ""), member, isBot,
        enabled, d);
    if teamID != "" {
      FanoutNoDuplicates(data, Event(subject, "", teamID), Event(subject, "", ""), Event(bot, "", ""), member, isBot,
          enabled);
    } else {
      SameEventRepeats(data, Event(subject, "", ""), Event(bot, "", ""), member, isBot, enabled);
    }
  }
}
