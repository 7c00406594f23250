/**
  Where everything in an expanded context comes from (server/proxy/expand.go:90-420,
  server/proxy/expand_getter.go, apps/expand.go): said on the levels asked for, the IDs that came with
  the request, and the server's answers.
 */
module ExpansionSources {
  import opened Wrappers
  import opened Expansion

  // ---------------------------------------------------------------- what is asked for

  /** How a level is written; with a plus sign it is required. */
  function Word(required: bool, level: Level): string {
    match level
    case NoLevel => if required then "+" else ""
    case ID => if required then "+id" else "id"
    case Summary => if required then "+summary" else "summary"
    case All => if required then "+all" else "all"
  }

  /** Only these words can be parsed, and each as what it says. */
  lemma LevelTexts(raw: string, required: bool, level: Level)
    ensures ParseExpandLevel(raw) == Some(Parsed(required, level)) <==> raw == Word(required, level)
  {
    var plain := Word(false, level);
    assert Word(true, level) == "+" + plain && ("+" + plain)[1..] == plain;
    if IsRequired(raw) {
      assert raw == "+" + raw[1..];
    }
  }

  lemma ParsedText(raw: string)
    ensures match ParseExpandLevel(raw)
            case Some(p) => raw == Word(p.required, p.level)
            case None => forall required, level :: raw != Word(required, level)
  {
    match ParseExpandLevel(raw)
    case Some(p) => LevelTexts(raw, p.required, p.level);
    case None =>
      forall required, level ensures raw != Word(required, level) {
        LevelTexts(raw, required, level);
      }
  }

  /** Which words ask for which fields. */
  lemma WantedTexts(levels: Levels, f: Field)
    ensures Wanted(levels, f) <==>
            if f in {ActingUserAccessTokenField, OAuth2AppField, OAuth2UserField} then levels(f) in {"all", "+all"}
            else if f == AppField then levels(f) in {"summary", "+summary", "all", "+all"}
            else levels(f) in {"id", "+id", "summary", "+summary", "all", "+all"}
    ensures Wanted(levels, f) ==> levels(f) in {Word(false, LevelOf(levels, f)), Word(true, LevelOf(levels, f))}
    ensures Obliged(levels, f) <==> Wanted(levels, f) && levels(f)[0] == '+'
  {
    HasLevelIff(levels(f), ID);
    HasLevelIff(levels(f), Summary);
    HasLevelIff(levels(f), All);
    ParsedText(levels(f));
  }

  predicate HasLevel(raw: string, level: Level) {
    ParseExpandLevel(raw).Some? && ParseExpandLevel(raw).value.level == level
  }

  lemma HasLevelIff(raw: string, level: Level)
    ensures HasLevel(raw, level) <==> raw == Word(false, level) || raw == Word(true, level)
  {
    LevelTexts(raw, false, level);
    LevelTexts(raw, true, level);
  }

  // ---------------------------------------------------------------- who asks the server

  /**
    The answers are those given to the plugin for special and builtin apps, otherwise to the acting
    user's session if the app may act as the user, and only then to the bot's.
   */
  lemma GetterTexts(env: Env, special: bool, g: Getter)
    ensures GetterFor(env, special) == Some(g) <==>
            if special then g == SpecialGetter
            else
              && env.destination.Some?
              && var app := env.destination.value;
                 if app.builtin then g == RPCGetter
                 else
                   && g.HTTPGetter?
                   && Some(g.token) == (if app.actAsUser && env.actingUserID != "" then env.userSession
                                        else if app.actAsBot then env.botSession
                                        else None)
  {
  }

  // ---------------------------------------------------------------- what is kept of an answer

  /** At every level the ID; the locale from "summary" on, the details at "all"; never the authentication data. */
  predicate UserShown(shown: User, answer: User, level: Level) {
    && shown.id == answer.id && shown.authData == ""
    && shown.locale == (if level == ID then "" else answer.locale)
    && shown.summary == (if level == ID then "" else answer.summary)
    && shown.details == (if level == All then answer.details else "")
  }

  predicate ChannelShown(shown: Channel, answer: Channel, level: Level) {
    && shown.id == answer.id && shown.teamID == answer.teamID
    && shown.kind == (if level == ID then "" else answer.kind)
    && shown.summary == (if level == ID then "" else answer.summary)
    && shown.details == (if level == All then answer.details else "")
  }

  /** At level "id" not even the channel is kept. */
  predicate PostShown(shown: Post, answer: Post, level: Level) {
    && shown.id == answer.id
    && shown.channelID == (if level == ID then "" else answer.channelID)
    && shown.summary == (if level == ID then "" else answer.summary)
    && shown.details == (if level == All then answer.details else "")
  }

  /** The invitation is never passed on. */
  predicate TeamShown(shown: Team, answer: Team, level: Level) {
    && shown.id == answer.id && shown.inviteID == ""
    && shown.summary == (if level == ID then "" else answer.summary)
    && shown.details == (if level == All then answer.details else "")
  }

  /** The webhook secret is passed on exactly at "all", and only for the privileged. */
  predicate AppShown(shown: App, app: App, level: Level, privileged: bool) {
    && shown.appID == app.appID && shown.summary == app.summary && shown.botUserID == app.botUserID
    && shown.deployType == (if level == All then app.deployType else "")
    && shown.webhookSecret == (if level == All && privileged then app.webhookSecret else "")
    && shown.remoteOAuth2 == ""
    && !shown.builtin && !shown.actAsUser && !shown.actAsBot && !shown.usesRemoteOAuth2
  }

  // ---------------------------------------------------------------- field by field

  lemma WantedHasGetter(i: Inputs, f: Field)
    requires NoErrorTo(i, 13)
    ensures Wanted(i.levels, f) ==> i.Getter().Some?
  {
    NoErrorAt(i, f);
  }

  /** The acting user is the one of the request. */
  lemma ActingUserSources(i: Inputs, c: ExpandedContext)
    requires Succeeded(i, c)
    ensures c.actingUser.Some? <==>
            && Wanted(i.levels, ActingUserField) && i.Getter().Some? && i.env.actingUserID != ""
            && i.env.getUser(i.Getter().value, i.env.actingUserID).Some?
    ensures c.actingUser.Some? ==>
              UserShown(c.actingUser.value, i.env.getUser(i.Getter().value, i.env.actingUserID).value,
                  LevelOf(i.levels, ActingUserField))
  {
    PartAt(i, c, ActingUserField);
  }

  /** The user is the one of the user agent. */
  lemma UserSources(i: Inputs, c: ExpandedContext)
    requires Succeeded(i, c)
    ensures c.user.Some? <==>
            && Wanted(i.levels, UserField) && i.Getter().Some? && i.ua.userID != ""
            && i.env.getUser(i.Getter().value, i.ua.userID).Some?
    ensures c.user.Some? ==>
              UserShown(c.user.value, i.env.getUser(i.Getter().value, i.ua.userID).value, LevelOf(i.levels, UserField))
  {
    PartAt(i, c, UserField);
  }

  lemma PostSources(i: Inputs, c: ExpandedContext)
    requires Succeeded(i, c)
    ensures c.post.Some? <==>
            && Wanted(i.levels, PostField) && i.Getter().Some? && i.ua.postID != ""
            && i.env.getPost(i.Getter().value, i.ua.postID).Some?
    ensures c.post.Some? ==>
              PostShown(c.post.value, i.env.getPost(i.Getter().value, i.ua.postID).value, LevelOf(i.levels, PostField))
  {
    PartAt(i, c, PostField);
  }

  /** The root post by the root's ID. */
  lemma RootPostSources(i: Inputs, c: ExpandedContext)
    requires Succeeded(i, c)
    ensures c.rootPost.Some? <==>
            && Wanted(i.levels, RootPostField) && i.Getter().Some? && i.ua.rootPostID != ""
            && i.env.getPost(i.Getter().value, i.ua.rootPostID).Some?
    ensures c.rootPost.Some? ==>
              PostShown(c.rootPost.value, i.env.getPost(i.Getter().value, i.ua.rootPostID).value,
                  LevelOf(i.levels, RootPostField))
  {
    PartAt(i, c, RootPostField);
  }

  /** Channel and team of the user agent; unreadable ones are filled in at level "id". */
  lemma ChannelSources(i: Inputs, c: ExpandedContext)
    requires Succeeded(i, c)
    ensures c.channel.Some? <==>
            && Wanted(i.levels, ChannelField) && i.Getter().Some? && i.ua.channelID != ""
            && (i.env.getChannel(i.Getter().value, i.ua.channelID).Some? || LevelOf(i.levels, ChannelField) == ID)
    ensures c.channel.Some? ==>
              match i.env.getChannel(i.Getter().value, i.ua.channelID)
              case Some(answer) => ChannelShown(c.channel.value, answer, LevelOf(i.levels, ChannelField))
              case None => c.channel.value == Channel(i.ua.channelID, i.ua.teamID, "", "", "")
  {
    PartAt(i, c, ChannelField);
    WantedHasGetter(i, ChannelField);
  }

  lemma TeamSources(i: Inputs, c: ExpandedContext)
    requires Succeeded(i, c)
    ensures c.team.Some? <==>
            && Wanted(i.levels, TeamField) && i.Getter().Some? && i.ua.teamID != ""
            && (i.env.getTeam(i.Getter().value, i.ua.teamID).Some? || LevelOf(i.levels, TeamField) == ID)
    ensures c.team.Some? ==>
              match i.env.getTeam(i.Getter().value, i.ua.teamID)
              case Some(answer) => TeamShown(c.team.value, answer, LevelOf(i.levels, TeamField))
              case None => c.team.value == Team(i.ua.teamID, "", "", "")
  {
    PartAt(i, c, TeamField);
    WantedHasGetter(i, TeamField);
  }

  /** Whose memberships: the user agent's user, or for want of one the acting user. */
  predicate IsMember(i: Inputs, id: string) {
    id != "" && (id == i.ua.userID || (i.ua.userID == "" && id == i.env.actingUserID))
  }

  /** Both memberships, of that user in the channel and the team of the user agent. */
  lemma MembershipSources(i: Inputs, c: ExpandedContext, id: string)
    requires Succeeded(i, c) && IsMember(i, id)
    ensures c.channelMember.Some? <==>
            && Wanted(i.levels, ChannelMemberField) && i.Getter().Some? && i.ua.channelID != ""
            && i.env.getChannelMember(i.Getter().value, i.ua.channelID, id).Some?
    ensures c.channelMember.Some? ==>
              var shown := c.channelMember.value;
              var answer := i.env.getChannelMember(i.Getter().value, i.ua.channelID, id).value;
              && shown.channelID == answer.channelID && shown.userID == answer.userID
              && shown.rest == if LevelOf(i.levels, ChannelMemberField) == ID then "" else answer.rest
    ensures c.teamMember.Some? <==>
            && Wanted(i.levels, TeamMemberField) && i.Getter().Some? && i.ua.teamID != ""
            && i.env.getTeamMember(i.Getter().value, i.ua.teamID, id).Some?
    ensures c.teamMember.Some? ==>
              var shown := c.teamMember.value;
              var answer := i.env.getTeamMember(i.Getter().value, i.ua.teamID, id).value;
              && shown.teamID == answer.teamID && shown.userID == answer.userID
              && shown.rest == if LevelOf(i.levels, TeamMemberField) == ID then "" else answer.rest
  {
    PartAt(i, c, ChannelMemberField);
    PartAt(i, c, TeamMemberField);
  }

  lemma NobodyIsNoMember(i: Inputs, c: ExpandedContext)
    requires Succeeded(i, c) && i.ua.userID == "" && i.env.actingUserID == ""
    ensures c.channelMember.None? && c.teamMember.None?
  {
    PartAt(i, c, ChannelMemberField);
    PartAt(i, c, TeamMemberField);
  }

  /** The app itself, the acting user's token, and the locale. */
  lemma AppSources(i: Inputs, c: ExpandedContext)
    requires Succeeded(i, c)
    ensures c.app.Some? <==> Wanted(i.levels, AppField)
    ensures c.app.Some? ==> AppShown(c.app.value, i.app, LevelOf(i.levels, AppField), i.env.privileged)
    ensures c.actingUserAccessToken ==
            if Wanted(i.levels, ActingUserAccessTokenField) && i.app.actAsUser then i.env.userSession else None
  {
    PartAt(i, c, AppField);
    PartAt(i, c, ActingUserAccessTokenField);
    WantedHasGetter(i, AppField);
    WantedHasGetter(i, ActingUserAccessTokenField);
  }

  /** Asked for, the locale is the user's if there is one, else the server's, else English. */
  lemma LocaleSources(i: Inputs, c: ExpandedContext)
    requires Succeeded(i, c)
    ensures c.locale.Some? <==> Wanted(i.levels, LocaleField)
    ensures c.locale.Some? ==>
              var user := if c.actingUser.Some? then c.actingUser else i.env.localeUser;
              c.locale.value ==
              if user.Some? && user.value.locale != "" then user.value.locale
              else if i.env.defaultLocale != "" then i.env.defaultLocale else "en"
  {
    PartAt(i, c, LocaleField);
    WantedHasGetter(i, LocaleField);
  }

  /** OAuth2: the destination app's configuration with the two URLs, and the acting user's data if there are any. */
  lemma OAuth2Sources(i: Inputs, c: ExpandedContext)
    requires Succeeded(i, c)
    ensures c.oauth2App.Some? <==>
            && Wanted(i.levels, OAuth2AppField)
            && i.env.destination.Some? && i.env.destination.value.usesRemoteOAuth2
    ensures c.oauth2App.Some? ==>
              && c.oauth2App.value.app == i.env.destination.value.remoteOAuth2
              && c.oauth2App.value.connectURL == i.env.url + "/oauth2/remote/connect"
              && c.oauth2App.value.completeURL == i.env.url + "/oauth2/remote/complete"
    ensures c.oauth2User.Some? <==>
            && Wanted(i.levels, OAuth2UserField) && i.env.actingUserID != ""
            && i.env.destination.Some? && i.env.destination.value.usesRemoteOAuth2
            && i.env.oauth2Data.Some? && i.env.oauth2Data.value !in {"", "{}"}
            && i.env.decode(i.env.oauth2Data.value).Some?
    ensures c.oauth2User.Some? ==> c.oauth2User == i.env.decode(i.env.oauth2Data.value)
  {
    PartAt(i, c, OAuth2AppField);
    PartAt(i, c, OAuth2UserField);
    WantedHasGetter(i, OAuth2AppField);
    WantedHasGetter(i, OAuth2UserField);
  }

  // ---------------------------------------------------------------- when a required field fails

  /** What a field needs to come to anything, or for oauth2_user to come to nothing without an error. */
  predicate Available(i: Inputs, g: Getter, f: Field) {
    var member := if i.ua.userID == "" then i.env.actingUserID else i.ua.userID;
    match f
    case ActingUserAccessTokenField => i.app.actAsUser && i.env.userSession.Some?
    case ActingUserField => i.env.actingUserID != "" && i.env.getUser(g, i.env.actingUserID).Some?
    case UserField => i.ua.userID != "" && i.env.getUser(g, i.ua.userID).Some?
    case AppField => true
    case LocaleField => true
    case ChannelMemberField =>
      member != "" && i.ua.channelID != "" && i.env.getChannelMember(g, i.ua.channelID, member).Some?
    case TeamMemberField => member != "" && i.ua.teamID != "" && i.env.getTeamMember(g, i.ua.teamID, member).Some?
    case ChannelField =>
      i.ua.channelID != "" && (LevelOf(i.levels, f) == ID || i.env.getChannel(g, i.ua.channelID).Some?)
    case TeamField => i.ua.teamID != "" && (LevelOf(i.levels, f) == ID || i.env.getTeam(g, i.ua.teamID).Some?)
    case PostField => i.ua.postID != "" && i.env.getPost(g, i.ua.postID).Some?
    case RootPostField => i.ua.rootPostID != "" && i.env.getPost(g, i.ua.rootPostID).Some?
    case OAuth2AppField => i.env.destination.Some? && i.env.destination.value.usesRemoteOAuth2
    case OAuth2UserField =>
      && i.env.actingUserID != "" && i.env.destination.Some? && i.env.destination.value.usesRemoteOAuth2
      && i.env.oauth2Data.Some?
      && (i.env.oauth2Data.value in {"", "{}"} || i.env.decode(i.env.oauth2Data.value).Some?)
  }

  /** No step ends the expansion: levels can be parsed, what is asked for has a getter, what is required is there. */
  predicate Undisturbed(i: Inputs, f: Field) {
    && i.levels(f) in {"", "+", "id", "+id", "summary", "+summary", "all", "+all"}
    && (Wanted(i.levels, f) ==> i.Getter().Some?)
    && (Wanted(i.levels, f) && i.levels(f)[0] == '+' ==> Available(i, i.Getter().value, f))
  }

  lemma AvailableIff(i: Inputs, f: Field)
    requires Wanted(i.levels, f) && i.Getter().Some?
    ensures i.FetchField(None, f) != Failed <==> Available(i, i.Getter().value, f)
  {
  }

  lemma ParsesIff(raw: string)
    ensures ParseExpandLevel(raw).Some? <==> raw in {"", "+", "id", "+id", "summary", "+summary", "all", "+all"}
  {
    ParsedText(raw);
    HasLevelIff(raw, NoLevel);
    HasLevelIff(raw, ID);
    HasLevelIff(raw, Summary);
    HasLevelIff(raw, All);
  }

  lemma FieldUndisturbed(i: Inputs, f: Field)
    ensures Undisturbed(i, f) <==>
            && ParseExpandLevel(i.levels(f)).Some?
            && (Wanted(i.levels, f) ==> i.Getter().Some?)
            && (Obliged(i.levels, f) ==> i.FetchField(None, f) != Failed)
  {
    ParsesIff(i.levels(f));
    WantedTexts(i.levels, f);
    if Wanted(i.levels, f) && i.Getter().Some? {
      AvailableIff(i, f);
    }
  }

  /** Exactly when expanding fails at no step, said without the steps. */
  lemma NoErrorIff(i: Inputs)
    ensures NoErrorTo(i, 13) <==> forall f :: Undisturbed(i, f)
  {
    forall f ensures Index(f) < 13 {}
    forall f ensures Undisturbed(i, f) <==>
            && ParseExpandLevel(i.levels(f)).Some?
            && (Wanted(i.levels, f) ==> i.Getter().Some?)
            && (Obliged(i.levels, f) ==> i.FetchField(None, f) != Failed)
    {
      FieldUndisturbed(i, f);
    }
  }
}
