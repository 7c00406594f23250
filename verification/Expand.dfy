/**
  Expanding the context of a call (server/proxy/expand.go, apps/expand.go): thirteen steps, each of
  which may fill one field of the context, then a check of the fields against each other.
 */
module Expansion {
  import opened Wrappers

  // ---------------------------------------------------------------- levels

  datatype Level = NoLevel | ID | Summary | All

  predicate IsRequired(raw: string) {
    raw != "" && raw[0] == '+'
  }

  function Required(raw: string): string {
    if IsRequired(raw) then raw else "+" + raw
  }

  function LevelNamed(name: string): Option<Level> {
    if name == "" then Some(NoLevel)
    else if name == "id" then Some(ID)
    else if name == "summary" then Some(Summary)
    else if name == "all" then Some(All)
    else None
  }

  datatype Parsed = Parsed(required: bool, level: Level)

  function ParseExpandLevel(raw: string): Option<Parsed> {
    var level := LevelNamed(if IsRequired(raw) then raw[1..] else raw);
    if level.Some? then Some(Parsed(IsRequired(raw), level.value)) else None
  }

  /** Required makes a level required and changes nothing else; levels it cannot parse stay so. */
  lemma RequiredKeepsLevel(raw: string)
    ensures ParseExpandLevel(Required(raw)) ==
            match ParseExpandLevel(raw)
            case Some(p) => Some(Parsed(true, p.level))
            case None => None
  {
    assert ("+" + raw)[1..] == raw;
  }

  // ---------------------------------------------------------------- entities

  datatype User = User(id: string, locale: string, summary: string, details: string, authData: string)
  datatype Channel = Channel(id: string, teamID: string, kind: string, summary: string, details: string)
  datatype ChannelMember = ChannelMember(channelID: string, userID: string, rest: string)
  datatype Team = Team(id: string, summary: string, details: string, inviteID: string)
  datatype TeamMember = TeamMember(teamID: string, userID: string, rest: string)
  datatype Post = Post(id: string, channelID: string, summary: string, details: string)
  datatype App = App(
    appID: string, summary: string, deployType: string, webhookSecret: string, botUserID: string, remoteOAuth2: string,
    builtin: bool, actAsUser: bool, actAsBot: bool, usesRemoteOAuth2: bool)

  const DIRECT := "D"
  const GROUP := "G"

  function StripUser(u: User, level: Level): Option<User> {
    match level
    case ID => Some(User(u.id, "", "", "", ""))
    case Summary => Some(u.(details := "", authData := ""))
    case All => Some(u.(authData := ""))
    case NoLevel => None
  }

  function StripChannel(c: Channel, level: Level): Option<Channel> {
    match level
    case ID => Some(Channel(c.id, c.teamID, "", "", ""))
    case Summary => Some(c.(details := ""))
    case All => Some(c)
    case NoLevel => None
  }

  function StripChannelMember(m: ChannelMember, level: Level): Option<ChannelMember> {
    match level
    case ID => Some(m.(rest := ""))
    case Summary => Some(m)
    case All => Some(m)
    case NoLevel => None
  }

  function StripTeam(t: Team, level: Level): Option<Team> {
    match level
    case ID => Some(Team(t.id, "", "", ""))
    case Summary => Some(t.(details := "", inviteID := ""))
    case All => Some(t.(inviteID := ""))
    case NoLevel => None
  }

  function StripTeamMember(m: TeamMember, level: Level): Option<TeamMember> {
    match level
    case ID => Some(m.(rest := ""))
    case Summary => Some(m)
    case All => Some(m)
    case NoLevel => None
  }

  function StripPost(p: Post, level: Level): Option<Post> {
    match level
    case ID => Some(Post(p.id, "", "", ""))
    case Summary => Some(p.(details := ""))
    case All => Some(p)
    case NoLevel => None
  }

  function StripApp(a: App, level: Level): Option<App> {
    match level
    case Summary => Some(App(a.appID, a.summary, "", "", a.botUserID, "", false, false, false, false))
    case All => Some(App(a.appID, a.summary, a.deployType, a.webhookSecret, a.botUserID, "", false, false, false,
        false))
    case _ => None
  }

  // ---------------------------------------------------------------- the context

  datatype UserAgentContext = UserAgentContext(
    channelID: string, teamID: string, postID: string, rootPostID: string, userID: string, appID: string,
    location: string, userAgent: string, trackAsSubmit: bool)

  datatype OAuth2Config = OAuth2Config(app: string, connectURL: string, completeURL: string)

  datatype ExpandedContext = ExpandedContext(
    botUserID: string, botAccessToken: string,
    actingUserAccessToken: Option<string>, actingUser: Option<User>, app: Option<App>,
    channelMember: Option<ChannelMember>, channel: Option<Channel>, locale: Option<string>,
    oauth2App: Option<OAuth2Config>, oauth2User: Option<string>, post: Option<Post>, rootPost: Option<Post>,
    teamMember: Option<TeamMember>, team: Option<Team>, user: Option<User>)

  /** The expandable fields, in the order of the steps. */
  datatype Field =
    | ActingUserAccessTokenField | ActingUserField | AppField | ChannelMemberField | ChannelField | LocaleField
    | OAuth2AppField | OAuth2UserField | PostField | RootPostField | TeamMemberField | TeamField | UserField

  const STEPS := [
    ActingUserAccessTokenField, ActingUserField, AppField, ChannelMemberField, ChannelField, LocaleField,
    OAuth2AppField, OAuth2UserField, PostField, RootPostField, TeamMemberField, TeamField, UserField]

  function Index(f: Field): nat {
    match f
    case ActingUserAccessTokenField => 0
    case ActingUserField => 1
    case AppField => 2
    case ChannelMemberField => 3
    case ChannelField => 4
    case LocaleField => 5
    case OAuth2AppField => 6
    case OAuth2UserField => 7
    case PostField => 8
    case RootPostField => 9
    case TeamMemberField => 10
    case TeamField => 11
    case UserField => 12
  }

  function ExpandableAs(f: Field): set<Level> {
    match f
    case ActingUserAccessTokenField => {All}
    case OAuth2AppField => {All}
    case OAuth2UserField => {All}
    case AppField => {Summary, All}
    case _ => {ID, Summary, All}
  }

  /** What one field holds. */
  datatype Piece =
    | Text(text: string) | UserPiece(user: User) | AppPiece(app: App) | ChannelMemberPiece(channelMember: ChannelMember)
    | ChannelPiece(channel: Channel) | OAuth2Piece(config: OAuth2Config) | PostPiece(post: Post)
    | TeamMemberPiece(teamMember: TeamMember) | TeamPiece(team: Team)

  function Part(c: ExpandedContext, f: Field): Option<Piece> {
    match f
    case ActingUserAccessTokenField =>
      if c.actingUserAccessToken.Some? then Some(Text(c.actingUserAccessToken.value)) else None
    case ActingUserField => if c.actingUser.Some? then Some(UserPiece(c.actingUser.value)) else None
    case AppField => if c.app.Some? then Some(AppPiece(c.app.value)) else None
    case ChannelMemberField => if c.channelMember.Some? then Some(ChannelMemberPiece(c.channelMember.value)) else None
    case ChannelField => if c.channel.Some? then Some(ChannelPiece(c.channel.value)) else None
    case LocaleField => if c.locale.Some? then Some(Text(c.locale.value)) else None
    case OAuth2AppField => if c.oauth2App.Some? then Some(OAuth2Piece(c.oauth2App.value)) else None
    case OAuth2UserField => if c.oauth2User.Some? then Some(Text(c.oauth2User.value)) else None
    case PostField => if c.post.Some? then Some(PostPiece(c.post.value)) else None
    case RootPostField => if c.rootPost.Some? then Some(PostPiece(c.rootPost.value)) else None
    case TeamMemberField => if c.teamMember.Some? then Some(TeamMemberPiece(c.teamMember.value)) else None
    case TeamField => if c.team.Some? then Some(TeamPiece(c.team.value)) else None
    case UserField => if c.user.Some? then Some(UserPiece(c.user.value)) else None
  }

  // ---------------------------------------------------------------- what the server would answer

  datatype Getter = SpecialGetter | RPCGetter | HTTPGetter(token: string)

  /** Everything outside: the server's answers through each kind of getter, sessions, the destination app. */
  datatype Env = Env(
    getUser: (Getter, string) -> Option<User>,
    getChannel: (Getter, string) -> Option<Channel>,
    getChannelMember: (Getter, string, string) -> Option<ChannelMember>,
    getTeam: (Getter, string) -> Option<Team>,
    getTeamMember: (Getter, string, string) -> Option<TeamMember>,
    getPost: (Getter, string) -> Option<Post>,
    botSession: Option<string>, userSession: Option<string>, destination: Option<App>,
    oauth2Data: Option<string>, decode: string -> Option<string>,
    actingUserID: string, privileged: bool, localeUser: Option<User>, defaultLocale: string, url: string)

  const CONNECT := "/oauth2/remote/connect"
  const COMPLETE := "/oauth2/remote/complete"

  /** utils.GetLocaleWithUser; the server's default is never empty, "en" in the last resort. */
  function LocaleOf(env: Env, u: Option<User>): string {
    if u.Some? && u.value.locale != "" then u.value.locale
    else if env.defaultLocale != "" then env.defaultLocale
    else "en"
  }

  /** What a step comes to: a value, nothing although no error is reported, or an error. */
  datatype Fetched = Got(piece: Piece) | NoData | Failed

  function FetchUser(env: Env, g: Getter, userID: string, level: Level): Fetched {
    if userID == "" || env.getUser(g, userID).None? then Failed
    else match StripUser(env.getUser(g, userID).value, level) case Some(u) => Got(UserPiece(u)) case None => NoData
  }

  function FetchPost(env: Env, g: Getter, postID: string, level: Level): Fetched {
    if postID == "" || env.getPost(g, postID).None? then Failed
    else match StripPost(env.getPost(g, postID).value, level) case Some(p) => Got(PostPiece(p)) case None => NoData
  }

  /** The member a membership is expanded for. */
  function MemberID(env: Env, ua: UserAgentContext): string {
    if ua.userID == "" then env.actingUserID else ua.userID
  }

  function FetchChannelMember(env: Env, g: Getter, ua: UserAgentContext, level: Level): Fetched {
    var id := MemberID(env, ua);
    if id == "" || ua.channelID == "" || env.getChannelMember(g, ua.channelID, id).None? then Failed
    else
      match StripChannelMember(env.getChannelMember(g, ua.channelID, id).value, level)
      case Some(m) => Got(ChannelMemberPiece(m))
      case None => NoData
  }

  function FetchTeamMember(env: Env, g: Getter, ua: UserAgentContext, level: Level): Fetched {
    var id := MemberID(env, ua);
    if id == "" || ua.teamID == "" || env.getTeamMember(g, ua.teamID, id).None? then Failed
    else
      match StripTeamMember(env.getTeamMember(g, ua.teamID, id).value, level)
      case Some(m) => Got(TeamMemberPiece(m))
      case None => NoData
  }

  /** At level "id" a channel or team that cannot be read is filled in from the user agent's IDs. */
  function FetchChannel(env: Env, g: Getter, ua: UserAgentContext, level: Level): Fetched {
    if ua.channelID == "" then Failed
    else
      match env.getChannel(g, ua.channelID)
      case None => if level == ID then Got(ChannelPiece(Channel(ua.channelID, ua.teamID, "", "", ""))) else Failed
      case Some(c) => match StripChannel(c, level) case Some(s) => Got(ChannelPiece(s)) case None => NoData
  }

  function FetchTeam(env: Env, g: Getter, ua: UserAgentContext, level: Level): Fetched {
    if ua.teamID == "" then Failed
    else
      match env.getTeam(g, ua.teamID)
      case None => if level == ID then Got(TeamPiece(Team(ua.teamID, "", "", ""))) else Failed
      case Some(t) => match StripTeam(t, level) case Some(s) => Got(TeamPiece(s)) case None => NoData
  }

  function FetchApp(env: Env, app: App, level: Level): Fetched {
    match StripApp(app, level)
    case Some(a) => Got(AppPiece(a.(webhookSecret := if level == All && env.privileged then app.webhookSecret else "")))
    case None => NoData
  }

  function FetchOAuth2App(env: Env): Fetched {
    if env.destination.None? || !env.destination.value.usesRemoteOAuth2 then Failed
    else Got(OAuth2Piece(OAuth2Config(env.destination.value.remoteOAuth2, env.url + CONNECT, env.url + COMPLETE)))
  }

  function FetchOAuth2User(env: Env): Fetched {
    if env.actingUserID == "" || env.destination.None? || !env.destination.value.usesRemoteOAuth2 then Failed
    else if env.oauth2Data.None? then Failed
    else if env.oauth2Data.value == "" || env.oauth2Data.value == "{}" then NoData
    else match env.decode(env.oauth2Data.value) case Some(v) => Got(Text(v)) case None => Failed
  }

  function Fetch(env: Env, g: Getter, app: App, ua: UserAgentContext, acting: Option<User>, f: Field,
      level: Level): Fetched {
    match f
    case ActingUserAccessTokenField =>
      if app.actAsUser && env.userSession.Some? then Got(Text(env.userSession.value)) else Failed
    case ActingUserField => FetchUser(env, g, env.actingUserID, level)
    case AppField => FetchApp(env, app, level)
    case ChannelMemberField => FetchChannelMember(env, g, ua, level)
    case ChannelField => FetchChannel(env, g, ua, level)
    case LocaleField => Got(Text(LocaleOf(env, if acting.Some? then acting else env.localeUser)))
    case OAuth2AppField => FetchOAuth2App(env)
    case OAuth2UserField => FetchOAuth2User(env)
    case PostField => FetchPost(env, g, ua.postID, level)
    case RootPostField => FetchPost(env, g, ua.rootPostID, level)
    case TeamMemberField => FetchTeamMember(env, g, ua, level)
    case TeamField => FetchTeam(env, g, ua, level)
    case UserField => FetchUser(env, g, ua.userID, level)
  }

  // ---------------------------------------------------------------- the check

  datatype Check = Consistent | Mismatch | NilDereference

  predicate PostFits(ua: UserAgentContext, p: Post) {
    ua.channelID == "" || p.channelID == ua.channelID
  }

  predicate ChannelFits(ua: UserAgentContext, c: Channel) {
    ua.teamID == "" || c.kind == DIRECT || c.kind == GROUP || c.teamID == ua.teamID
  }

  predicate MemberFits(ua: UserAgentContext, acting: string, userID: string) {
    ua.userID == "" || userID == acting || userID == ua.userID
  }

  /**
    consistencyCheck: the message about a team member of another user reads the channel member, which
    may not be there.
   */
  function ConsistencyCheck(ua: UserAgentContext, acting: string, c: ExpandedContext): Check {
    if c.post.Some? && !PostFits(ua, c.post.value) then Mismatch
    else if c.channel.Some? && !ChannelFits(ua, c.channel.value) then Mismatch
    else if c.channelMember.Some? && ua.channelID != "" && c.channelMember.value.channelID != ua.channelID then Mismatch
    else if c.channelMember.Some? && !MemberFits(ua, acting, c.channelMember.value.userID) then Mismatch
    else if c.teamMember.Some? && ua.teamID != "" && c.teamMember.value.teamID != ua.teamID then Mismatch
    else if c.teamMember.Some? && !MemberFits(ua, acting, c.teamMember.value.userID) then
      if c.channelMember.None? then NilDereference else Mismatch
    else Consistent
  }

  /**
    Entity by entity, what the check accepts. It looks at the channel member before the team member, and
    an ill-fitting team member is reported with the ID of the channel member, which may be missing.
   */
  lemma CheckPassesIff(ua: UserAgentContext, acting: string, c: ExpandedContext)
    ensures var post := c.post.Some? ==> ua.channelID in {"", c.post.value.channelID};
            var channel :=
              c.channel.Some? ==> c.channel.value.kind in {"D", "G"} || ua.teamID in {"", c.channel.value.teamID};
            var channelMember :=
              c.channelMember.Some? ==>
                var m := c.channelMember.value;
                ua.channelID in {"", m.channelID} && (ua.userID == "" || m.userID in {acting, ua.userID});
            var team := c.teamMember.Some? ==> ua.teamID in {"", c.teamMember.value.teamID};
            var user := c.teamMember.Some? ==> ua.userID == "" || c.teamMember.value.userID in {acting, ua.userID};
            && (ConsistencyCheck(ua, acting, c) == Consistent <==> post && channel && channelMember && team && user)
            && (ConsistencyCheck(ua, acting, c) == NilDereference <==>
                  post && channel && c.channelMember.None? && team && !user)
  {
  }

  // ---------------------------------------------------------------- what expanding should come to

  type Levels = Field -> string

  predicate Wanted(levels: Levels, f: Field) {
    var p := ParseExpandLevel(levels(f));
    p.Some? && p.value.level in ExpandableAs(f)
  }

  /** Required at a level the field can be expanded to; other required levels are passed over. */
  predicate Obliged(levels: Levels, f: Field) {
    Wanted(levels, f) && ParseExpandLevel(levels(f)).value.required
  }

  function LevelOf(levels: Levels, f: Field): Level {
    match ParseExpandLevel(levels(f)) case Some(p) => p.level case None => NoLevel
  }

  /** The getter that ensureGetter settles on. */
  function GetterFor(env: Env, special: bool): Option<Getter> {
    if special then Some(SpecialGetter)
    else if env.destination.None? then None
    else if env.destination.value.builtin then Some(RPCGetter)
    else if env.destination.value.actAsUser && env.actingUserID != "" then
      match env.userSession case Some(token) => Some(HTTPGetter(token)) case None => None
    else if env.destination.value.actAsBot then
      match env.botSession case Some(token) => Some(HTTPGetter(token)) case None => None
    else None
  }

  /** The inputs of one expansion. */
  datatype Inputs = Inputs(env: Env, app: App, ua: UserAgentContext, special: bool, levels: Levels)
  {
    function Getter(): Option<Getter> {
      GetterFor(env, special)
    }

    function FetchField(acting: Option<User>, f: Field): Fetched {
      if Getter().None? then Failed
      else Fetch(env, Getter().value, app, ua, acting, f, LevelOf(levels, f))
    }

    /** What the finished context has in a field. */
    function Expected(acting: Option<User>, f: Field): Option<Piece> {
      if Wanted(levels, f) && FetchField(acting, f).Got? then Some(FetchField(acting, f).piece) else None
    }
  }

  /** The first n steps are done: their fields are as expected, all later ones are unset. */
  ghost predicate ExpandedTo(i: Inputs, c: ExpandedContext, n: nat) {
    forall f :: Part(c, f) == if Index(f) < n then i.Expected(c.actingUser, f) else None
  }

  /** No error was raised in the first n steps. */
  ghost predicate NoErrorTo(i: Inputs, n: nat) {
    forall f :: Index(f) < n ==>
      && ParseExpandLevel(i.levels(f)).Some?
      && (Wanted(i.levels, f) ==> i.Getter().Some?)
      && (Obliged(i.levels, f) ==> i.FetchField(None, f) != Failed)
  }

  datatype ExpandError =
    | NoDestination | NoBotSession | BadLevel(field: Field) | NoGetter(field: Field) | MissingRequired(field: Field)
    | Inconsistent | Panicked

  /** The first error, with the context as it is left. */
  ghost predicate Justified(i: Inputs, e: ExpandError, c: ExpandedContext) {
    match e
    case NoDestination => true
    case NoBotSession => i.env.botSession.None?
    case BadLevel(f) => NoErrorTo(i, Index(f)) && ParseExpandLevel(i.levels(f)).None?
    case NoGetter(f) => NoErrorTo(i, Index(f)) && Wanted(i.levels, f) && i.Getter().None?
    case MissingRequired(f) =>
      NoErrorTo(i, Index(f)) && i.Getter().Some? && Obliged(i.levels, f) && i.FetchField(None, f) == Failed
    case Inconsistent =>
      NoErrorTo(i, 13) && ExpandedTo(i, c, 13) && ConsistencyCheck(i.ua, i.env.actingUserID, c) == Mismatch
    case Panicked =>
      NoErrorTo(i, 13) && ExpandedTo(i, c, 13) && ConsistencyCheck(i.ua, i.env.actingUserID, c) == NilDereference
  }

  // ---------------------------------------------------------------- what the check says of the inputs

  /** The post that was asked for, if it can be read. */
  function PostAnswer(i: Inputs): Option<Post> {
    if Wanted(i.levels, PostField) && i.Getter().Some? && i.ua.postID != "" then
      i.env.getPost(i.Getter().value, i.ua.postID)
    else None
  }

  function ChannelAnswer(i: Inputs): Option<Channel> {
    if Wanted(i.levels, ChannelField) && i.Getter().Some? && i.ua.channelID != "" then
      i.env.getChannel(i.Getter().value, i.ua.channelID)
    else None
  }

  function ChannelMemberAnswer(i: Inputs): Option<ChannelMember> {
    var id := MemberID(i.env, i.ua);
    if Wanted(i.levels, ChannelMemberField) && i.Getter().Some? && id != "" && i.ua.channelID != "" then
      i.env.getChannelMember(i.Getter().value, i.ua.channelID, id)
    else None
  }

  function TeamMemberAnswer(i: Inputs): Option<TeamMember> {
    var id := MemberID(i.env, i.ua);
    if Wanted(i.levels, TeamMemberField) && i.Getter().Some? && id != "" && i.ua.teamID != "" then
      i.env.getTeamMember(i.Getter().value, i.ua.teamID, id)
    else None
  }

  function ActingUserAnswer(i: Inputs): Option<User> {
    if Wanted(i.levels, ActingUserField) && i.Getter().Some? && i.env.actingUserID != "" then
      i.env.getUser(i.Getter().value, i.env.actingUserID)
    else None
  }

  /** In a channel, a post is refused if it is of another channel, and always at level "id". */
  predicate PostRefused(i: Inputs) {
    var p := PostAnswer(i);
    && p.Some? && i.ua.channelID != ""
    && (LevelOf(i.levels, PostField) == ID || p.value.channelID != i.ua.channelID)
  }

  /**
    In a team, a channel of another team is refused, unless it is a direct or group one that is not at
    level "id". A channel that cannot be read passes: at level "id" it is filled in with the team's ID.
   */
  predicate ChannelRefused(i: Inputs) {
    var c := ChannelAnswer(i);
    && c.Some? && i.ua.teamID != "" && c.value.teamID != i.ua.teamID
    && (LevelOf(i.levels, ChannelField) == ID || c.value.kind !in {DIRECT, GROUP})
  }

  predicate ChannelMemberRefused(i: Inputs) {
    var m := ChannelMemberAnswer(i);
    m.Some? && (m.value.channelID != i.ua.channelID || !MemberFits(i.ua, i.env.actingUserID, m.value.userID))
  }

  predicate TeamMemberRefused(i: Inputs) {
    var m := TeamMemberAnswer(i);
    m.Some? && (m.value.teamID != i.ua.teamID || !MemberFits(i.ua, i.env.actingUserID, m.value.userID))
  }

  /** The server answers with a team member of somebody else, and there is no channel member to name. */
  predicate Panics(i: Inputs) {
    && !PostRefused(i) && !ChannelRefused(i) && ChannelMemberAnswer(i).None?
    && TeamMemberRefused(i) && TeamMemberAnswer(i).value.teamID == i.ua.teamID
  }

  predicate Passes(i: Inputs) {
    !PostRefused(i) && !ChannelRefused(i) && !ChannelMemberRefused(i) && !TeamMemberRefused(i)
  }

  /** No step fails, and nothing is refused. */
  ghost predicate Succeeds(i: Inputs) {
    NoErrorTo(i, 13) && Passes(i)
  }

  lemma PartAt(i: Inputs, c: ExpandedContext, f: Field)
    requires ExpandedTo(i, c, 13)
    ensures Part(c, f) == i.Expected(c.actingUser, f)
  {
    assert Index(f) < 13;
  }

  lemma PostCheck(i: Inputs, c: ExpandedContext)
    requires ExpandedTo(i, c, 13)
    ensures c.post.Some? && !PostFits(i.ua, c.post.value) <==> PostRefused(i)
  {
    PartAt(i, c, PostField);
  }

  lemma ChannelCheck(i: Inputs, c: ExpandedContext)
    requires ExpandedTo(i, c, 13)
    ensures c.channel.Some? && !ChannelFits(i.ua, c.channel.value) <==> ChannelRefused(i)
  {
    PartAt(i, c, ChannelField);
  }

  lemma ChannelMemberCheck(i: Inputs, c: ExpandedContext)
    requires ExpandedTo(i, c, 13)
    ensures c.channelMember.Some? <==> ChannelMemberAnswer(i).Some?
    ensures c.channelMember.Some? ==>
      && i.ua.channelID != ""
      && c.channelMember.value.channelID == ChannelMemberAnswer(i).value.channelID
      && c.channelMember.value.userID == ChannelMemberAnswer(i).value.userID
  {
    PartAt(i, c, ChannelMemberField);
  }

  lemma TeamMemberCheck(i: Inputs, c: ExpandedContext)
    requires ExpandedTo(i, c, 13)
    ensures c.teamMember.Some? <==> TeamMemberAnswer(i).Some?
    ensures c.teamMember.Some? ==>
      && i.ua.teamID != ""
      && c.teamMember.value.teamID == TeamMemberAnswer(i).value.teamID
      && c.teamMember.value.userID == TeamMemberAnswer(i).value.userID
  {
    PartAt(i, c, TeamMemberField);
  }

  /** What the check comes to is a matter of the inputs. */
  lemma CheckOfInputs(i: Inputs, c: ExpandedContext)
    requires ExpandedTo(i, c, 13)
    ensures ConsistencyCheck(i.ua, i.env.actingUserID, c) ==
            if Passes(i) then Consistent else if Panics(i) then NilDereference else Mismatch
  {
    PostCheck(i, c);
    ChannelCheck(i, c);
    ChannelMemberCheck(i, c);
    TeamMemberCheck(i, c);
  }

  /** Only the locale depends on what another step has found, and it always has a value. */
  lemma ActingUserMattersForLocaleOnly(i: Inputs, a: Option<User>, b: Option<User>, f: Field)
    ensures f != LocaleField ==> i.FetchField(a, f) == i.FetchField(b, f)
    ensures f == LocaleField && i.Getter().Some? ==> i.FetchField(a, f).Got?
  {
  }

  predicate Fits(f: Field, p: Piece) {
    match f
    case ActingUserAccessTokenField => p.Text?
    case ActingUserField => p.UserPiece?
    case AppField => p.AppPiece?
    case ChannelMemberField => p.ChannelMemberPiece?
    case ChannelField => p.ChannelPiece?
    case LocaleField => p.Text?
    case OAuth2AppField => p.OAuth2Piece?
    case OAuth2UserField => p.Text?
    case PostField => p.PostPiece?
    case RootPostField => p.PostPiece?
    case TeamMemberField => p.TeamMemberPiece?
    case TeamField => p.TeamPiece?
    case UserField => p.UserPiece?
  }

  function With(c: ExpandedContext, f: Field, p: Piece): ExpandedContext
    requires Fits(f, p)
  {
    match f
    case ActingUserAccessTokenField => c.(actingUserAccessToken := Some(p.text))
    case ActingUserField => c.(actingUser := Some(p.user))
    case AppField => c.(app := Some(p.app))
    case ChannelMemberField => c.(channelMember := Some(p.channelMember))
    case ChannelField => c.(channel := Some(p.channel))
    case LocaleField => c.(locale := Some(p.text))
    case OAuth2AppField => c.(oauth2App := Some(p.config))
    case OAuth2UserField => c.(oauth2User := Some(p.text))
    case PostField => c.(post := Some(p.post))
    case RootPostField => c.(rootPost := Some(p.post))
    case TeamMemberField => c.(teamMember := Some(p.teamMember))
    case TeamField => c.(team := Some(p.team))
    case UserField => c.(user := Some(p.user))
  }

  /** A step writes its own field and no other. */
  function Filled(c: ExpandedContext, f: Field, fetched: Fetched): ExpandedContext
    requires fetched.Got? ==> Fits(f, fetched.piece)
  {
    if fetched.Got? then With(c, f, fetched.piece) else c
  }

  lemma FilledParts(c: ExpandedContext, f: Field, fetched: Fetched, g: Field)
    requires fetched.Got? ==> Fits(f, fetched.piece)
    ensures Part(Filled(c, f, fetched), g) == if g == f && fetched.Got? then Some(fetched.piece) else Part(c, g)
    ensures Filled(c, f, fetched).botUserID == c.botUserID && Filled(c, f, fetched).botAccessToken == c.botAccessToken
    ensures f != ActingUserField ==> Filled(c, f, fetched).actingUser == c.actingUser
  {
  }

  lemma StepExtends(i: Inputs, c: ExpandedContext, f: Field, fetched: Fetched)
    requires ExpandedTo(i, c, Index(f))
    requires fetched.Got? ==> Fits(f, fetched.piece)
    requires Wanted(i.levels, f) ==> fetched == i.FetchField(c.actingUser, f)
    requires !Wanted(i.levels, f) ==> fetched == NoData
    ensures ExpandedTo(i, Filled(c, f, fetched), Index(f) + 1)
  {
    var c' := Filled(c, f, fetched);
    forall g
      ensures Part(c', g) == if Index(g) < Index(f) + 1 then i.Expected(c'.actingUser, g) else None
    {
      FilledParts(c, f, fetched, g);
      ActingUserMattersForLocaleOnly(i, c.actingUser, c'.actingUser, g);
      assert Part(c, g) == if Index(g) < Index(f) then i.Expected(c.actingUser, g) else None;
      assert Index(g) == Index(f) ==> g == f;
    }
  }

  // ---------------------------------------------------------------- the expander

  class Expander {
    const env: Env
    const app: App
    const ua: UserAgentContext
    var ctx: ExpandedContext
    var getter: Option<Getter>
    var botAccessToken: string
    var actingUserAccessToken: string

    constructor (i: Inputs)
      ensures env == i.env && app == i.app && ua == i.ua && TokensCached()
      ensures getter == (if i.special then Some(SpecialGetter) else None)
      ensures ctx.botUserID == i.app.botUserID && ctx.botAccessToken == "" && forall f :: Part(ctx, f) == None
    {
      env, app, ua := i.env, i.app, i.ua;
      getter := if i.special then Some(SpecialGetter) else None;
      botAccessToken, actingUserAccessToken := "", "";
      ctx := ExpandedContext(i.app.botUserID, "", None, None, None, None, None, None, None, None, None, None, None,
          None, None);
    }

    /** A cached token is the one that its session has. */
    predicate TokensCached()
      reads `botAccessToken, `actingUserAccessToken
    {
      && (botAccessToken != "" ==> env.botSession == Some(botAccessToken))
      && (actingUserAccessToken != "" ==> env.userSession == Some(actingUserAccessToken))
    }

    method GetBotAccessToken() returns (token: Option<string>)
      requires TokensCached()
      modifies `botAccessToken
      ensures TokensCached() && token == env.botSession
    {
      if botAccessToken != "" {
        return Some(botAccessToken);
      }
      if env.botSession.None? {
        return None;
      }
      botAccessToken := env.botSession.value;
      return env.botSession;
    }

    method GetActingUserAccessToken() returns (token: Option<string>)
      requires TokensCached()
      modifies `actingUserAccessToken
      ensures TokensCached() && token == env.userSession
    {
      if actingUserAccessToken != "" {
        return Some(actingUserAccessToken);
      }
      if env.userSession.None? {
        return None;
      }
      actingUserAccessToken := env.userSession.value;
      return env.userSession;
    }

    /** ensureGetter: the getter is made once, at the first field that needs one. */
    method EnsureGetter(ghost special: bool) returns (ok: bool)
      requires TokensCached() && (getter.Some? ==> getter == GetterFor(env, special)) && (getter.None? ==> !special)
      modifies `getter, `botAccessToken, `actingUserAccessToken
      ensures TokensCached() && getter == GetterFor(env, special) && ok == getter.Some?
    {
      if getter.Some? {
        return true;
      }
      if env.destination.None? {
        return false;
      }
      var dest := env.destination.value;
      if dest.builtin {
        getter := Some(RPCGetter);
      } else if dest.actAsUser && env.actingUserID != "" {
        var token := GetActingUserAccessToken();
        if token.None? {
          return false;
        }
        getter := Some(HTTPGetter(token.value));
      } else if dest.actAsBot {
        var token := GetBotAccessToken();
        if token.None? {
          return false;
        }
        getter := Some(HTTPGetter(token.value));
      } else {
        return false;
      }
      return true;
    }

    method ExpandActingUserAccessToken() returns (ok: bool)
      requires TokensCached()
      modifies `ctx, `actingUserAccessToken
      ensures TokensCached() && ok == (app.actAsUser && env.userSession.Some?)
      ensures ctx == if ok then old(ctx).(actingUserAccessToken := env.userSession) else old(ctx)
    {
      if !app.actAsUser {
        return false;
      }
      var token := GetActingUserAccessToken();
      if token.None? {
        return false;
      }
      ctx := ctx.(actingUserAccessToken := token);
      return true;
    }

    /** expandUser, up to the assignment that the closure makes. */
    method ReadUser(userID: string, level: Level) returns (r: Fetched)
      requires getter.Some? && level != NoLevel
      ensures r == FetchUser(env, getter.value, userID, level)
    {
      if userID == "" {
        return Failed;
      }
      var user := env.getUser(getter.value, userID);
      if user.None? {
        return Failed;
      }
      var stripped := StripUser(user.value, level);
      r := Got(UserPiece(stripped.value));
    }

    method ReadPost(postID: string, level: Level) returns (r: Fetched)
      requires getter.Some? && level != NoLevel
      ensures r == FetchPost(env, getter.value, postID, level)
    {
      if postID == "" {
        return Failed;
      }
      var post := env.getPost(getter.value, postID);
      if post.None? {
        return Failed;
      }
      var stripped := StripPost(post.value, level);
      r := Got(PostPiece(stripped.value));
    }

    method ExpandApp(level: Level)
      requires level in {Summary, All}
      modifies `ctx
      ensures ctx == Filled(old(ctx), AppField, FetchApp(env, app, level))
    {
      var stripped := StripApp(app, level).value;
      stripped := stripped.(webhookSecret := "");
      if level == All && env.privileged {
        stripped := stripped.(webhookSecret := app.webhookSecret);
      }
      ctx := ctx.(app := Some(stripped));
    }

    method ExpandChannelMember(level: Level) returns (ok: bool)
      requires getter.Some? && level != NoLevel
      modifies `ctx
      ensures var r := FetchChannelMember(env, getter.value, ua, level);
              ok == !r.Failed? && (r.Got? ==> r.piece.ChannelMemberPiece?) && ctx == Filled(old(ctx),
                  ChannelMemberField, r)
    {
      var channelID, userID := ua.channelID, ua.userID;
      if userID == "" {
        userID := env.actingUserID;
      }
      if userID == "" || channelID == "" {
        return false;
      }
      var cm := env.getChannelMember(getter.value, channelID, userID);
      if cm.None? {
        return false;
      }
      ctx := ctx.(channelMember := StripChannelMember(cm.value, level));
      return true;
    }

    method ExpandTeamMember(level: Level) returns (ok: bool)
      requires getter.Some? && level != NoLevel
      modifies `ctx
      ensures var r := FetchTeamMember(env, getter.value, ua, level);
              ok == !r.Failed? && (r.Got? ==> r.piece.TeamMemberPiece?) && ctx == Filled(old(ctx), TeamMemberField, r)
    {
      var teamID, userID := ua.teamID, ua.userID;
      if userID == "" {
        userID := env.actingUserID;
      }
      if userID == "" || teamID == "" {
        return false;
      }
      var tm := env.getTeamMember(getter.value, teamID, userID);
      if tm.None? {
        return false;
      }
      ctx := ctx.(teamMember := StripTeamMember(tm.value, level));
      return true;
    }

    method ExpandChannel(level: Level) returns (ok: bool)
      requires getter.Some? && level != NoLevel
      modifies `ctx
      ensures var r := FetchChannel(env, getter.value, ua, level);
              ok == !r.Failed? && (r.Got? ==> r.piece.ChannelPiece?) && ctx == Filled(old(ctx), ChannelField, r)
    {
      var channelID := ua.channelID;
      if channelID == "" {
        return false;
      }
      var channel := env.getChannel(getter.value, channelID);
      if channel.None? {
        if level == ID {
          ctx := ctx.(channel := Some(Channel(channelID, ua.teamID, "", "", "")));
          return true;
        }
        return false;
      }
      ctx := ctx.(channel := StripChannel(channel.value, level));
      return true;
    }

    method ExpandTeam(level: Level) returns (ok: bool)
      requires getter.Some? && level != NoLevel
      modifies `ctx
      ensures var r := FetchTeam(env, getter.value, ua, level);
              ok == !r.Failed? && (r.Got? ==> r.piece.TeamPiece?) && ctx == Filled(old(ctx), TeamField, r)
    {
      var teamID := ua.teamID;
      if teamID == "" {
        return false;
      }
      var team := env.getTeam(getter.value, teamID);
      if team.None? {
        if level == ID {
          ctx := ctx.(team := Some(Team(teamID, "", "", "")));
          return true;
        }
        return false;
      }
      ctx := ctx.(team := StripTeam(team.value, level));
      return true;
    }

    method ExpandLocale()
      modifies `ctx
      ensures var u := if old(ctx).actingUser.Some? then old(ctx).actingUser else env.localeUser;
              ctx == old(ctx).(locale := Some(LocaleOf(env, u)))
    {
      if ctx.actingUser.Some? {
        ctx := ctx.(locale := Some(LocaleOf(env, ctx.actingUser)));
      } else {
        ctx := ctx.(locale := Some(LocaleOf(env, env.localeUser)));
      }
    }

    method ExpandOAuth2App() returns (ok: bool)
      modifies `ctx
      ensures var r := FetchOAuth2App(env);
              ok == !r.Failed? && (r.Got? ==> r.piece.OAuth2Piece?) && ctx == Filled(old(ctx), OAuth2AppField, r)
    {
      if env.destination.None? {
        return false;
      }
      var to := env.destination.value;
      if !to.usesRemoteOAuth2 {
        return false;
      }
      ctx := ctx.(oauth2App := Some(OAuth2Config(to.remoteOAuth2, env.url + CONNECT, env.url + COMPLETE)));
      return true;
    }

    /** Without data there is no error: errors.Wrap gives nil for a nil error. */
    method ExpandOAuth2User() returns (ok: bool)
      modifies `ctx
      ensures var r := FetchOAuth2User(env);
              ok == !r.Failed? && (r.Got? ==> r.piece.Text?) && ctx == Filled(old(ctx), OAuth2UserField, r)
    {
      if env.actingUserID == "" || env.destination.None? || !env.destination.value.usesRemoteOAuth2 {
        return false;
      }
      if env.oauth2Data.None? {
        return false;
      }
      var data := env.oauth2Data.value;
      if data == "" || data == "{}" {
        return true;
      }
      var v := env.decode(data);
      if v.None? {
        return false;
      }
      ctx := ctx.(oauth2User := v);
      return true;
    }

    /** The step of one field, once a getter is there. */
    method Step(f: Field, level: Level) returns (ok: bool)
      requires TokensCached() && getter.Some? && level in ExpandableAs(f)
      modifies `ctx, `actingUserAccessToken
      ensures TokensCached()
      ensures var r := Fetch(env, getter.value, app, ua, old(ctx).actingUser, f, level);
              ok == !r.Failed? && (r.Got? ==> Fits(f, r.piece)) && ctx == Filled(old(ctx), f, r)
    {
      match f
      case ActingUserAccessTokenField => ok := ExpandActingUserAccessToken();
      case AppField =>
        ExpandApp(level);
        ok := true;
      case ChannelMemberField => ok := ExpandChannelMember(level);
      case ChannelField => ok := ExpandChannel(level);
      case LocaleField =>
        ExpandLocale();
        ok := true;
      case OAuth2AppField => ok := ExpandOAuth2App();
      case OAuth2UserField => ok := ExpandOAuth2User();
      case TeamMemberField => ok := ExpandTeamMember(level);
      case TeamField => ok := ExpandTeam(level);
      case ActingUserField =>
        var r := ReadUser(env.actingUserID, level);
        ok := !r.Failed?;
        ctx := Filled(ctx, f, r);
      case UserField =>
        var r := ReadUser(ua.userID, level);
        ok := !r.Failed?;
        ctx := Filled(ctx, f, r);
      case PostField =>
        var r := ReadPost(ua.postID, level);
        ok := !r.Failed?;
        ctx := Filled(ctx, f, r);
      case RootPostField =>
        var r := ReadPost(ua.rootPostID, level);
        ok := !r.Failed?;
        ctx := Filled(ctx, f, r);
    }

    /**
      expand: the steps in order, skipping levels that a field has none of; the first error in a
      required field ends it. What the app gets of the user agent's part is cut down at the end.
     */
    method Expand(i: Inputs) returns (r: Result<Context, ExpandError>)
      requires env == i.env && app == i.app && ua == i.ua && TokensCached() && ExpandedTo(i, ctx, 0)
      requires getter == if i.special then Some(SpecialGetter) else None
      modifies this
      ensures r.Ok? ==> r.value.ua == Cleaned(ua) && Succeeded(i, r.value.expanded)
      ensures r.Ok? ==> r.value.expanded.botUserID == old(ctx).botUserID
      ensures r.Ok? ==> r.value.expanded.botAccessToken == old(ctx).botAccessToken
      ensures r.Err? ==> Justified(i, r.error, ctx) && !r.error.NoDestination? && !r.error.NoBotSession?
      ensures r.Ok? <==> Succeeds(i)
      ensures r == Err(Panicked) <==> NoErrorTo(i, 13) && Panics(i)
    {
      for n := 0 to |STEPS|
        invariant TokensCached() && (getter.Some? ==> getter == i.Getter()) && (getter.None? ==> !i.special)
        invariant ExpandedTo(i, ctx, n) && NoErrorTo(i, n)
        invariant ctx.botUserID == old(ctx).botUserID && ctx.botAccessToken == old(ctx).botAccessToken
      {
        var f := STEPS[n];
        StepIndex(n);
        var parsed := ParseExpandLevel(i.levels(f));
        if parsed.None? {
          ErrorAt(i, f);
          return Err(BadLevel(f));
        }
        var level := parsed.value.level;
        if level !in ExpandableAs(f) {
          StepExtends(i, ctx, f, NoData);
          NoErrorStep(i, f);
          continue;
        }
        var ok := EnsureGetter(i.special);
        if !ok {
          ErrorAt(i, f);
          return Err(NoGetter(f));
        }
        ghost var before, fetched := ctx, i.FetchField(ctx.actingUser, f);
        ok := Step(f, level);
        ActingUserMattersForLocaleOnly(i, before.actingUser, None, f);
        if !ok && parsed.value.required {
          ErrorAt(i, f);
          return Err(MissingRequired(f));
        }
        StepExtends(i, before, f, fetched);
        FilledParts(before, f, fetched, f);
        NoErrorStep(i, f);
      }
      CheckOfInputs(i, ctx);
      match ConsistencyCheck(ua, env.actingUserID, ctx)
      case Consistent => return Ok(Context(Cleaned(ua), ctx));
      case Mismatch => return Err(Inconsistent);
      case NilDereference => return Err(Panicked);
    }
  }

  /** What is sent to the app. */
  datatype Context = Context(ua: UserAgentContext, expanded: ExpandedContext)

  /** Only the user agent and the submit flag go to the app. */
  function Cleaned(ua: UserAgentContext): UserAgentContext {
    UserAgentContext("", "", "", "", "", "", "", ua.userAgent, ua.trackAsSubmit)
  }

  ghost predicate Succeeded(i: Inputs, c: ExpandedContext) {
    ExpandedTo(i, c, 13) && NoErrorTo(i, 13) && ConsistencyCheck(i.ua, i.env.actingUserID, c) == Consistent
  }

  lemma StepIndex(n: nat)
    requires n < 13
    ensures |STEPS| == 13 && Index(STEPS[n]) == n
    ensures forall f :: Index(f) == n ==> f == STEPS[n]
  {
  }

  lemma ErrorAt(i: Inputs, f: Field)
    requires
      || ParseExpandLevel(i.levels(f)).None?
      || (Wanted(i.levels, f) && i.Getter().None?)
      || (Obliged(i.levels, f) && i.FetchField(None, f) == Failed)
    ensures !NoErrorTo(i, 13)
  {
    assert Index(f) < 13;
  }

  lemma NoErrorStep(i: Inputs, f: Field)
    requires NoErrorTo(i, Index(f))
    requires ParseExpandLevel(i.levels(f)).Some?
    requires Wanted(i.levels, f) ==> i.Getter().Some?
    requires Obliged(i.levels, f) ==> i.FetchField(None, f) != Failed
    ensures NoErrorTo(i, Index(f) + 1)
  {
    forall g | Index(g) < Index(f) + 1
      ensures ParseExpandLevel(i.levels(g)).Some?
      ensures Wanted(i.levels, g) ==> i.Getter().Some?
      ensures Obliged(i.levels, g) ==> i.FetchField(None, g) != Failed
    {
      assert Index(g) == Index(f) ==> g == f;
    }
  }

  /** A bot that the app acts as has a session. */
  predicate BotReady(i: Inputs) {
    i.app.actAsBot && i.app.botUserID != "" ==> i.env.botSession.Some?
  }

  /** expandContext: a fresh context, the bot's token if the app acts as a bot, then expand. */
  method ExpandContext(i: Inputs, destination: string) returns (r: Result<Context, ExpandError>)
    ensures r.Ok? ==> destination != "" && r.value.ua == Cleaned(i.ua) && Succeeded(i, r.value.expanded)
    ensures r.Ok? ==> r.value.ua.userAgent == i.ua.userAgent && r.value.ua.trackAsSubmit == i.ua.trackAsSubmit
    ensures r.Ok? ==> r.value.ua.channelID == "" && r.value.ua.teamID == "" && r.value.ua.postID == ""
    ensures r.Ok? ==> r.value.ua.rootPostID == "" && r.value.ua.userID == ""
    ensures r.Ok? ==> r.value.ua.appID == "" && r.value.ua.location == ""
    ensures r.Ok? ==> r.value.expanded.botUserID == i.app.botUserID
    ensures r.Ok? && i.app.actAsBot && i.app.botUserID != "" ==>
      i.env.botSession == Some(r.value.expanded.botAccessToken)
    ensures r.Ok? && !(i.app.actAsBot && i.app.botUserID != "") ==> r.value.expanded.botAccessToken == ""
    ensures r.Err? ==> exists c :: Justified(i, r.error, c)
    ensures r == Err(NoDestination) <==> destination == ""
    ensures r.Ok? <==> destination != "" && BotReady(i) && Succeeds(i)
    ensures r == Err(Panicked) <==> destination != "" && BotReady(i) && NoErrorTo(i, 13) && Panics(i)
  {
    if destination == "" {
      assert Justified(i, NoDestination, ExpandedContext("", "", None, None, None, None, None, None, None, None,
          None, None, None, None, None));
      return Err(NoDestination);
    }
    var e := new Expander(i);
    if i.app.actAsBot && i.app.botUserID != "" {
      var token := e.GetBotAccessToken();
      if token.None? {
        assert Justified(i, NoBotSession, e.ctx);
        return Err(NoBotSession);
      }
      assert forall f :: Part(e.ctx.(botAccessToken := token.value), f) == Part(e.ctx, f);
      e.ctx := e.ctx.(botAccessToken := token.value);
    }
    r := e.Expand(i);
  }

  // ---------------------------------------------------------------- what a success says

  /** At a level that a field can be expanded to, only oauth2_user comes to nothing without an error. */
  lemma FetchOutcome(i: Inputs, acting: Option<User>, f: Field)
    ensures Wanted(i.levels, f) && f != OAuth2UserField ==> i.FetchField(acting, f) != NoData
  {
  }

  lemma NoErrorAt(i: Inputs, f: Field)
    requires NoErrorTo(i, 13)
    ensures ParseExpandLevel(i.levels(f)).Some?
    ensures Wanted(i.levels, f) ==> i.Getter().Some?
    ensures Obliged(i.levels, f) ==> i.FetchField(None, f) != Failed
  {
    assert Index(f) < 13;
  }

  /**
    After a success every field required at one of its levels is set, but for oauth2_user without
    data, and no field is set that was not asked for.
   */
  lemma RequiredFieldsAreSet(i: Inputs, c: ExpandedContext, f: Field)
    requires Succeeded(i, c)
    ensures Obliged(i.levels, f) && f != OAuth2UserField ==> Part(c, f).Some?
    ensures f == OAuth2UserField && Obliged(i.levels, f) && Part(c, f).None? ==>
      i.env.oauth2Data in {Some(""), Some("{}")}
    ensures !Wanted(i.levels, f) ==> Part(c, f) == None
  {
    assert Part(c, f) == i.Expected(c.actingUser, f);
    NoErrorAt(i, f);
    ActingUserMattersForLocaleOnly(i, c.actingUser, None, f);
    FetchOutcome(i, c.actingUser, f);
  }

  /** After a success the expanded entities agree with the user agent's channel and team. */
  lemma EntitiesAgree(i: Inputs, c: ExpandedContext)
    requires Succeeded(i, c)
    ensures c.post.Some? && i.ua.channelID != "" ==> c.post.value.channelID == i.ua.channelID
    ensures c.channel.Some? && i.ua.teamID != "" ==>
      c.channel.value.kind in {"D", "G"} || c.channel.value.teamID == i.ua.teamID
    ensures c.channelMember.Some? ==>
      && (i.ua.channelID != "" ==> c.channelMember.value.channelID == i.ua.channelID)
      && (i.ua.userID != "" ==> c.channelMember.value.userID in {i.env.actingUserID, i.ua.userID})
    ensures c.teamMember.Some? ==>
      && (i.ua.teamID != "" ==> c.teamMember.value.teamID == i.ua.teamID)
      && (i.ua.userID != "" ==> c.teamMember.value.userID in {i.env.actingUserID, i.ua.userID})
  {
    assert ConsistencyCheck(i.ua, i.env.actingUserID, c) == Consistent;
  }

  lemma SamePart(i: Inputs, c: ExpandedContext, d: ExpandedContext, f: Field)
    requires ExpandedTo(i, c, 13) && ExpandedTo(i, d, 13) && f != LocaleField
    ensures Part(c, f) == Part(d, f)
  {
    ActingUserMattersForLocaleOnly(i, c.actingUser, d.actingUser, f);
    assert Index(f) < 13;
  }

  lemma CheckedParts(ua: UserAgentContext, acting: string, c: ExpandedContext, d: ExpandedContext)
    requires Part(c, PostField) == Part(d, PostField) && Part(c, ChannelField) == Part(d, ChannelField)
    requires Part(c, ChannelMemberField) == Part(d, ChannelMemberField)
    requires Part(c, TeamMemberField) == Part(d, TeamMemberField)
    ensures ConsistencyCheck(ua, acting, c) == ConsistencyCheck(ua, acting, d)
  {
  }

  lemma SameExpansion(i: Inputs, c: ExpandedContext, d: ExpandedContext)
    requires ExpandedTo(i, c, 13) && ExpandedTo(i, d, 13)
    ensures ConsistencyCheck(i.ua, i.env.actingUserID, c) == ConsistencyCheck(i.ua, i.env.actingUserID, d)
  {
    SamePart(i, c, d, PostField);
    SamePart(i, c, d, ChannelField);
    SamePart(i, c, d, ChannelMemberField);
    SamePart(i, c, d, TeamMemberField);
    CheckedParts(i.ua, i.env.actingUserID, c, d);
  }

  /** An error that expand reports rules out every successful expansion: it fails exactly when it must. */
  lemma ErrorsAreReal(i: Inputs, e: ExpandError, c: ExpandedContext, d: ExpandedContext)
    requires Justified(i, e, c) && !e.NoDestination? && !e.NoBotSession?
    ensures !Succeeded(i, d)
  {
    if Succeeded(i, d) {
      match e
      case BadLevel(f) => NoErrorAt(i, f);
      case NoGetter(f) => NoErrorAt(i, f);
      case MissingRequired(f) => NoErrorAt(i, f);
      case Inconsistent => SameExpansion(i, c, d);
      case Panicked => SameExpansion(i, c, d);
    }
  }

  // ---------------------------------------------------------------- exactly when expanding succeeds

  lemma FetchFits(i: Inputs, acting: Option<User>, f: Field)
    ensures i.FetchField(acting, f).Got? ==> Fits(f, i.FetchField(acting, f).piece)
  {
  }

  /** The context after n steps, if none of them ends the expansion. */
  ghost function Built(i: Inputs, n: nat): (c: ExpandedContext)
    requires n <= 13
    ensures ExpandedTo(i, c, n)
  {
    if n == 0 then
      ExpandedContext("", "", None, None, None, None, None, None, None, None, None, None, None, None, None)
    else
      var c, f := Built(i, n - 1), STEPS[n - 1];
      var fetched := if Wanted(i.levels, f) then i.FetchField(c.actingUser, f) else NoData;
      StepIndex(n - 1);
      FetchFits(i, c.actingUser, f);
      StepExtends(i, c, f, fetched);
      Filled(c, f, fetched)
  }

  /**
    Some context is a success if and only if no step fails and the server's answers for post, channel,
    channel member and team member are not refused.
   */
  lemma SucceedsIff(i: Inputs)
    ensures (exists c :: Succeeded(i, c)) <==> NoErrorTo(i, 13) && Passes(i)
  {
    if c :| Succeeded(i, c) {
      CheckOfInputs(i, c);
    }
    var c := Built(i, 13);
    CheckOfInputs(i, c);
    if NoErrorTo(i, 13) && Passes(i) {
      assert Succeeded(i, c);
    }
  }

  /**
    A post at level "id" has lost its channel: with a readable post and in a channel no expansion
    succeeds, even if the post is optional. Otherwise it is refused exactly for another channel.
   */
  lemma PostDecides(i: Inputs)
    requires NoErrorTo(i, 13) && !ChannelRefused(i) && !ChannelMemberRefused(i) && !TeamMemberRefused(i)
    ensures (exists c :: Succeeded(i, c)) <==>
            PostAnswer(i).None? || i.ua.channelID == "" ||
            (LevelOf(i.levels, PostField) != ID && PostAnswer(i).value.channelID == i.ua.channelID)
  {
    SucceedsIff(i);
  }

  /**
    A direct or group channel at level "id" has lost its kind, and passes for its own team ID only; a
    channel that cannot be read passes.
   */
  lemma ChannelDecides(i: Inputs)
    requires NoErrorTo(i, 13) && !PostRefused(i) && !ChannelMemberRefused(i) && !TeamMemberRefused(i)
    ensures (exists c :: Succeeded(i, c)) <==>
            ChannelAnswer(i).None? || i.ua.teamID == "" || ChannelAnswer(i).value.teamID == i.ua.teamID ||
            (LevelOf(i.levels, ChannelField) != ID && ChannelAnswer(i).value.kind in {DIRECT, GROUP})
  {
    SucceedsIff(i);
  }

  /** A channel that cannot be read does pass at level "id", filled in from the user agent's IDs. */
  lemma UnreadableChannelPasses(i: Inputs, c: ExpandedContext)
    requires Succeeded(i, c) && Wanted(i.levels, ChannelField) && LevelOf(i.levels, ChannelField) == ID
    requires i.ua.channelID != "" && ChannelAnswer(i).None?
    ensures c.channel == Some(Channel(i.ua.channelID, i.ua.teamID, "", "", ""))
  {
    NoErrorAt(i, ChannelField);
    PartAt(i, c, ChannelField);
  }

  /**
    The locale of a successful expansion is that of the acting user as expanded: looked up anew if
    acting_user has not been expanded, and the server's default if it has been at level "id".
   */
  lemma LocaleOfRun(i: Inputs, c: ExpandedContext)
    requires Succeeded(i, c) && Wanted(i.levels, LocaleField)
    ensures var u := ActingUserAnswer(i);
            c.locale == Some(
              if u.None? then LocaleOf(i.env, i.env.localeUser)
              else LocaleOf(i.env, if LevelOf(i.levels, ActingUserField) == ID then None else u))
    ensures ActingUserAnswer(i).Some? && ActingUserAnswer(i).value.locale != "" ==>
              var locale := ActingUserAnswer(i).value.locale;
              c.locale == Some(locale) <==>
              LevelOf(i.levels, ActingUserField) != ID || LocaleOf(i.env, None) == locale
  {
    NoErrorAt(i, LocaleField);
    PartAt(i, c, LocaleField);
    PartAt(i, c, ActingUserField);
  }

  // ---------------------------------------------------------------- the check's nil dereference

  /** A membership that the server gives is of the user that was asked for. */
  ghost predicate HonestMemberships(env: Env) {
    forall g, t, u :: env.getTeamMember(g, t, u).Some? ==> env.getTeamMember(g, t, u).value.userID == u
  }

  /** With a server that answers with the user asked for, the check never dereferences nil. */
  lemma HonestServerNeverPanics(i: Inputs, c: ExpandedContext)
    requires HonestMemberships(i.env) && ExpandedTo(i, c, 13)
    ensures ConsistencyCheck(i.ua, i.env.actingUserID, c) != NilDereference
  {
    CheckOfInputs(i, c);
  }

  /** Somebody else's membership makes it do so: team_member at level "all", and no channel member. */
  lemma PanicReachable() returns (i: Inputs)
    ensures NoErrorTo(i, 13) && Panics(i) && BotReady(i)
  {
    var env := Env((g, u) => None, (g, c) => None, (g, c, u) => None, (g, t) => None,
        (g, t, u) => Some(TeamMember(t, "stranger", "")), (g, p) => None,
        None, None, None, None, v => None, "actor", false, None, "en", "");
    var ua := UserAgentContext("", "team", "", "", "user", "", "", "", false);
    var app := App("app", "", "", "", "", "", false, false, false, false);
    i := Inputs(env, app, ua, true, f => if f == TeamMemberField then "all" else "");
    forall f | Index(f) < 13
      ensures ParseExpandLevel(i.levels(f)).Some? && !Obliged(i.levels, f)
    {
      LevelsOfPanic(i, f);
    }
    assert Wanted(i.levels, TeamMemberField) by {
      LevelsOfPanic(i, TeamMemberField);
    }
    assert !Wanted(i.levels, PostField) && !Wanted(i.levels, ChannelField);
  }

  lemma LevelsOfPanic(i: Inputs, f: Field)
    requires i.levels(f) == if f == TeamMemberField then "all" else ""
    ensures ParseExpandLevel(i.levels(f)) == Some(Parsed(false, if f == TeamMemberField then All else NoLevel))
  {
  }
}
