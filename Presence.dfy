/**
 * `getData`: who sits in which voice channel, guild by guild, optionally only the
 * members of the main guild, ordered for display. The bot's answers come in as
 * a `Bot` value; each failure the Go code reports is a `Failed` fault carrying the
 * wrapped error text, and each nil dereference or out-of-range index it would hit
 * is a `Panicked` fault.
 */
module Presence {
  import opened Wrappers
  import opened GoStrings
  import opened Sorting
  import opened Discord

  /** One person in a voice channel, as the bot reports it. */
  datatype User = User(globalName: string, username: string, nick: string, avatar: string)

  datatype Channel = Channel(url: string, name: string, users: seq<User>)

  /** `numMembers` is the unexported count the ordering uses. */
  datatype Guild = Guild(name: string, icon: string, channels: seq<Channel>, numMembers: int)

  datatype Fault = Failed(message: string) | Panicked

  function ChannelUrl(guildId: string, channelId: string): string
  {
    "https://discord.com/channels/" + guildId + "/" + channelId
  }

  function AvatarUrl(userId: string, avatar: string): string
  {
    "http://cdn.discordapp.com/avatars/" + userId + "/" + avatar + ".png"
  }

  function IconUrl(guildId: string, icon: string): string
  {
    "https://cdn.discordapp.com/icons/" + guildId + "/" + icon + ".png"
  }

  // ---- The specification ----

  /** The user IDs of the main guild's members. */
  function MemberIds(members: seq<DMember>): set<string>
  {
    set m | m in members :: m.user.id
  }

  /** Whether the user behind a voice state is listed. */
  predicate Keep(st: VoiceState, onlyGuildies: bool, ids: set<string>)
  {
    !onlyGuildies || st.member.user.id in ids
  }

  /** The listed form of the user behind a voice state; a nil nickname reads "". */
  function UserOf(st: VoiceState): User
  {
    var user := st.member.user;
    User(user.globalName, user.username,
         if st.member.nick.Some? then st.member.nick.value else "",
         AvatarUrl(user.id, user.avatar))
  }

  /** The users listed for a guild, in voice-state order. */
  function KeptUsers(states: seq<VoiceState>, onlyGuildies: bool, ids: set<string>): seq<User>
  {
    if |states| == 0 then []
    else
      var st := states[|states| - 1];
      KeptUsers(states[..|states| - 1], onlyGuildies, ids)
      + (if Keep(st, onlyGuildies, ids) then [UserOf(st)] else [])
  }

  /**
   * The channel a voice state would open, still without users, or what goes wrong
   * looking it up: a nil channel ID, a failed lookup, an empty answer or a nil name.
   */
  function StateChannel(bot: Bot, guildId: string, st: VoiceState): Result<Channel, Fault>
  {
    if st.channelId.None? then Failure(Panicked)
    else match bot.channelsByIds(guildId, st.channelId.value)
      case Failure(e) => Failure(Failed("failed to get channels: " + e))
      case Success(found) =>
        if |found| == 0 || found[0].name.None? then Failure(Panicked)
        else Success(Channel(ChannelUrl(guildId, found[0].id), found[0].name.value, []))
  }

  /** The fault of the first voice state whose channel lookup goes wrong, if any. */
  function StatesFault(bot: Bot, guildId: string, states: seq<VoiceState>): Option<Fault>
  {
    if |states| == 0 then None
    else
      var earlier := StatesFault(bot, guildId, states[..|states| - 1]);
      if earlier.Some? then earlier
      else match StateChannel(bot, guildId, states[|states| - 1])
        case Failure(f) => Some(f)
        case Success(_) => None
  }

  /** A channel with its users in `UserLess` order. */
  function SortUsers(c: Channel): (r: Channel)
    ensures r.url == c.url && r.name == c.name
    ensures SortedBy(r.users, UserLess)
    ensures multiset(r.users) == multiset(c.users)
    ensures |r.users| == |c.users|
  {
    UserLessOrder();
    c.(users := SortBy(c.users, UserLess))
  }

  /** `UserLess` orders users by global name. */
  predicate UserLess(a: User, b: User)
  {
    Less(a.globalName, b.globalName)
  }

  /** `GuildLess` puts more users first, then orders by name. */
  predicate GuildLess(a: Guild, b: Guild)
  {
    if a.numMembers != b.numMembers then a.numMembers > b.numMembers
    else Less(a.name, b.name)
  }

  /**
   * A guild's channel list: every voice state lands in the one map entry keyed by
   * the guild's ID, which keeps the first state's channel.
   */
  function GuildChannels(bot: Bot, guildId: string, states: seq<VoiceState>, kept: seq<User>): seq<Channel>
  {
    if |states| == 0 then []
    else match StateChannel(bot, guildId, states[0])
      case Success(c) => [SortUsers(c.(users := kept))]
      case Failure(_) => []
  }

  /** The entry for one listed guild, or the first fault met while building it. */
  function GuildOf(bot: Bot, guild: DGuild, onlyGuildies: bool, ids: set<string>): Result<Guild, Fault>
  {
    match bot.voiceStates(guild.id)
    case Failure(e) => Failure(Failed("failed to get voice states: " + e))
    case Success(states) =>
      match StatesFault(bot, guild.id, states)
      case Some(f) => Failure(f)
      case None =>
        var kept := KeptUsers(states, onlyGuildies, ids);
        var icon := if guild.icon.Some? then IconUrl(guild.id, guild.icon.value) else "";
        Success(Guild(guild.name, icon, GuildChannels(bot, guild.id, states, kept), |kept|))
  }

  /** The entries for the listed guilds in listing order, or the first fault. */
  function CollectGuilds(bot: Bot, guilds: seq<DGuild>, onlyGuildies: bool, ids: set<string>): Result<seq<Guild>, Fault>
  {
    if |guilds| == 0 then Success([])
    else match CollectGuilds(bot, guilds[..|guilds| - 1], onlyGuildies, ids)
      case Failure(f) => Failure(f)
      case Success(earlier) =>
        match GuildOf(bot, guilds[|guilds| - 1], onlyGuildies, ids)
        case Failure(f) => Failure(f)
        case Success(g) => Success(earlier + [g])
  }

  function Ordered(r: Result<seq<Guild>, Fault>): Result<seq<Guild>, Fault>
  {
    match r
    case Failure(f) => Failure(f)
    case Success(gs) =>
      GuildLessOrder();
      Success(SortBy(gs, GuildLess))
  }

  /**
   * The user IDs the listing is restricted to, fetched only with `onlyGuildies`
   * (without it the set stays empty and is not consulted).
   */
  function MemberFilter(bot: Bot, mainGuildId: string, onlyGuildies: bool): Result<set<string>, Fault>
  {
    if !onlyGuildies then Success({})
    else match bot.guildById(mainGuildId)
      case Failure(e) => Failure(Failed("failed to get guild discord: " + e))
      case Success(mainGuild) =>
        match bot.members(mainGuild.id)
        case Failure(e) => Failure(Failed("failed to get members: " + e))
        case Success(members) => Success(MemberIds(members))
  }

  /** What `getData` answers. */
  function GetDataSpec(bot: Bot, mainGuildId: string, onlyGuildies: bool): Result<seq<Guild>, Fault>
  {
    match MemberFilter(bot, mainGuildId, onlyGuildies)
    case Failure(f) => Failure(f)
    case Success(ids) => Ordered(CollectGuilds(bot, bot.listGuilds, onlyGuildies, ids))
  }

  // ---- The two orders ----

  lemma UserLessOrder()
    ensures StrictWeakOrder(UserLess)
  {
    LessIsStrictTotalOrder();
  }

  lemma GuildLessOrder()
    ensures StrictWeakOrder(GuildLess)
  {
    LessIsStrictTotalOrder();
  }

  // ---- The imperative model ----

  /** The `guildMembersID` set: every member's user ID maps to true. */
  method MarkMembers(members: seq<DMember>) returns (ids: map<string, bool>)
    ensures ids.Keys == MemberIds(members)
    ensures forall k :: k in ids ==> ids[k]
  {
    ids := map[];
    for i := 0 to |members|
      invariant ids.Keys == MemberIds(members[..i])
      invariant forall k :: k in ids ==> ids[k]
    {
      assert members[..i + 1] == members[..i] + [members[i]];
      ids := ids[members[i].user.id := true];
    }
    assert members[..|members|] == members;
  }

  /**
   * The loop over one guild's voice states: every state's channel is looked up,
   * the first one opens the guild's single map entry, and every listed user is
   * appended to it and counted. A fault ends the loop at once.
   */
  method GroupStates(bot: Bot, guildId: string, states: seq<VoiceState>, onlyGuildies: bool, guildMembersID: map<string, bool>)
    returns (fault: Option<Fault>, channelsByGuild: map<string, Channel>, numMembers: int)
    ensures fault == StatesFault(bot, guildId, states)
    ensures fault.None? ==> numMembers == |KeptUsers(states, onlyGuildies, guildMembersID.Keys)|
    ensures fault.None? && |states| == 0 ==> channelsByGuild == map[]
    ensures fault.None? && |states| > 0 ==>
      && StateChannel(bot, guildId, states[0]).Success?
      && channelsByGuild == map[guildId := StateChannel(bot, guildId, states[0]).value.(users := KeptUsers(states, onlyGuildies, guildMembersID.Keys))]
  {
    ghost var ids := guildMembersID.Keys;
    channelsByGuild := map[];
    numMembers := 0;
    for i := 0 to |states|
      invariant StatesFault(bot, guildId, states[..i]) == None
      invariant i > 0 ==> StateChannel(bot, guildId, states[0]).Success?
      invariant channelsByGuild == if i == 0 then map[]
        else map[guildId := StateChannel(bot, guildId, states[0]).value.(users := KeptUsers(states[..i], onlyGuildies, ids))]
      invariant numMembers == |KeptUsers(states[..i], onlyGuildies, ids)|
    {
      var st := states[i];
      assert states[..i + 1][..i] == states[..i];
      if st.channelId.None? {
        StatesFaultPersists(bot, guildId, states, i + 1);
        return Some(Panicked), channelsByGuild, numMembers;
      }
      var dChans := bot.channelsByIds(guildId, st.channelId.value);
      if dChans.Failure? {
        StatesFaultPersists(bot, guildId, states, i + 1);
        return Some(Failed("failed to get channels: " + dChans.error)), channelsByGuild, numMembers;
      }
      if |dChans.value| == 0 || dChans.value[0].name.None? {
        StatesFaultPersists(bot, guildId, states, i + 1);
        return Some(Panicked), channelsByGuild, numMembers;
      }
      var channel := Channel(ChannelUrl(guildId, dChans.value[0].id), dChans.value[0].name.value, []);
      assert StateChannel(bot, guildId, st) == Success(channel);
      assert StatesFault(bot, guildId, states[..i + 1]) == None;
      if guildId in channelsByGuild {
        channel := channelsByGuild[guildId];
      }
      ghost var first := StateChannel(bot, guildId, states[0]).value;
      assert channel == first.(users := KeptUsers(states[..i], onlyGuildies, ids));

      var nick := "";
      if st.member.nick.Some? {
        nick := st.member.nick.value;
      }

      var addUser := true;
      if onlyGuildies {
        addUser := st.member.user.id in guildMembersID;
      }

      assert addUser == Keep(st, onlyGuildies, ids);
      assert KeptUsers(states[..i + 1], onlyGuildies, ids)
          == KeptUsers(states[..i], onlyGuildies, ids) + (if addUser then [UserOf(st)] else []);
      if addUser {
        var user := st.member.user;
        channel := channel.(users := channel.users + [User(user.globalName, user.username, nick, AvatarUrl(user.id, user.avatar))]);
        numMembers := numMembers + 1;
      }

      assert channel == first.(users := KeptUsers(states[..i + 1], onlyGuildies, ids));
      channelsByGuild := channelsByGuild[guildId := channel];
    }
    assert states[..|states|] == states;
    fault := None;
  }

  /**
   * The loop over `channelsByGuild`, which never holds a key but the guild's ID:
   * each channel's users are sorted and the channel is appended to the list.
   */
  method RangeChannels(channelsByGuild: map<string, Channel>, guildId: string) returns (channels: seq<Channel>)
    requires channelsByGuild.Keys <= {guildId}
    ensures channels == if guildId in channelsByGuild then [SortUsers(channelsByGuild[guildId])] else []
  {
    channels := [];
    var rest := channelsByGuild;
    while rest != map[]
      invariant rest.Keys <= channelsByGuild.Keys
      invariant (rest == channelsByGuild && channels == []) || (rest == map[] && channels == if guildId in channelsByGuild then [SortUsers(channelsByGuild[guildId])] else [])
      decreases |rest.Keys|
    {
      var key :| key in rest;
      var c := rest[key];
      UserLessOrder();
      c := c.(users := SortBy(c.users, UserLess));
      channels := channels + [c];
      rest := rest - {key};
      assert rest.Keys == {};
    }
  }

  /** The body of the loop over listed guilds: one guild's entry. */
  method GuildEntry(bot: Bot, guild: DGuild, onlyGuildies: bool, guildMembersID: map<string, bool>)
    returns (r: Result<Guild, Fault>)
    ensures r == GuildOf(bot, guild, onlyGuildies, guildMembersID.Keys)
  {
    var fetched := bot.voiceStates(guild.id);
    if fetched.Failure? {
      return Failure(Failed("failed to get voice states: " + fetched.error));
    }
    var states := fetched.value;
    var fault, channelsByGuild, numMembers := GroupStates(bot, guild.id, states, onlyGuildies, guildMembersID);
    if fault.Some? {
      return Failure(fault.value);
    }
    var channels := RangeChannels(channelsByGuild, guild.id);

    var icon := "";
    if guild.icon.Some? {
      icon := IconUrl(guild.id, guild.icon.value);
    }
    r := Success(Guild(guild.name, icon, channels, numMembers));
  }

  /** `getData`: fetch, aggregate, and order by user count then name. */
  method GetData(bot: Bot, mainGuildId: string, onlyGuildies: bool) returns (r: Result<seq<Guild>, Fault>)
    ensures r == GetDataSpec(bot, mainGuildId, onlyGuildies)
  {
    var guildMembersID: map<string, bool> := map[];
    assert guildMembersID.Keys == {};
    if onlyGuildies {
      var mainGuild := bot.guildById(mainGuildId);
      if mainGuild.Failure? {
        return Failure(Failed("failed to get guild discord: " + mainGuild.error));
      }
      var members := bot.members(mainGuild.value.id);
      if members.Failure? {
        return Failure(Failed("failed to get members: " + members.error));
      }
      guildMembersID := MarkMembers(members.value);
      assert MemberFilter(bot, mainGuildId, onlyGuildies) == Success(MemberIds(members.value));
    }
    ghost var ids := guildMembersID.Keys;
    assert MemberFilter(bot, mainGuildId, onlyGuildies) == Success(ids);

    var listed := bot.listGuilds;
    var guilds: seq<Guild> := [];
    for i := 0 to |listed|
      invariant CollectGuilds(bot, listed[..i], onlyGuildies, ids) == Success(guilds)
    {
      assert listed[..i + 1][..i] == listed[..i];
      var g := GuildEntry(bot, listed[i], onlyGuildies, guildMembersID);
      if g.Failure? {
        CollectFailurePersists(bot, listed, onlyGuildies, ids, i + 1);
        return Failure(g.error);
      }
      CollectedExtend(bot, listed, onlyGuildies, ids, i, guilds, g.value);
      guilds := guilds + [g.value];
    }
    assert listed[..|listed|] == listed;

    GuildLessOrder();
    guilds := SortBy(guilds, GuildLess);
    r := Success(guilds);
  }

  // ---- Properties ----

  /** Once a prefix of the voice states has a fault, so do all the states, the same one. */
  lemma {:induction false} StatesFaultPersists(bot: Bot, guildId: string, states: seq<VoiceState>, j: nat)
    requires j <= |states|
    requires StatesFault(bot, guildId, states[..j]).Some?
    ensures StatesFault(bot, guildId, states) == StatesFault(bot, guildId, states[..j])
    decreases |states|
  {
    if j < |states| {
      var init := states[..|states| - 1];
      assert init[..j] == states[..j];
      StatesFaultPersists(bot, guildId, init, j);
    } else {
      assert states[..j] == states;
    }
  }

  /** Once a prefix of the listed guilds fails, the whole collection fails the same way. */
  lemma {:induction false} CollectFailurePersists(bot: Bot, guilds: seq<DGuild>, onlyGuildies: bool, ids: set<string>, j: nat)
    requires j <= |guilds|
    requires CollectGuilds(bot, guilds[..j], onlyGuildies, ids).Failure?
    ensures CollectGuilds(bot, guilds, onlyGuildies, ids) == CollectGuilds(bot, guilds[..j], onlyGuildies, ids)
    decreases |guilds|
  {
    if j < |guilds| {
      var init := guilds[..|guilds| - 1];
      assert init[..j] == guilds[..j];
      CollectFailurePersists(bot, init, onlyGuildies, ids, j);
    } else {
      assert guilds[..j] == guilds;
    }
  }

  /** Without a fault, every voice state's channel lookup succeeded. */
  lemma {:induction false} NoFaultEveryChannel(bot: Bot, guildId: string, states: seq<VoiceState>, k: nat)
    requires StatesFault(bot, guildId, states) == None
    requires k < |states|
    ensures StateChannel(bot, guildId, states[k]).Success?
    decreases |states|
  {
    if k < |states| - 1 {
      var init := states[..|states| - 1];
      assert init[k] == states[k];
      NoFaultEveryChannel(bot, guildId, init, k);
    }
  }

  /**
   * The users listed are exactly those of the voice states that pass the filter.
   */
  lemma {:induction false} KeptUsersAreTheFiltered(states: seq<VoiceState>, onlyGuildies: bool, ids: set<string>, u: User)
    ensures u in KeptUsers(states, onlyGuildies, ids)
        <==> exists k :: 0 <= k < |states| && Keep(states[k], onlyGuildies, ids) && UserOf(states[k]) == u
    decreases |states|
  {
    if |states| > 0 {
      var init := states[..|states| - 1];
      var last := states[|states| - 1];
      KeptUsersAreTheFiltered(init, onlyGuildies, ids, u);
      if exists k :: 0 <= k < |states| && Keep(states[k], onlyGuildies, ids) && UserOf(states[k]) == u {
        var k :| 0 <= k < |states| && Keep(states[k], onlyGuildies, ids) && UserOf(states[k]) == u;
        if k < |states| - 1 {
          assert init[k] == states[k];
        }
      }
      if exists k :: 0 <= k < |init| && Keep(init[k], onlyGuildies, ids) && UserOf(init[k]) == u {
        var k :| 0 <= k < |init| && Keep(init[k], onlyGuildies, ids) && UserOf(init[k]) == u;
        assert states[k] == init[k];
      }
    }
  }

  /** Without the filter every voice state yields a user, in order. */
  lemma {:induction false} UnfilteredKeepsAll(states: seq<VoiceState>, ids: set<string>)
    ensures |KeptUsers(states, false, ids)| == |states|
    ensures forall k :: 0 <= k < |states| ==> KeptUsers(states, false, ids)[k] == UserOf(states[k])
    decreases |states|
  {
    if |states| > 0 {
      UnfilteredKeepsAll(states[..|states| - 1], ids);
    }
  }

  /** No more users are listed than there are voice states. */
  lemma {:induction false} KeptUsersBound(states: seq<VoiceState>, onlyGuildies: bool, ids: set<string>)
    ensures |KeptUsers(states, onlyGuildies, ids)| <= |states|
    decreases |states|
  {
    if |states| > 0 {
      KeptUsersBound(states[..|states| - 1], onlyGuildies, ids);
    }
  }

  /**
   * The shape of one guild's entry: no channel without voice states, else exactly
   * one, the first state's channel, holding the listed users ordered by global name;
   * the guild's count is the number of those users.
   */
  lemma GuildEntryShape(bot: Bot, guild: DGuild, onlyGuildies: bool, ids: set<string>, g: Guild)
    requires GuildOf(bot, guild, onlyGuildies, ids) == Success(g)
    ensures bot.voiceStates(guild.id).Success?
    ensures g.name == guild.name
    ensures g.icon == (if guild.icon.Some? then IconUrl(guild.id, guild.icon.value) else "")
    ensures var states := bot.voiceStates(guild.id).value;
      var kept := KeptUsers(states, onlyGuildies, ids);
      && g.numMembers == |kept|
      && (|states| == 0 ==> g.channels == [])
      && (|states| > 0 ==>
            && StateChannel(bot, guild.id, states[0]).Success?
            && |g.channels| == 1
            && g.channels[0].url == StateChannel(bot, guild.id, states[0]).value.url
            && g.channels[0].name == StateChannel(bot, guild.id, states[0]).value.name
            && SortedBy(g.channels[0].users, UserLess)
            && multiset(g.channels[0].users) == multiset(kept)
            && |g.channels[0].users| == |kept|)
  {
    var states := bot.voiceStates(guild.id).value;
    if |states| > 0 {
      NoFaultEveryChannel(bot, guild.id, states, 0);
    }
  }

  /** What every guild entry satisfies, whatever the voice states. */
  ghost predicate WellFormed(g: Guild)
  {
    && |g.channels| <= 1
    && (|g.channels| == 0 ==> g.numMembers == 0)
    && (forall c :: c in g.channels ==> g.numMembers == |c.users| && SortedBy(c.users, UserLess))
  }

  lemma GuildEntryWellFormed(bot: Bot, guild: DGuild, onlyGuildies: bool, ids: set<string>, g: Guild)
    requires GuildOf(bot, guild, onlyGuildies, ids) == Success(g)
    ensures WellFormed(g)
  {
    GuildEntryShape(bot, guild, onlyGuildies, ids, g);
    var states := bot.voiceStates(guild.id).value;
    var kept := KeptUsers(states, onlyGuildies, ids);
    if |states| == 0 {
      assert kept == [];
    } else {
      var c := g.channels[0];
      assert g.channels == [c];
    }
  }

  /** One more successful guild extends a successful collection by its entry. */
  lemma CollectedExtend(bot: Bot, guilds: seq<DGuild>, onlyGuildies: bool, ids: set<string>, i: nat, gs: seq<Guild>, g: Guild)
    requires i < |guilds|
    requires CollectGuilds(bot, guilds[..i], onlyGuildies, ids) == Success(gs)
    requires GuildOf(bot, guilds[i], onlyGuildies, ids) == Success(g)
    ensures CollectGuilds(bot, guilds[..i + 1], onlyGuildies, ids) == Success(gs + [g])
  {
    assert guilds[..i + 1][..i] == guilds[..i];
    assert guilds[..i + 1][i] == guilds[i];
  }

  /** Unfolding one step of a successful collection. */
  lemma CollectedStep(bot: Bot, guilds: seq<DGuild>, onlyGuildies: bool, ids: set<string>, gs: seq<Guild>)
    requires CollectGuilds(bot, guilds, onlyGuildies, ids) == Success(gs)
    requires |guilds| > 0
    ensures |gs| > 0
    ensures CollectGuilds(bot, guilds[..|guilds| - 1], onlyGuildies, ids) == Success(gs[..|gs| - 1])
    ensures GuildOf(bot, guilds[|guilds| - 1], onlyGuildies, ids) == Success(gs[|gs| - 1])
  {
    var prev := CollectGuilds(bot, guilds[..|guilds| - 1], onlyGuildies, ids);
    var last := GuildOf(bot, guilds[|guilds| - 1], onlyGuildies, ids);
    assert prev.Success? && last.Success? && gs == prev.value + [last.value];
    assert gs[..|gs| - 1] == prev.value;
  }

  /** The collected entries follow the listed guilds one for one. */
  lemma {:induction false} CollectedLength(bot: Bot, guilds: seq<DGuild>, onlyGuildies: bool, ids: set<string>, gs: seq<Guild>)
    requires CollectGuilds(bot, guilds, onlyGuildies, ids) == Success(gs)
    ensures |gs| == |guilds|
    decreases |guilds|
  {
    if |guilds| > 0 {
      CollectedStep(bot, guilds, onlyGuildies, ids, gs);
      CollectedLength(bot, guilds[..|guilds| - 1], onlyGuildies, ids, gs[..|gs| - 1]);
    }
  }

  /** The entry at position `k` is the entry for the `k`-th listed guild. */
  lemma {:induction false} CollectedEntry(bot: Bot, guilds: seq<DGuild>, onlyGuildies: bool, ids: set<string>, gs: seq<Guild>, k: nat)
    requires CollectGuilds(bot, guilds, onlyGuildies, ids) == Success(gs)
    requires k < |guilds|
    ensures k < |gs| && GuildOf(bot, guilds[k], onlyGuildies, ids) == Success(gs[k])
    decreases |guilds|
  {
    CollectedLength(bot, guilds, onlyGuildies, ids, gs);
    CollectedStep(bot, guilds, onlyGuildies, ids, gs);
    if k < |guilds| - 1 {
      CollectedEntry(bot, guilds[..|guilds| - 1], onlyGuildies, ids, gs[..|gs| - 1], k);
    }
  }

  /**
   * `getData`'s answer: one entry per listed guild, ordered by user count then name,
   * each with at most one channel whose users are ordered by global name and counted
   * by the guild's `numMembers`.
   */
  lemma GetDataResult(bot: Bot, mainGuildId: string, onlyGuildies: bool, gs: seq<Guild>)
    requires GetDataSpec(bot, mainGuildId, onlyGuildies) == Success(gs)
    ensures |gs| == |bot.listGuilds|
    ensures forall i, j :: 0 <= i < j < |gs| ==>
      gs[i].numMembers >= gs[j].numMembers
      && (gs[i].numMembers == gs[j].numMembers ==> !Less(gs[j].name, gs[i].name))
    ensures forall g :: g in gs ==> WellFormed(g)
    ensures forall g :: g in gs ==> exists k :: 0 <= k < |bot.listGuilds| && g.name == bot.listGuilds[k].name
  {
    var ids := MemberFilter(bot, mainGuildId, onlyGuildies).value;
    var unsorted := CollectGuilds(bot, bot.listGuilds, onlyGuildies, ids).value;
    CollectedLength(bot, bot.listGuilds, onlyGuildies, ids, unsorted);
    assert multiset(gs) == multiset(unsorted);
    assert |gs| == |multiset(gs)| == |multiset(unsorted)| == |unsorted|;
    forall g | g in gs
      ensures WellFormed(g)
      ensures exists k :: 0 <= k < |bot.listGuilds| && g.name == bot.listGuilds[k].name
    {
      assert g in multiset(unsorted);
      var k :| 0 <= k < |unsorted| && unsorted[k] == g;
      CollectedEntry(bot, bot.listGuilds, onlyGuildies, ids, unsorted, k);
      GuildEntryWellFormed(bot, bot.listGuilds[k], onlyGuildies, ids, g);
      GuildEntryShape(bot, bot.listGuilds[k], onlyGuildies, ids, g);
    }
    forall i, j | 0 <= i < j < |gs|
      ensures gs[i].numMembers >= gs[j].numMembers
      ensures gs[i].numMembers == gs[j].numMembers ==> !Less(gs[j].name, gs[i].name)
    {
      assert !GuildLess(gs[j], gs[i]);
    }
  }

  /**
   * `getData`'s answer is a permutation of the listed guilds' entries, each entry
   * occurring once per listing of its guild.
   */
  lemma GetDataEntries(bot: Bot, mainGuildId: string, onlyGuildies: bool, gs: seq<Guild>)
    requires GetDataSpec(bot, mainGuildId, onlyGuildies) == Success(gs)
    ensures MemberFilter(bot, mainGuildId, onlyGuildies).Success?
    ensures var ids := MemberFilter(bot, mainGuildId, onlyGuildies).value;
      exists unsorted ::
        && CollectGuilds(bot, bot.listGuilds, onlyGuildies, ids) == Success(unsorted)
        && |unsorted| == |bot.listGuilds|
        && (forall k :: 0 <= k < |unsorted| ==> GuildOf(bot, bot.listGuilds[k], onlyGuildies, ids) == Success(unsorted[k]))
        && multiset(gs) == multiset(unsorted)
  {
    var ids := MemberFilter(bot, mainGuildId, onlyGuildies).value;
    var unsorted := CollectGuilds(bot, bot.listGuilds, onlyGuildies, ids).value;
    CollectedLength(bot, bot.listGuilds, onlyGuildies, ids, unsorted);
    forall k | 0 <= k < |unsorted|
      ensures GuildOf(bot, bot.listGuilds[k], onlyGuildies, ids) == Success(unsorted[k])
    {
      CollectedEntry(bot, bot.listGuilds, onlyGuildies, ids, unsorted, k);
    }
    assert multiset(gs) == multiset(unsorted);
  }

  /** With `onlyGuildies`, every listed user is a main-guild member's voice state. */
  lemma OnlyMembersListed(states: seq<VoiceState>, ids: set<string>, u: User)
    requires u in KeptUsers(states, true, ids)
    ensures exists k :: 0 <= k < |states| && states[k].member.user.id in ids && UserOf(states[k]) == u
  {
    KeptUsersAreTheFiltered(states, true, ids, u);
  }
}
