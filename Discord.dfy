/**
 * The part of the godiscord library the bot talks to. The library itself is not part
 * of this model: each lookup is a map and each request is a function from its
 * arguments to the answer the platform gives (a value or an error's text).
 */
module Discord {
  import opened Wrappers

  datatype Author = Author(id: string, username: string)

  /** An embed; title and description are pointers in the library, hence optional. */
  datatype Embed = Embed(title: Option<string>, description: Option<string>)

  /** A `MessageCreate` event: who wrote it, where, and its embeds. */
  datatype MessageCreate = MessageCreate(channelId: string, author: Author, embeds: seq<Embed>)

  datatype Message = Message(id: string)

  /** A channel record; its name is a pointer in the library. */
  datatype DChannel = DChannel(id: string, name: Option<string>)

  datatype CreateThreadRequest = CreateThreadRequest(name: string, autoArchiveDuration: Option<int>)

  /** What the relay's `*godiscord.Fetcher` answers. */
  datatype Fetcher = Fetcher(
    channelsById: map<string, DChannel>,
    channelsByName: map<string, DChannel>,
    sendEmbeds: (string, seq<Embed>) -> Result<Message, string>,
    createThread: (string, string, CreateThreadRequest) -> Result<DChannel, string>)

  datatype DUser = DUser(id: string, username: string, globalName: string, avatar: string)

  /** A guild member; the nickname is a pointer in the library. */
  datatype DMember = DMember(user: DUser, nick: Option<string>)

  /** A voice state; the channel ID is a pointer in the library. */
  datatype VoiceState = VoiceState(channelId: Option<string>, member: DMember)

  /** A guild; its icon hash is a pointer in the library. */
  datatype DGuild = DGuild(id: string, name: string, icon: Option<string>)

  /** What the `*godiscord.Bot` handed to `getData` answers. */
  datatype Bot = Bot(
    guildById: string -> Result<DGuild, string>,
    members: string -> Result<seq<DMember>, string>,
    listGuilds: seq<DGuild>,
    voiceStates: string -> Result<seq<VoiceState>, string>,
    channelsByIds: (string, string) -> Result<seq<DChannel>, string>)
}
