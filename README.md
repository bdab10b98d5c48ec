# whereyouat in Dafny

A model of the core of `main.go` of the whereyouat Discord bot, with proofs about it. The core has three parts:

- **Application relay** (`Relay`). This is the `MessageCreate` listener. It recognises an application that the form bot "Appy" posts in the "applications" channel. It splits the embed description on `###`, drops the piece at position 5 (the applicant's Discord tag) and republishes the rest as an "Application received" embed in the public applications channel. Then it opens a thread on that message. The thread is named after the second line of the second piece, cut to 15 bytes, and archives after 1440 minutes.
- **Token-price alert** (`TokenAlert`). This is one tick of the poller goroutine. A `TokenPoller` object holds `lastToken`. A tick posts to "Pixelbased Lifeforms"/"wow-token" only when both the timestamp and the price differ from the remembered token. The first form is "bot startup". Later alerts carry the gold price and the signed difference, both truncated toward zero. Every tick then remembers the fetched token. A failed fetch is remembered as the zero token.
- **Voice presence** (`Presence`). This is `getData`. For every guild the bot is in, it fetches the voice states. It files every state under the guild's ID, so a guild has at most one channel: the first state's. It keeps the users, optionally only members of the main guild, and counts them. It sorts each channel's users by global name, and sorts the guilds by user count (descending) and then by name.

Supporting modules:

- `GoStrings` holds the Go library behaviour the core relies on:
  - `strings.Index`, `strings.Split` and `strings.Join` with a non-empty separator;
  - `%d` formatting;
  - bytewise string `<`.
- `Sorting` models `sort.Slice` as an ordered permutation.
- `Discord` models the godiscord values and calls. The library's answers are inputs: the relay's `Fetcher` is two lookup maps plus two request functions, and `getData`'s `Bot` is its five requests.
- `Wrappers` holds `Option` and `Result`.

Conventions:

- `toPtr` (main.go:28-30) is `ToPtr`, which gives `Some(t)`. A Go pointer field is an `Option`, and nil is `None`.
- A string is a `seq<char>` where each `char` stands for one byte, as Go's `len` and slicing count bytes.

Panics are modelled as explicit outcomes, not excluded by preconditions:

- The relay returns `Panicked` in two kinds of case. The first is a nil description. The second comes after the notice has been sent: too few pieces or lines for the thread name, or a failed `CreateThread`.
- In the relay, the sends that happened before the panic stay in the recorded trace of calls.
- `getData` answers `Failure(Panicked)` for a nil channel ID, an empty channel list or a nil channel name.

Constants and error paths fixed by the code:

- The delimiter `###`, the dropped position 5, the second line of the name piece and the limit of 15 bytes are constants (main.go:107-108, 130-132).
- An unresolved public channel makes the listener return an error (main.go:115-118).

Behaviours that follow from the code and are proved here:

- A failed token fetch after a known token is itself announced, as a price of 0g (`FailedFetchAnnounced`).
- The next token after a failed fetch is announced in the "bot startup" form (`AfterFailedFetch`).
- With `onlyGuildies`, a guild whose voice users are all outsiders still lists its channel, with no users (`GuildEntryShape`).

## Model

| member | source | states |
|---|---|---|
| GoStrings.Split | main.go:107 | `strings.Split` with a non-empty separator: the pieces between occurrences, at least one. `JoinSplit`, `SplitPiecesSeparatorFree`, `SplitMoreThanOne` and `SplitJoin` state what the pieces are. |
| GoStrings.Join | main.go:123 | `strings.Join`: the parts with the separator between each two. `JoinSplit`, `SplitJoin` and `JoinAppend` relate it to `Split`. |
| GoStrings.Index | main.go:107 | The result is the position of the first occurrence of the separator, or -1 exactly when it does not occur. |
| GoStrings.JoinSplit | main.go:106-123 | Joining the pieces of a split with the same separator rebuilds the original string. |
| GoStrings.SplitPiecesSeparatorFree | main.go:107 | No piece of a split contains the separator. |
| GoStrings.SplitMoreThanOne | main.go:130-131 | A split has at least two pieces exactly when the separator occurs in the string. |
| GoStrings.IndexOfByte | main.go:130-131 | A one-byte separator occurs exactly when that byte is in the string. |
| GoStrings.SplitJoin | main.go:106-123 | Splitting a join gives the parts back, when no part contains the separator's first byte. |
| GoStrings.JoinAppend | main.go:123 | Joining two non-empty concatenated lists is joining each and gluing them with one separator. |
| GoStrings.Itoa | main.go:176-178 | `%d` on an integer: a '-' for negatives, then the decimal digits. `ItoaSign` and `ItoaRoundTrip` state its shape and that it parses back. |
| GoStrings.ItoaSign | main.go:176-178 | `%d` text is non-empty, starts with '-' exactly for negatives, and is "0" exactly for zero. |
| GoStrings.ItoaRoundTrip | main.go:176-178 | Parsing the `%d` text of an integer gives that integer back. |
| GoStrings.Less | main.go:362 | Go's string `<`: bytewise comparison, a proper prefix being smaller. `LessIrreflexive`, `LessTransitive`, `LessTotal` and `LessIsStrictTotalOrder` state that it is a strict total order. |
| GoStrings.LessIrreflexive | main.go:339 | No string is `<` itself. |
| GoStrings.LessTransitive | main.go:339 | Go's string `<` is transitive. |
| GoStrings.LessTotal | main.go:362 | Of two distinct strings, one is `<` the other. |
| GoStrings.LessIsStrictTotalOrder | main.go:338-340 | String `<` is a strict total order, which is what `sort.Slice` needs. |
| Sorting.SortBy | main.go:357-363 | For a strict weak order, the result is sorted by it and is a permutation of the input of the same length. |
| Relay.ToPtr | main.go:28-30 | `toPtr`: a present (non-nil) value holding its argument. |
| Relay.RedactedDescription | main.go:106-123 | The republished description: the split on `###` without the piece at position 5, joined by `###`. `FilterRows` computes it, and `ShortDescriptionUnchanged`, `JoinWithoutSection`, `TagSectionDropped` and `ExampleRedaction` state what it keeps and drops. |
| Relay.EmbedCountLine | main.go:102 | The line printed for a wrong embed count, "got %d embeds". `ExampleEmbedCountLine` shows it for two embeds. |
| Relay.WithoutSection | main.go:106-113 | Dropping position k leaves n-1 pieces when k < n, else n. Every other piece is kept, in order. |
| Relay.WithoutSectionMultiset | main.go:106-113 | Only the dropped piece is lost. |
| Relay.FilterRows | main.go:106-113 | The loop builds exactly the split pieces without the one at position 5. |
| Relay.ThreadName | main.go:130-132 | A name exists exactly when there are two pieces and the second has a newline. It is a prefix of that piece's second line, of length min(len, 15), so at most 15 bytes and with no newline. |
| Relay.OnMessageCreate | main.go:81-142 | The full trace is fixed by the inputs. (1) A non-qualifying message makes no send and no thread call; only a wrong embed count prints the count; a nil description panics before any call. (2) An unresolved public channel errors before any send. (3) Otherwise exactly one redacted notice is sent to the public channel. A send error is wrapped and returned with no thread call. (4) Then either a thread is requested on that channel and message with the derived name and a 1440-minute archive, panicking when that request fails, or the name lookup panics. |
| Relay.ShortDescriptionUnchanged | main.go:106-123 | A description of at most five pieces is republished unchanged. |
| Relay.JoinWithoutSection | main.go:106-123 | Dropping a non-first piece from a join removes exactly that piece and the delimiter before it. |
| Relay.TagSectionDropped | main.go:106-123 | For six or more pieces, the original is prefix ### tag [### rest] and the republished text is prefix [### rest]. |
| Relay.ThreadNameFromNameSection | main.go:106-132 | The thread name comes from the original second piece, which the redaction never removes. |
| Relay.SplitCleanHead | main.go:107 | Splitting a string whose first piece is free of the separator's first byte gives that piece followed by the split of the rest. |
| Relay.BotFormatThreadName | main.go:106-132 | For a description laid out as `###` question, newline, name, newline, `###` and the rest, with no '#' or newline in the question or the name, the thread name is the name cut to 15 bytes. |
| Relay.ExampleBotFormatThreadName | main.go:32-62 | For the form bot's layout with the 30-byte name "aoeuaoeuaoeuoeuoeuaoeuaoeuaoeu", the thread name is its first 15 bytes, "aoeuaoeuaoeuoeu". |
| Relay.ExampleRedaction | main.go:106-123 | A twelve-piece application loses exactly its sixth field. |
| Relay.ExampleEmbedCountLine | main.go:101-103 | A message with two embeds prints "got 2 embeds". |
| TokenAlert.TokenOf | main.go:163-166 | The token the tick goes on with: the fetched one, or the zero token that `GetToken` returns with its error. `AfterFailedFetch` and `FailedFetchAnnounced` state what that zero token leads to. |
| TokenAlert.AlertText | main.go:168-179 | The alert text: the startup form when the remembered token has no timestamp, else the updated form with the signed difference. `StartupFormIffNoTimestamp`, `DiffTextSign` and the examples state its forms. |
| TokenAlert.ToGold | main.go:168-178 | Division by 10000 truncates toward zero, bounded above and below for each sign. |
| TokenAlert.Alert | main.go:167-180 | A post is made exactly when the timestamp and the price both changed, always to "Pixelbased Lifeforms"/"wow-token". |
| TokenAlert.TokenPoller.constructor | main.go:156 | The poller starts from the zero token. |
| TokenAlert.TokenPoller.Tick | main.go:160-187 | The post is the alert for the remembered and the fetched token, and afterwards the fetched token (the zero token on error) is remembered. |
| TokenAlert.TokenPoller.Run | main.go:156-187 | Over a run of ticks, the posts are the alerts in order, and the last fetched token is remembered. |
| TokenAlert.GoldDiffSign | main.go:168-172 | The difference is positive exactly for a rise of a whole gold or more, negative exactly for such a fall, and 0 otherwise. |
| TokenAlert.DiffTextSign | main.go:168-178 | A "+" is written exactly for a positive difference; a negative one carries its own "-". |
| TokenAlert.StartupFormIffNoTimestamp | main.go:175-179 | The "(bot startup)" form is used exactly when the remembered token has no timestamp. |
| TokenAlert.AfterFailedFetch | main.go:163-186 | After a failed fetch, the next real token is announced, in the startup form. |
| TokenAlert.FailedFetchAnnounced | main.go:163-186 | A failed fetch after a known token posts "price updated: 0g" with the whole price as the fall. |
| TokenAlert.ExampleFall | main.go:167-179 | A fall of 2.5 gold reads "(-2)", not "(-3)". |
| TokenAlert.ExampleRise | main.go:167-179 | A rise of 1.2345 gold reads "(+1)". |
| TokenAlert.ExampleStartup | main.go:175-176 | The first token reads "Wow token price: 250g (bot startup)". |
| TokenAlert.ExampleSameTimestamp | main.go:167 | A new price under the same timestamp is not posted. |
| Presence.UserOf | main.go:313-329 | The user listed for a voice state: global name, user name, nickname or "" when nil, and the avatar URL. `KeptUsersAreTheFiltered` and `UnfilteredKeepsAll` state which states give users. |
| Presence.StateChannel | main.go:299-307 | The channel of one voice state: it panics on a nil channel ID, an empty answer or a nil name, and wraps a request error as "failed to get channels: ". `NoFaultEveryChannel` and `StatesFaultPersists` state how its faults reach the guild. |
| Presence.GuildOf | main.go:290-354 | One guild's entry or its first fault. `GuildEntry` computes it, and `GuildEntryShape` and `GuildEntryWellFormed` state its shape. |
| Presence.GetDataSpec | main.go:269-366 | The whole answer or the first error in call order. `GetData` computes it, and `GetDataResult`, `GetDataEntries` and `OnlyMembersListed` state its properties. |
| Presence.SortUsers | main.go:337-341 | The channel keeps its URL and name, and its users become an ordered permutation by global name. |
| Presence.UserLessOrder | main.go:338-340 | Ordering users by global name is a strict weak order. |
| Presence.GuildLessOrder | main.go:357-363 | Ordering by user count (descending) and then by name is a strict weak order. |
| Presence.MarkMembers | main.go:282-284 | The map's keys are exactly the members' user IDs, all mapped to true. |
| Presence.GroupStates | main.go:296-334 | The loop fails with the first state's fault. Otherwise it counts the kept users. The map is empty without states, or else holds only the guild's ID, mapped to the first state's channel with all kept users in order. |
| Presence.RangeChannels | main.go:336-342 | Ranging over a map keyed only by the guild's ID yields no channel, or that one channel with its users sorted. |
| Presence.GuildEntry | main.go:290-354 | One guild's entry, or the guild's first fault, is `GuildOf`. |
| Presence.GetData | main.go:269-366 | The answer, or the first error in call order, is `GetDataSpec`. |
| Presence.StatesFaultPersists | main.go:298-302 | A fault in a prefix of the voice states is the fault of the whole guild. |
| Presence.CollectFailurePersists | main.go:290-294 | A failure on a prefix of the listed guilds is the failure of the whole call. |
| Presence.NoFaultEveryChannel | main.go:299-307 | Without a fault, every voice state's channel lookup succeeded. |
| Presence.KeptUsersAreTheFiltered | main.go:318-331 | The listed users are exactly those of the voice states that pass the membership filter. |
| Presence.OnlyMembersListed | main.go:318-321 | With `onlyGuildies`, every listed user belongs to a state whose user ID is a main-guild member. |
| Presence.UnfilteredKeepsAll | main.go:318-331 | Without the filter, every voice state yields its user, in order. |
| Presence.KeptUsersBound | main.go:323-331 | No more users are counted than there are voice states. |
| Presence.GuildEntryShape | main.go:296-354 | No channel without voice states. Otherwise exactly one channel: the first state's URL and name, and the kept users sorted by global name. `numMembers` counts those users, and the name and icon follow the guild. |
| Presence.GuildEntryWellFormed | main.go:296-354 | An entry has at most one channel, and its user count equals that channel's users, or 0 without a channel. |
| Presence.CollectedExtend | main.go:290-355 | A successful collection followed by one more successful guild is the collection extended by that guild's entry. |
| Presence.CollectedStep | main.go:290-355 | A successful collection is the collection of the earlier guilds plus the last guild's entry. |
| Presence.CollectedLength | main.go:290-355 | There is one entry per listed guild. |
| Presence.CollectedEntry | main.go:290-355 | The k-th entry is the k-th listed guild's. |
| Presence.GetDataResult | main.go:269-366 | The answer has as many entries as there are listed guilds, ordered by user count (descending) and then name. Each entry is well formed and named after a listed guild. |
| Presence.GetDataEntries | main.go:269-366 | The member filter succeeded, and the answer is a permutation of the unsorted entries, the k-th of which is `GuildOf` the k-th listed guild. |

## Left out

- The token client in `wowah.go` (OAuth, expiry, JSON decoding) is not part of this model. The fetched token, or the error, is the input of a tick.
- The HTTP handlers `Index` and `GetUsers` (main.go:225-267) are left out. They are template rendering, JSON marshalling and status codes.
- The `main` plumbing is left out: reading env.json, building the bot, `bot.Run` in a goroutine, the 30-second ticker and the HTTP server (main.go:64-80, 143-158, 189-199). `Env` is a datatype with the configuration fields; `WowAHTokenChannel` is never read by the code.
- The godiscord library is not part of this model. Its lookups and requests are inputs, and the relay's outbound calls are a recorded list of `Call` values.
- Logging through `fmt.Printf` is modelled only for the embed-count line. The `slog` lines and the ignored error of `SendMessage` (main.go:162-165, 180-184) are left out.
- Go's 64-bit `int` wrap-around is not modelled. Prices and timestamps are unbounded integers.
- Presence.GetData: the model fixes one order among entries that tie on user count and name, and among users with the same global name. Go's `sort.Slice` is unstable, so only sortedness and permutation are promised, which is what `GetDataResult`, `GetDataEntries` and `SortUsers` state.
- Presence.RangeChannels: users are sorted as a value, not in place through the map's pointer.
- Each request in `Discord` is a function of its arguments, so its answer is fixed for the length of one call. Two voice states in the same channel get the same `GetChannelsByIDs` answer within one `getData`, whereas the real library makes a fresh request per state (main.go:299), and a later request can fail where an earlier one succeeded.
- Map iteration order in `getData` does not matter, because the map holds at most one key.
- Relay.OnMessageCreate: a Go panic is the outcome `Panicked`. What a panic does to the process afterwards is left out.
