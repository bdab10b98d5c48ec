/**
 * The `MessageCreate` listener of main.go: it recognises an application posted by the
 * form bot in the "applications" channel, republishes it without the applicant's
 * Discord tag and opens a discussion thread on the new message.
 */
module Relay {
  import opened Wrappers
  import opened GoStrings
  import opened Discord

  /** The bot's configuration, read from env.json. */
  datatype Env = Env(
    token: string,
    mainGuildId: string,
    selfId: string,
    publicApplicationChannel: string,
    wowAHClientId: string,
    wowAHClientSecret: string,
    wowAHTokenChannel: string)

  const ApplicationsChannel := "applications"
  const FormBotName := "Appy"
  const Delimiter := "###"
  /** Position, among the pieces of the split description, of the Discord tag. */
  const TagSection := 5
  const NoticeTitle := "Application received"
  const ThreadNameLimit := 15
  const ThreadArchiveMinutes := 1440

  /** An outbound action, in the order the listener performs it. */
  datatype Call =
    | Printed(line: string)
    | SendEmbeds(channelId: string, embeds: seq<Embed>)
    | CreateThread(channelId: string, messageId: string, request: CreateThreadRequest)

  /** How the listener ends: returns nil, returns an error, or panics. */
  datatype Outcome = Handled | Errored(message: string) | Panicked

  /** `toPtr`: a pointer to a copy of a value is, for the model, that value present. */
  function ToPtr<T>(t: T): Option<T> { Some(t) }

  predicate FromApplicationsChannel(f: Fetcher, de: MessageCreate)
  {
    de.channelId in f.channelsById && f.channelsById[de.channelId].name == Some(ApplicationsChannel)
  }

  predicate FromFormBot(env: Env, de: MessageCreate)
  {
    de.author.id != env.selfId && de.author.username == FormBotName
  }

  /** A qualifying application message. */
  predicate Qualifies(env: Env, f: Fetcher, de: MessageCreate)
  {
    FromApplicationsChannel(f, de) && FromFormBot(env, de) && |de.embeds| == 1
  }

  predicate NoDownstreamCall(calls: seq<Call>)
  {
    forall i :: 0 <= i < |calls| ==> calls[i].Printed?
  }

  /** `rows` with the piece at position `k` removed, every other piece kept in order. */
  function WithoutSection(rows: seq<string>, k: nat): (r: seq<string>)
    ensures |r| == if k < |rows| then |rows| - 1 else |rows|
    ensures forall j :: 0 <= j < |r| ==> r[j] == rows[if j < k then j else j + 1]
  {
    if k < |rows| then rows[..k] + rows[k + 1..] else rows
  }

  /** Only the removed piece is lost. */
  lemma WithoutSectionMultiset(rows: seq<string>, k: nat)
    requires k < |rows|
    ensures multiset(WithoutSection(rows, k)) + multiset{rows[k]} == multiset(rows)
  {
    assert rows == rows[..k] + [rows[k]] + rows[k + 1..];
  }

  /** The loop building `filteredRows`. */
  method FilterRows(rows: seq<string>) returns (filtered: seq<string>)
    ensures filtered == WithoutSection(rows, TagSection)
  {
    filtered := [];
    var i := 0;
    while i < |rows|
      invariant 0 <= i <= |rows|
      invariant filtered == WithoutSection(rows[..i], TagSection)
    {
      if i != TagSection {
        filtered := filtered + [rows[i]];
      }
      assert rows[..i + 1] == rows[..i] + [rows[i]];
      i := i + 1;
    }
    assert rows[..|rows|] == rows;
  }

  /** The description republished for an application whose description is `desc`. */
  function RedactedDescription(desc: string): string
  {
    Join(WithoutSection(Split(desc, Delimiter), TagSection), Delimiter)
  }

  function Notice(desc: string): Embed
  {
    Embed(ToPtr(NoticeTitle), ToPtr(desc))
  }

  /** The line printed for a message with `n` embeds. */
  function EmbedCountLine(n: nat): string
  {
    "got " + Itoa(n) + " embeds\n"
  }

  /**
   * The thread name taken from the second line of the second filtered piece, cut to
   * 15 bytes; None where Go indexes out of range and panics.
   */
  function ThreadName(rows: seq<string>): (r: Option<string>)
    ensures r.Some? <==> |rows| >= 2 && '\n' in rows[1]
    ensures r.Some? ==>
      var lines := Split(rows[1], "\n");
      && |lines| >= 2
      && |r.value| == Min(|lines[1]|, ThreadNameLimit)
      && r.value == lines[1][..|r.value|]
    ensures r.Some? ==> |r.value| <= ThreadNameLimit && '\n' !in r.value
  {
    if |rows| < 2 then None
    else
      var lines := Split(rows[1], "\n");
      SplitMoreThanOne(rows[1], "\n");
      IndexOfByte(rows[1], '\n');
      if |lines| < 2 then None
      else
        var line := lines[1];
        SplitPiecesSeparatorFree(rows[1], "\n");
        IndexOfByte(line, '\n');
        var name := line[..Min(|line|, ThreadNameLimit)];
        Some(name)
  }

  /** The listener registered with `RegisterEventListener`. */
  method OnMessageCreate(env: Env, f: Fetcher, de: MessageCreate) returns (outcome: Outcome, calls: seq<Call>)
    ensures !Qualifies(env, f, de) ==> outcome == Handled && NoDownstreamCall(calls)
    ensures !FromApplicationsChannel(f, de) || !FromFormBot(env, de) ==> calls == []
    ensures FromApplicationsChannel(f, de) && FromFormBot(env, de) && |de.embeds| != 1 ==>
      calls == [Printed(EmbedCountLine(|de.embeds|))]
    ensures Qualifies(env, f, de) && de.embeds[0].description.None? ==>
      outcome == Panicked && calls == []
    ensures Qualifies(env, f, de) && de.embeds[0].description.Some? &&
            env.publicApplicationChannel !in f.channelsByName ==>
      outcome == Errored("public application channel not found") && calls == []
    ensures Qualifies(env, f, de) && de.embeds[0].description.Some? &&
            env.publicApplicationChannel in f.channelsByName ==>
      var desc := de.embeds[0].description.value;
      var public := f.channelsByName[env.publicApplicationChannel].id;
      var embeds := [Notice(RedactedDescription(desc))];
      1 <= |calls| <= 2 && calls[0] == SendEmbeds(public, embeds) &&
      match f.sendEmbeds(public, embeds)
      case Failure(e) => outcome == Errored("failed to send embeds: " + e) && |calls| == 1
      case Success(msg) =>
        match ThreadName(WithoutSection(Split(desc, Delimiter), TagSection))
        case None => outcome == Panicked && |calls| == 1
        case Some(name) =>
          var request := CreateThreadRequest(name, Some(ThreadArchiveMinutes));
          && calls == [calls[0], CreateThread(public, msg.id, request)]
          && outcome == if f.createThread(public, msg.id, request).Failure? then Panicked else Handled
  {
    if de.channelId !in f.channelsById {
      // A thread, not a channel.
      return Handled, [];
    }
    var c := f.channelsById[de.channelId];
    if c.name.None? || c.name.value != ApplicationsChannel {
      return Handled, [];
    }
    if de.author.id == env.selfId {
      return Handled, [];
    }
    if de.author.username != FormBotName {
      return Handled, [];
    }
    if |de.embeds| != 1 {
      return Handled, [Printed(EmbedCountLine(|de.embeds|))];
    }
    var description := de.embeds[0].description;
    if description.None? {
      return Panicked, [];
    }
    var filteredRows := FilterRows(Split(description.value, Delimiter));

    if env.publicApplicationChannel !in f.channelsByName {
      return Errored("public application channel not found"), [];
    }
    var publicChannel := f.channelsByName[env.publicApplicationChannel];
    var embeds := [Embed(ToPtr(NoticeTitle), ToPtr(Join(filteredRows, Delimiter)))];
    calls := [SendEmbeds(publicChannel.id, embeds)];
    var sent := f.sendEmbeds(publicChannel.id, embeds);
    if sent.Failure? {
      return Errored("failed to send embeds: " + sent.error), calls;
    }

    if |filteredRows| < 2 {
      return Panicked, calls;
    }
    var nameSplits := Split(filteredRows[1], "\n");
    if |nameSplits| < 2 {
      SplitMoreThanOne(filteredRows[1], "\n");
      IndexOfByte(filteredRows[1], '\n');
      return Panicked, calls;
    }
    var threadName := nameSplits[1];
    threadName := threadName[..Min(|threadName|, ThreadNameLimit)];
    var request := CreateThreadRequest(threadName, ToPtr(ThreadArchiveMinutes));
    calls := calls + [CreateThread(publicChannel.id, sent.value.id, request)];
    var created := f.createThread(publicChannel.id, sent.value.id, request);
    if created.Failure? {
      return Panicked, calls;
    }
    return Handled, calls;
  }

  // ---- Properties of the redaction ----

  /** A description with at most five sections is republished unchanged. */
  lemma ShortDescriptionUnchanged(desc: string)
    requires |Split(desc, Delimiter)| <= TagSection
    ensures RedactedDescription(desc) == desc
  {
    JoinSplit(desc, Delimiter);
  }

  lemma JoinCons(x: string, t: seq<string>, sep: string)
    requires |t| >= 1
    ensures Join([x] + t, sep) == x + sep + Join(t, sep)
  {
    assert ([x] + t)[1..] == t;
  }

  /**
   * Removing piece `k` (not the first) from a join removes that piece and the
   * delimiter before it, and nothing else.
   */
  lemma JoinWithoutSection(rows: seq<string>, k: nat, sep: string)
    requires 1 <= k < |rows|
    ensures
      var suffix := if |rows| > k + 1 then sep + Join(rows[k + 1..], sep) else "";
      && Join(rows, sep) == Join(rows[..k], sep) + sep + rows[k] + suffix
      && Join(WithoutSection(rows, k), sep) == Join(rows[..k], sep) + suffix
  {
    var head, tail := rows[..k], rows[k + 1..];
    assert rows == head + ([rows[k]] + tail);
    JoinAppend(head, [rows[k]] + tail, sep);
    assert WithoutSection(rows, k) == head + tail;
    if |rows| > k + 1 {
      JoinCons(rows[k], tail, sep);
      JoinAppend(head, tail, sep);
    } else {
      assert [rows[k]] + tail == [rows[k]];
      assert head + tail == head;
    }
  }

  /**
   * For a description with a sixth section, the original is
   * prefix ### tag [### suffix] and the republished one is prefix [### suffix]:
   * exactly the tag and the delimiter before it are gone.
   */
  lemma TagSectionDropped(desc: string)
    requires |Split(desc, Delimiter)| > TagSection
    ensures
      var rows := Split(desc, Delimiter);
      var prefix := Join(rows[..TagSection], Delimiter);
      var suffix := if |rows| > TagSection + 1 then Delimiter + Join(rows[TagSection + 1..], Delimiter) else "";
      && desc == prefix + Delimiter + rows[TagSection] + suffix
      && RedactedDescription(desc) == prefix + suffix
  {
    JoinSplit(desc, Delimiter);
    JoinWithoutSection(Split(desc, Delimiter), TagSection, Delimiter);
  }

  /** The thread name depends only on the original second section, which is never the tag. */
  lemma ThreadNameFromNameSection(desc: string)
    ensures
      var rows := Split(desc, Delimiter);
      ThreadName(WithoutSection(rows, TagSection)).Some? <==> |rows| >= 2 && '\n' in rows[1]
    ensures
      var rows := Split(desc, Delimiter);
      |rows| >= 2 ==> ThreadName(WithoutSection(rows, TagSection)) == ThreadName(rows)
  {
  }

  // An application laid out as heading, answer, heading, answer, ...; the sixth field, C, is the tag.
  const ExampleHead := ["H1", "A", "H2", "B", "H3"]
  const ExampleTail := ["H4", "D", "H5", "E", "H6", "F"]

  lemma ExampleHeadJoin()
    ensures Join(ExampleHead, Delimiter) == "H1###A###H2###B###H3"
  {
  }

  lemma ExampleTailJoin()
    ensures Join(ExampleTail, Delimiter) == "H4###D###H5###E###H6###F"
  {
  }

  lemma ExampleJoin()
    ensures Join(ExampleHead + ["C"] + ExampleTail, Delimiter)
         == Join(ExampleHead, Delimiter) + Delimiter + "C" + Delimiter + Join(ExampleTail, Delimiter)
  {
    var rest := ["C"] + ExampleTail;
    assert ExampleHead + ["C"] + ExampleTail == ExampleHead + rest;
    JoinCons("C", ExampleTail, Delimiter);
    JoinAppend(ExampleHead, rest, Delimiter);
  }

  lemma ExampleDescription()
    ensures Join(ExampleHead + ["C"] + ExampleTail, Delimiter)
         == "H1###A###H2###B###H3" + "###" + "C" + "###" + "H4###D###H5###E###H6###F"
  {
    ExampleJoin();
    ExampleHeadJoin();
    ExampleTailJoin();
  }

  lemma ExampleFieldsUnmarked()
    ensures forall k :: 0 <= k < |ExampleHead + ["C"] + ExampleTail| ==> '#' !in (ExampleHead + ["C"] + ExampleTail)[k]
  {
  }

  lemma ExampleSplit(desc: string)
    requires desc == "H1###A###H2###B###H3" + "###" + "C" + "###" + "H4###D###H5###E###H6###F"
    ensures Split(desc, Delimiter) == ExampleHead + ["C"] + ExampleTail
  {
    ExampleDescription();
    ExampleFieldsUnmarked();
    SplitJoin(ExampleHead + ["C"] + ExampleTail, Delimiter);
  }

  lemma ExampleRedactedParts()
    ensures Join(WithoutSection(ExampleHead + ["C"] + ExampleTail, TagSection), Delimiter)
         == "H1###A###H2###B###H3" + "###" + "H4###D###H5###E###H6###F"
  {
    var parts := ExampleHead + ["C"] + ExampleTail;
    assert parts[..TagSection] == ExampleHead && parts[TagSection + 1..] == ExampleTail;
    assert WithoutSection(parts, TagSection) == ExampleHead + ExampleTail;
    JoinAppend(ExampleHead, ExampleTail, Delimiter);
    ExampleHeadJoin();
    ExampleTailJoin();

  }

  /** The example application is republished without its sixth field. */
  lemma ExampleRedaction(desc: string)
    requires desc == "H1###A###H2###B###H3" + "###" + "C" + "###" + "H4###D###H5###E###H6###F"
    ensures RedactedDescription(desc) == "H1###A###H2###B###H3" + "###" + "H4###D###H5###E###H6###F"
  {
    ExampleSplit(desc);
    ExampleRedactedParts();
  }

  /** A piece free of the separator's first byte is the first piece of the split. */
  lemma SplitCleanHead(part: string, sep: string, rest: string)
    requires |sep| > 0 && sep[0] !in part
    ensures Split(part + sep + rest, sep) == [part] + Split(rest, sep)
  {
    var s := part + sep + rest;
    IndexAfterCleanPiece(part, sep, rest);
    assert s[..|part|] == part;
    assert s[|part| + |sep|..] == rest;
  }

  /**
   * The form bot's layout: the description opens with "###", so piece 0 is empty and
   * piece 1 is the first question, its line break, the answer and a line break. The
   * thread is named after the first 15 bytes of that answer.
   */
  lemma BotFormatThreadName(question: string, name: string, rest: string)
    requires '#' !in question && '#' !in name && '\n' !in question && '\n' !in name
    ensures
      var desc := Delimiter + question + "\n" + name + "\n" + Delimiter + rest;
      ThreadName(WithoutSection(Split(desc, Delimiter), TagSection)) == Some(name[..Min(|name|, ThreadNameLimit)])
  {
    var piece := question + "\n" + name + "\n";
    var desc := Delimiter + question + "\n" + name + "\n" + Delimiter + rest;
    assert desc == "" + Delimiter + (piece + Delimiter + rest);
    SplitCleanHead("", Delimiter, piece + Delimiter + rest);
    SplitCleanHead(piece, Delimiter, rest);
    var rows := Split(desc, Delimiter);
    assert rows == [""] + ([piece] + Split(rest, Delimiter));
    assert rows[1] == piece;
    ThreadNameFromNameSection(desc);

    assert piece == question + "\n" + (name + "\n" + "");
    SplitCleanHead(question, "\n", name + "\n" + "");
    SplitCleanHead(name, "\n", "");
    var lines := Split(piece, "\n");
    assert lines == [question] + ([name] + Split("", "\n"));
    assert lines[1] == name;
    assert '\n' in piece by { assert piece[|question|] == '\n'; }
  }

  /**
   * The first question and answer of the form bot's own sample layout: the thread
   * name keeps the first 15 of the answer's 30 bytes.
   */
  lemma ExampleBotFormatThreadName(rest: string)
    ensures
      var desc := Delimiter + " **1.** What's your name?" + "\n" + ("aoeuaoeuaoeuoeu" + "oeuaoeuaoeuaoeu") + "\n" + Delimiter + rest;
      ThreadName(WithoutSection(Split(desc, Delimiter), TagSection)) == Some("aoeuaoeuaoeuoeu")
  {
    var question := " **1.** What's your name?";
    var head, tail := "aoeuaoeuaoeuoeu", "oeuaoeuaoeuaoeu";
    var name := head + tail;
    assert '#' !in question && '\n' !in question;
    assert '#' !in name && '\n' !in name by {
      assert forall c :: c in name ==> c in head || c in tail;
    }
    BotFormatThreadName(question, name, rest);
    assert name[..|head|] == head;
  }

  lemma ExampleEmbedCountLine()
    ensures EmbedCountLine(2) == "got 2 embeds\n"
  {
  }
}
