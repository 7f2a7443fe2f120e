/**
 * The AI travel chat: reading the assistant's streamed reply (server-sent
 * events, one `data: ` line per delta), showing it as the last chat message,
 * picking known Dubai landmarks out of a generated day plan, classifying the
 * reply's lines for display, and the guard in front of sending a message.
 *
 * The network is not modelled: the response body arrives as the sequence of
 * decoded chunks `chunks`, and `JSON.parse` followed by
 * `choices?.[0]?.delta?.content` is the parameter `parse`.
 */
module TravelChatbox {
  import opened Wrappers
  import opened Text

  datatype Role = User | Assistant

  datatype Message = Message(role: Role, content: string, imageUrl: Option<string>)

  /** What a `data: ` payload yields: a JSON syntax error, or the delta's content if it has one. */
  datatype Payload = Unparsable | Parsed(delta: Option<string>)

  /* ---------- The reply as the last chat message ---------- */

  /**
   * The `setMessages` update made for each delta: the trailing assistant
   * message gets the whole reply so far; without one, an assistant message
   * is appended.
   */
  function ShowAssistant(messages: seq<Message>, content: string): (r: seq<Message>)
    ensures |r| >= 1 && r[|r| - 1].role == Assistant && r[|r| - 1].content == content
    ensures |messages| > 0 && messages[|messages| - 1].role == Assistant ==>
              |r| == |messages| && r[..|r| - 1] == messages[..|messages| - 1]
              && r[|r| - 1].imageUrl == messages[|messages| - 1].imageUrl
    ensures !(|messages| > 0 && messages[|messages| - 1].role == Assistant) ==>
              r[..|r| - 1] == messages && r[|r| - 1].imageUrl == None
  {
    if |messages| > 0 && messages[|messages| - 1].role == Assistant then
      messages[..|messages| - 1] + [messages[|messages| - 1].(content := content)]
    else
      messages + [Message(Assistant, content, None)]
  }

  /** A later update replaces an earlier one: the chat shows one assistant message for the reply. */
  lemma ShowAssistantTwice(messages: seq<Message>, a: string, b: string)
    ensures ShowAssistant(ShowAssistant(messages, a), b) == ShowAssistant(messages, b)
  {
    var once := ShowAssistant(messages, a);
    assert once[..|once| - 1] + [once[|once| - 1].(content := b)] == ShowAssistant(messages, b);
  }

  /** Showing a longer reply replaces what was shown of it before. */
  lemma ReplyGrows(messages: seq<Message>, content: string, delta: string)
    requires delta != ""
    ensures Reply(messages, content + delta) == ShowAssistant(Reply(messages, content), content + delta)
  {
    if content != "" {
      ShowAssistantTwice(messages, content, content + delta);
    }
  }

  /** The messages once the reply `content` has streamed in: no update at all while it is empty. */
  function Reply(messages: seq<Message>, content: string): (r: seq<Message>)
    ensures content == "" ==> r == messages
    ensures content != "" ==> |r| >= 1 && r[|r| - 1].role == Assistant && r[|r| - 1].content == content
  {
    if content == "" then messages else ShowAssistant(messages, content)
  }

  /* ---------- One line of the event stream ---------- */

  datatype LineKind = Ignored | DoneMarker | DataLine(json: string)

  /** A line with one trailing carriage return removed. */
  function StripCR(line: string): (r: string)
    ensures EndsWith(line, "\r") ==> r + "\r" == line
    ensures !EndsWith(line, "\r") ==> r == line
  {
    if EndsWith(line, "\r") then line[..|line| - 1] else line
  }

  /**
   * How the reader treats a line: comments (`:`), blank lines and lines
   * without the `data: ` prefix are skipped; the trimmed payload `[DONE]`
   * ends the stream; any other payload is handed to the JSON parser.
   */
  function LineKindOf(line: string): LineKind
  {
    if StartsWith(line, ":") || IsBlank(line) then Ignored
    else if !StartsWith(line, "data: ") then Ignored
    else if Trim(line[6..]) == "[DONE]" then DoneMarker
    else DataLine(Trim(line[6..]))
  }

  /**
   * Only a `data: ` line that is not a comment or blank carries a payload,
   * and `[DONE]` is never handed to the parser.
   */
  lemma DataLineShape(line: string)
    ensures LineKindOf(line).DataLine? <==>
              !StartsWith(line, ":") && !IsBlank(line) && StartsWith(line, "data: ") && Trim(line[6..]) != "[DONE]"
    ensures LineKindOf(line).DataLine? ==> LineKindOf(line).json == Trim(line[6..]) && LineKindOf(line).json != "[DONE]"
  {
  }

  /** A trailing carriage return never changes how a line is read. */
  lemma TrailingCRIgnored(line: string)
    requires EndsWith(line, "\r")
    ensures LineKindOf(line[..|line| - 1]) == LineKindOf(line)
  {
    SamePrefixes(line);
    BlankIgnoresCR(line);
    if StartsWith(line, "data: ") {
      PayloadIgnoresCR(line);
    }
  }

  lemma BlankIgnoresCR(line: string)
    requires EndsWith(line, "\r")
    ensures IsBlank(line[..|line| - 1]) <==> IsBlank(line)
  {
    assert line[..|line| - 1] + ['\r'] == line;
    TrimIgnoresTrailingSpace(line[..|line| - 1], '\r');
  }

  lemma PayloadIgnoresCR(line: string)
    requires EndsWith(line, "\r") && StartsWith(line, "data: ")
    ensures |line| > 6 && Trim(line[..|line| - 1][6..]) == Trim(line[6..])
  {
    assert line[5] == ' ';
    assert line[..|line| - 1][6..] + ['\r'] == line[6..];
    TrimIgnoresTrailingSpace(line[..|line| - 1][6..], '\r');
  }

  lemma SamePrefixes(line: string)
    requires EndsWith(line, "\r")
    ensures StartsWith(line[..|line| - 1], ":") <==> StartsWith(line, ":")
    ensures StartsWith(line[..|line| - 1], "data: ") <==> StartsWith(line, "data: ")
  {
    var short := line[..|line| - 1];
    if |short| >= 1 {
      assert short[..1] == line[..1];
    }
    if |short| >= 6 {
      assert short[..6] == line[..6];
    } else if |line| >= 6 {
      assert line[|line| - 1] == '\r';
      assert line[..6][5] == '\r';
    }
  }

  /* ---------- Draining the buffer ---------- */

  /** The reader's state between chunks: unread text, the reply so far, and whether `[DONE]` arrived. */
  datatype Progress = Progress(buffer: string, content: string, done: bool)

  /** `if (content)`: what a parsed delta adds to the reply. */
  function DeltaText(delta: Option<string>): string {
    if delta.Some? then delta.value else ""
  }

  /**
   * The inner loop of the reader: take complete lines off the front of the
   * buffer until none is left, `[DONE]` arrives, or a payload fails to parse;
   * in the last case the line goes back in front of the buffer (without its
   * carriage return) and reading waits for the next chunk.
   */
  function Drain(buffer: string, content: string, parse: string -> Payload): (p: Progress)
    ensures |content| <= |p.content| && p.content[..|content|] == content
    decreases |buffer|
  {
    match IndexOf(buffer, "\n")
    case None => Progress(buffer, content, false)
    case Some(i) =>
      var line := StripCR(buffer[..i]);
      var rest := buffer[i + 1..];
      match LineKindOf(line)
      case Ignored => Drain(rest, content, parse)
      case DoneMarker => Progress(rest, content, true)
      case DataLine(json) =>
        match parse(json)
        case Unparsable => Progress(line + "\n" + rest, content, false)
        case Parsed(delta) =>
          var p := Drain(rest, content + DeltaText(delta), parse);
          assert (content + DeltaText(delta))[..|content|] == content;
          p
  }

  /** The buffer starts with a complete data line whose payload does not parse. */
  predicate Stalled(buffer: string, parse: string -> Payload) {
    match IndexOf(buffer, "\n")
    case None => false
    case Some(i) => LineKindOf(buffer[..i]).DataLine? && parse(LineKindOf(buffer[..i]).json).Unparsable?
  }

  predicate NoNewline(s: string) {
    forall k :: 0 <= k < |s| ==> s[k] != '\n'
  }

  lemma NoNewlineBefore(buffer: string, i: nat)
    requires IndexOf(buffer, "\n") == Some(i)
    ensures NoNewline(buffer[..i]) && NoNewline(StripCR(buffer[..i]))
  {
    forall k | 0 <= k < i ensures buffer[k] != '\n' {
      assert !OccursAt(buffer, "\n", k);
      assert buffer[k..k + 1] == [buffer[k]];
    }
  }

  /** A text made of a line without newline, a newline and more text has that line first. */
  lemma FirstLine(line: string, rest: string)
    requires NoNewline(line)
    ensures IndexOf(line + "\n" + rest, "\n") == Some(|line|)
    ensures (line + "\n" + rest)[..|line|] == line
  {
    var t := line + "\n" + rest;
    assert t[|line|..|line| + 1] == "\n";
    forall j | 0 <= j < |line| ensures !OccursAt(t, "\n", j) {
      assert t[j..j + 1] == [line[j]];
    }
    IndexOfIs(t, "\n", |line|);
  }

  /** A line put back in front of the buffer is the buffer's first line again, and still fails. */
  lemma PushBackStalls(buffer: string, i: nat, parse: string -> Payload)
    requires IndexOf(buffer, "\n") == Some(i)
    requires LineKindOf(StripCR(buffer[..i])).DataLine?
    requires parse(LineKindOf(StripCR(buffer[..i])).json).Unparsable?
    ensures Stalled(StripCR(buffer[..i]) + "\n" + buffer[i + 1..], parse)
  {
    NoNewlineBefore(buffer, i);
    FirstLine(StripCR(buffer[..i]), buffer[i + 1..]);
  }

  /** After draining, the stream has ended, no complete line is left, or the reader is stuck on a bad line. */
  lemma {:induction false} DrainOutcome(buffer: string, content: string, parse: string -> Payload)
    ensures var p := Drain(buffer, content, parse);
      p.done || IndexOf(p.buffer, "\n").None? || Stalled(p.buffer, parse)
    decreases |buffer|
  {
    match IndexOf(buffer, "\n")
    case None =>
    case Some(i) =>
      var line := StripCR(buffer[..i]);
      var rest := buffer[i + 1..];
      match LineKindOf(line)
      case Ignored => DrainOutcome(rest, content, parse);
      case DoneMarker =>
      case DataLine(json) =>
        match parse(json)
        case Unparsable => PushBackStalls(buffer, i, parse);
        case Parsed(delta) => DrainOutcome(rest, content + DeltaText(delta), parse);
  }

  /**
   * Appending text behind what a drain already read: after `[DONE]` or a bad
   * line the reply does not change; otherwise reading resumes from the
   * leftover partial line.
   */
  lemma {:induction false} DrainAppend(s: string, t: string, content: string, parse: string -> Payload)
    ensures var d := Drain(s, content, parse);
      var e := Drain(s + t, content, parse);
      && (d.done ==> e.done && e.content == d.content)
      && (!d.done && IndexOf(d.buffer, "\n").Some? ==> !e.done && e.content == d.content)
      && (!d.done && IndexOf(d.buffer, "\n").None? ==> e == Drain(d.buffer + t, d.content, parse))
    decreases |s|
  {
    match IndexOf(s, "\n")
    case None =>
    case Some(i) =>
      IndexOfAppend(s, t, "\n", i);
      assert (s + t)[..i] == s[..i];
      assert (s + t)[i + 1..] == s[i + 1..] + t;
      var line := StripCR(s[..i]);
      match LineKindOf(line)
      case Ignored => DrainAppend(s[i + 1..], t, content, parse);
      case DoneMarker =>
      case DataLine(json) =>
        match parse(json)
        case Unparsable =>
          var back := line + "\n" + s[i + 1..];
          PushBackStalls(s, i, parse);
        case Parsed(delta) => DrainAppend(s[i + 1..], t, content + DeltaText(delta), parse);
  }

  /* ---------- The whole stream ---------- */

  /** The outer loop of the reader: each chunk is appended to the buffer and drained, until `[DONE]`. */
  function Stream(p: Progress, chunks: seq<string>, parse: string -> Payload): (r: Progress)
    ensures p.done ==> r == p
    ensures |p.content| <= |r.content| && r.content[..|p.content|] == p.content
    decreases |chunks|
  {
    if p.done || chunks == [] then p
    else Stream(Drain(p.buffer + chunks[0], p.content, parse), chunks[1..], parse)
  }

  /** `assistantContent` at the end of the stream. */
  function StreamedText(chunks: seq<string>, parse: string -> Payload): string {
    Stream(Progress("", "", false), chunks, parse).content
  }

  function Concat(chunks: seq<string>): string {
    if chunks == [] then "" else chunks[0] + Concat(chunks[1..])
  }

  /**
   * Once a complete data line fails to parse, nothing more is ever added to
   * the reply and `[DONE]` is never seen: the line is put back and fails again
   * on every later chunk.
   */
  lemma {:induction false} StallIsPermanent(p: Progress, chunks: seq<string>, parse: string -> Payload)
    requires !p.done && Stalled(p.buffer, parse)
    ensures Stream(p, chunks, parse).content == p.content && !Stream(p, chunks, parse).done
    decreases |chunks|
  {
    if chunks != [] {
      StalledStep(p.buffer, chunks[0], p.content, parse);
      StallIsPermanent(Drain(p.buffer + chunks[0], p.content, parse), chunks[1..], parse);
    }
  }

  /** One more chunk behind a bad line: the line fails again and is put back again. */
  lemma StalledStep(buffer: string, chunk: string, content: string, parse: string -> Payload)
    requires Stalled(buffer, parse)
    ensures var d := Drain(buffer + chunk, content, parse);
      d.content == content && !d.done && Stalled(d.buffer, parse)
  {
    var q := buffer + chunk;
    var i := IndexOf(buffer, "\n").value;
    IndexOfAppend(buffer, chunk, "\n", i);
    assert q[..i] == buffer[..i];
    StripKeepsKind(q[..i]);
    DrainFails(q, i, content, parse);
    PushBackStalls(q, i, parse);
  }

  /**
   * The drain as evidently intended: a complete line whose payload does not
   * parse is dropped and reading goes on with the next line. Only a line
   * still missing its newline can wait for more data, and that one is never
   * taken off the buffer.
   */
  function DrainSkipping(buffer: string, content: string, parse: string -> Payload): (p: Progress)
    ensures |content| <= |p.content| && p.content[..|content|] == content
    decreases |buffer|
  {
    match IndexOf(buffer, "\n")
    case None => Progress(buffer, content, false)
    case Some(i) =>
      var kind := LineKindOf(StripCR(buffer[..i]));
      if kind.DoneMarker? then Progress(buffer[i + 1..], content, true)
      else
        var added := LineText(kind, parse);
        var p := DrainSkipping(buffer[i + 1..], content + added, parse);
        assert (content + added)[..|content|] == content;
        p
  }

  /** What a line other than `[DONE]` adds to the reply in the corrected drain: its parsed delta, else nothing. */
  function LineText(kind: LineKind, parse: string -> Payload): string {
    if kind.DataLine? && parse(kind.json).Parsed? then DeltaText(parse(kind.json).delta) else ""
  }

  /** The corrected drain never gets stuck: it ends on `[DONE]` or with no complete line left. */
  lemma {:induction false} DrainSkippingConsumesLines(buffer: string, content: string, parse: string -> Payload)
    ensures var p := DrainSkipping(buffer, content, parse);
      p.done || IndexOf(p.buffer, "\n").None?
    decreases |buffer|
  {
    match IndexOf(buffer, "\n")
    case None =>
    case Some(i) =>
      var kind := LineKindOf(StripCR(buffer[..i]));
      if !kind.DoneMarker? {
        DrainSkippingConsumesLines(buffer[i + 1..], content + LineText(kind, parse), parse);
      }
  }

  /**
   * A data line that does not parse followed by one carrying text: the
   * reader as written never shows the text, the corrected one shows it.
   */
  lemma BadLineHidesLaterText(bad: string, good: string, parse: string -> Payload, delta: string)
    requires NoNewline(bad) && !EndsWith(bad, "\r") && NoNewline(good) && !EndsWith(good, "\r")
    requires LineKindOf(bad).DataLine? && parse(LineKindOf(bad).json).Unparsable?
    requires LineKindOf(good).DataLine? && parse(LineKindOf(good).json) == Parsed(Some(delta))
    ensures Drain(bad + "\n" + good + "\n", "", parse).content == ""
    ensures DrainSkipping(bad + "\n" + good + "\n", "", parse).content == delta
  {
    var rest := good + "\n";
    var b := bad + "\n" + good + "\n";
    Regroup(bad, good);
    BadLineStops(b, bad, rest, "", parse);
    BadLineSkipped(b, bad, rest, "", parse);
    ReadsGoodLine(good, parse, delta);
  }

  lemma Regroup(a: string, c: string)
    ensures a + "\n" + c + "\n" == a + "\n" + (c + "\n")
  {
  }

  /** The drain as written stops on a bad first line. */
  lemma BadLineStops(b: string, bad: string, rest: string, content: string, parse: string -> Payload)
    requires b == bad + "\n" + rest
    requires NoNewline(bad) && !EndsWith(bad, "\r")
    requires LineKindOf(bad).DataLine? && parse(LineKindOf(bad).json).Unparsable?
    ensures Drain(b, content, parse).content == content
  {
    FirstLine(bad, rest);
    assert StripCR(b[..|bad|]) == bad;
  }

  /** The corrected drain goes on after a bad first line as if it were not there. */
  lemma BadLineSkipped(b: string, bad: string, rest: string, content: string, parse: string -> Payload)
    requires b == bad + "\n" + rest
    requires NoNewline(bad) && !EndsWith(bad, "\r")
    requires LineKindOf(bad).DataLine? && parse(LineKindOf(bad).json).Unparsable?
    ensures DrainSkipping(b, content, parse) == DrainSkipping(rest, content, parse)
  {
    FirstLine(bad, rest);
    assert StripCR(b[..|bad|]) == bad;
    assert b[|bad| + 1..] == rest;
    SkippingStep(b, |bad|, content, parse);
    assert LineText(LineKindOf(bad), parse) == "";
    assert content + "" == content;
  }

  /** One step of the corrected drain over a first line other than `[DONE]`. */
  lemma SkippingStep(buffer: string, i: nat, content: string, parse: string -> Payload)
    requires IndexOf(buffer, "\n") == Some(i)
    requires !LineKindOf(StripCR(buffer[..i])).DoneMarker?
    ensures DrainSkipping(buffer, content, parse)
         == DrainSkipping(buffer[i + 1..], content + LineText(LineKindOf(StripCR(buffer[..i])), parse), parse)
  {
  }

  lemma ReadsGoodLine(good: string, parse: string -> Payload, delta: string)
    requires NoNewline(good) && !EndsWith(good, "\r")
    requires LineKindOf(good).DataLine? && parse(LineKindOf(good).json) == Parsed(Some(delta))
    ensures DrainSkipping(good + "\n", "", parse).content == delta
  {
    FirstLine(good, "");
    assert good + "\n" + "" == good + "\n";
    assert StripCR((good + "\n")[..|good|]) == good;
    assert (good + "\n")[|good| + 1..] == "";
    SkippingStep(good + "\n", |good|, "", parse);
    assert "" + delta == delta;
  }

  lemma StripKeepsKind(line: string)
    ensures LineKindOf(StripCR(line)) == LineKindOf(line)
  {
    if EndsWith(line, "\r") {
      TrailingCRIgnored(line);
    }
  }

  lemma DrainSkips(buffer: string, i: nat, content: string, parse: string -> Payload)
    requires IndexOf(buffer, "\n") == Some(i) && LineKindOf(StripCR(buffer[..i])) == Ignored
    ensures Drain(buffer, content, parse) == Drain(buffer[i + 1..], content, parse)
  {
  }

  lemma DrainEnds(buffer: string, i: nat, content: string, parse: string -> Payload)
    requires IndexOf(buffer, "\n") == Some(i) && LineKindOf(StripCR(buffer[..i])) == DoneMarker
    ensures Drain(buffer, content, parse) == Progress(buffer[i + 1..], content, true)
  {
  }

  lemma DrainReads(buffer: string, i: nat, content: string, parse: string -> Payload, json: string, delta: Option<string>)
    requires IndexOf(buffer, "\n") == Some(i) && LineKindOf(StripCR(buffer[..i])) == DataLine(json)
    requires parse(json) == Parsed(delta)
    ensures Drain(buffer, content, parse) == Drain(buffer[i + 1..], content + DeltaText(delta), parse)
  {
  }

  /** Draining a buffer whose first line fails to parse puts that line back and reads nothing. */
  lemma DrainFails(buffer: string, i: nat, content: string, parse: string -> Payload)
    requires IndexOf(buffer, "\n") == Some(i)
    requires LineKindOf(StripCR(buffer[..i])).DataLine?
    requires parse(LineKindOf(StripCR(buffer[..i])).json).Unparsable?
    ensures Drain(buffer, content, parse) == Progress(StripCR(buffer[..i]) + "\n" + buffer[i + 1..], content, false)
  {
  }

  lemma {:induction false} StreamMatchesWhole(s: string, content: string, chunks: seq<string>, parse: string -> Payload)
    ensures SameOutcome(Stream(Drain(s, content, parse), chunks, parse), Drain(s + Concat(chunks), content, parse))
    decreases |chunks|
  {
    var d := Drain(s, content, parse);
    if chunks == [] {
      assert s + Concat(chunks) == s;
    } else {
      DrainAppend(s, Concat(chunks), content, parse);
      DrainOutcome(s, content, parse);
      if d.done {
      } else if IndexOf(d.buffer, "\n").Some? {
        StallIsPermanent(d, chunks, parse);
      } else {
        var s' := d.buffer + chunks[0];
        StreamMatchesWhole(s', d.content, chunks[1..], parse);
        StreamStep(d, chunks, parse);
        ConcatStep(d.buffer, chunks);
      }
    }
  }

  lemma ConcatStep(b: string, chunks: seq<string>)
    requires chunks != []
    ensures b + Concat(chunks) == (b + chunks[0]) + Concat(chunks[1..])
  {
  }

  /** The reply and whether `[DONE]` arrived agree; the unread rest may differ. */
  predicate SameOutcome(a: Progress, b: Progress) {
    a.content == b.content && a.done == b.done
  }

  lemma StreamStep(p: Progress, chunks: seq<string>, parse: string -> Payload)
    requires !p.done && chunks != []
    ensures Stream(p, chunks, parse) == Stream(Drain(p.buffer + chunks[0], p.content, parse), chunks[1..], parse)
  {
  }

  /** How the response body is cut into chunks does not matter: the reply is what draining the whole body gives. */
  lemma ChunkingIrrelevant(chunks: seq<string>, parse: string -> Payload)
    ensures StreamedText(chunks, parse) == Drain(Concat(chunks), "", parse).content
  {
    StreamMatchesWhole("", "", chunks, parse);
    assert "" + Concat(chunks) == Concat(chunks);
  }

  /** After `[DONE]`, later chunks are not read. */
  lemma {:induction false} DoneIgnoresRest(chunks: seq<string>, more: seq<string>, parse: string -> Payload)
    requires Stream(Progress("", "", false), chunks, parse).done
    ensures StreamedText(chunks + more, parse) == StreamedText(chunks, parse)
  {
    DoneFrom(Progress("", "", false), chunks, more, parse);
  }

  lemma {:induction false} DoneFrom(p: Progress, chunks: seq<string>, more: seq<string>, parse: string -> Payload)
    requires Stream(p, chunks, parse).done
    ensures Stream(p, chunks + more, parse) == Stream(p, chunks, parse)
    decreases |chunks|
  {
    if !p.done {
      assert chunks != [];
      assert (chunks + more)[1..] == chunks[1..] + more;
      DoneFrom(Drain(p.buffer + chunks[0], p.content, parse), chunks[1..], more, parse);
    }
  }

  /* ---------- Landmarks named in a day plan ---------- */

  /** A known place: its name, id, coordinates, the phrases that refer to it, and its category. */
  datatype Landmark = Landmark(name: string, id: string, lat: real, lng: real, variations: seq<string>, kind: string)

  /** The Dubai landmarks the chat recognises, in the order they are tried. */
  const Gazetteer: seq<Landmark> := [
    Landmark("Burj Khalifa", "burj-khalifa", 25.1972, 55.2744, ["burj khalifa", "khalifa tower"], "attraction"),
    Landmark("Dubai Fountain", "dubai-fountain", 25.1953, 55.2744, ["dubai fountain", "fountain"], "photo"),
    Landmark("Palm Jumeirah", "palm-jumeirah", 25.1124, 55.1390, ["palm jumeirah", "the palm", "palm"], "attraction"),
    Landmark("Burj Al Arab", "burj-al-arab", 25.1412, 55.1853, ["burj al arab", "al arab"], "hotel"),
    Landmark("Dubai Marina", "dubai-marina", 25.0805, 55.1410, ["dubai marina", "marina"], "attraction"),
    Landmark("Museum of the Future", "museum-future", 25.2195, 55.2802, ["museum of the future", "future museum"], "attraction"),
    Landmark("Dubai Mall", "dubai-mall", 25.1972, 55.2796, ["dubai mall", "the dubai mall"], "activity"),
    Landmark("Gold Souk", "gold-souk", 25.2697, 55.3020, ["gold souk", "souk"], "activity"),
    Landmark("Jumeirah Beach", "jumeirah-beach", 25.2048, 55.2708, ["jumeirah beach", "jbr beach"], "photo"),
    Landmark("Atlantis", "atlantis", 25.1304, 55.1174, ["atlantis", "atlantis the palm"], "hotel"),
    Landmark("La Mer", "la-mer", 25.2317, 55.2633, ["la mer", "lamer"], "photo"),
    Landmark("Global Village", "global-village", 25.0758, 55.3089, ["global village"], "activity")
  ]

  datatype IconStyle = IconStyle(caption: string, color: string)

  const AttractionIcon := IconStyle("Attraction", "#8B5CF6")

  /** The categories the icon table knows. */
  const IconKinds: set<string> := {"hotel", "restaurant", "cafe", "attraction", "activity", "photo"}

  /** `iconMapping[type] || iconMapping.attraction`. */
  function IconFor(kind: string): (r: IconStyle)
    ensures kind !in IconKinds ==> r == AttractionIcon
    ensures kind in IconKinds ==> (r == AttractionIcon <==> kind == "attraction")
  {
    if kind == "hotel" then IconStyle("Hotel", "#4F46E5")
    else if kind == "restaurant" then IconStyle("Restaurant", "#EF4444")
    else if kind == "cafe" then IconStyle("Cafe", "#F59E0B")
    else if kind == "activity" then IconStyle("Activity", "#10B981")
    else if kind == "photo" then IconStyle("Photo Spot", "#EC4899")
    else AttractionIcon
  }

  /** A location handed to the map; rating, price, image and peak hours are left out. */
  datatype Place = Place(id: string, name: string, lat: real, lng: real, kind: string, icon: IconStyle,
                         area: string, visitDuration: int)

  function ToPlace(l: Landmark): Place {
    Place(l.id, l.name, l.lat, l.lng, l.kind, IconFor(l.kind), l.name, 60)
  }

  /** One of the landmark's phrases occurs in the lower-cased plan. */
  predicate Mentioned(lowerContent: string, l: Landmark) {
    exists v :: v in l.variations && Contains(lowerContent, ToLower(v))
  }

  /** The places pushed while walking the landmarks: one per mentioned landmark, in landmark order. */
  function ExtractFrom(lowerContent: string, ls: seq<Landmark>): (r: seq<Place>)
    ensures |r| <= |ls|
    ensures forall l :: l in ls && Mentioned(lowerContent, l) ==> ToPlace(l) in r
    ensures forall p :: p in r ==> exists l :: l in ls && Mentioned(lowerContent, l) && p == ToPlace(l)
    decreases |ls|
  {
    if ls == [] then []
    else
      var last := ls[|ls| - 1];
      assert ls == ls[..|ls| - 1] + [last];
      ExtractFrom(lowerContent, ls[..|ls| - 1]) + (if Mentioned(lowerContent, last) then [ToPlace(last)] else [])
  }

  /** Extraction walks the landmarks in order: extracting from two lists one after the other concatenates. */
  lemma {:induction false} ExtractAppend(lowerContent: string, a: seq<Landmark>, b: seq<Landmark>)
    ensures ExtractFrom(lowerContent, a + b) == ExtractFrom(lowerContent, a) + ExtractFrom(lowerContent, b)
    decreases |b|
  {
    if b == [] {
      assert a + b == a;
    } else {
      var b', x := b[..|b| - 1], b[|b| - 1];
      ExtractAppend(lowerContent, a, b');
      assert (a + b)[..|a + b| - 1] == a + b';
      assert (a + b)[|a + b| - 1] == x;
      var tail := if Mentioned(lowerContent, x) then [ToPlace(x)] else [];
      AppendPlaces(ExtractFrom(lowerContent, a), ExtractFrom(lowerContent, b'), tail);
    }
  }

  lemma AppendPlaces(x: seq<Place>, y: seq<Place>, z: seq<Place>)
    ensures x + y + z == x + (y + z)
  {
  }

  predicate HasPlaceId(s: seq<Place>, id: string) {
    exists p :: p in s && p.id == id
  }

  predicate DistinctPlaceIds(s: seq<Place>) {
    forall i, j :: 0 <= i < j < |s| ==> s[i].id != s[j].id
  }

  predicate DistinctLandmarkIds(ls: seq<Landmark>) {
    forall i, j :: 0 <= i < j < |ls| ==> ls[i].id != ls[j].id
  }

  /** The duplicate filter: a place is kept only if no earlier place has its id. */
  function FirstById(s: seq<Place>): (r: seq<Place>)
    ensures DistinctPlaceIds(r)
    ensures forall p :: p in r ==> p in s
    ensures forall id :: HasPlaceId(r, id) <==> HasPlaceId(s, id)
    decreases |s|
  {
    if s == [] then []
    else
      var pre := s[..|s| - 1];
      var x := s[|s| - 1];
      assert s == pre + [x];
      var kept := FirstById(pre);
      assert forall id :: HasPlaceId(s, id) <==> HasPlaceId(pre, id) || x.id == id by {
        forall id ensures HasPlaceId(s, id) <==> HasPlaceId(pre, id) || x.id == id {
          if HasPlaceId(s, id) {
            var p :| p in s && p.id == id;
            assert p in pre || p == x;
          }
        }
      }
      if HasPlaceId(pre, x.id) then kept
      else
        assert forall i :: 0 <= i < |kept| ==> kept[i].id != x.id by {
          forall i | 0 <= i < |kept| ensures kept[i].id != x.id {
            assert kept[i] in kept;
          }
        }
        assert forall id :: HasPlaceId(kept + [x], id) <==> HasPlaceId(kept, id) || x.id == id by {
          forall id ensures HasPlaceId(kept + [x], id) <==> HasPlaceId(kept, id) || x.id == id {
            if HasPlaceId(kept + [x], id) {
              var p :| p in kept + [x] && p.id == id;
              assert p in kept || p == x;
            }
            if x.id == id {
              assert x in kept + [x];
            }
          }
        }
        kept + [x]
  }

  /** A list whose ids are already distinct passes the duplicate filter unchanged. */
  lemma {:induction false} FirstByIdKeepsDistinct(s: seq<Place>)
    requires DistinctPlaceIds(s)
    ensures FirstById(s) == s
    decreases |s|
  {
    if s != [] {
      var pre := s[..|s| - 1];
      FirstByIdKeepsDistinct(pre);
      assert !HasPlaceId(pre, s[|s| - 1].id) by {
        forall p | p in pre ensures p.id != s[|s| - 1].id {
          var i :| 0 <= i < |pre| && pre[i] == p;
          assert s[i] == p;
        }
      }
      assert pre + [s[|s| - 1]] == s;
    }
  }

  /** Landmarks with distinct ids give places with distinct ids. */
  lemma {:induction false} ExtractKeepsDistinct(lowerContent: string, ls: seq<Landmark>)
    requires DistinctLandmarkIds(ls)
    ensures DistinctPlaceIds(ExtractFrom(lowerContent, ls))
    decreases |ls|
  {
    if ls != [] {
      var pre := ls[..|ls| - 1];
      var last := ls[|ls| - 1];
      assert DistinctLandmarkIds(pre) by {
        forall i, j | 0 <= i < j < |pre| ensures pre[i].id != pre[j].id {
          assert pre[i] == ls[i] && pre[j] == ls[j];
        }
      }
      ExtractKeepsDistinct(lowerContent, pre);
      var e := ExtractFrom(lowerContent, pre);
      forall i | 0 <= i < |e| ensures e[i].id != last.id {
        assert e[i] in e;
        var l :| l in pre && Mentioned(lowerContent, l) && e[i] == ToPlace(l);
        var k :| 0 <= k < |pre| && pre[k] == l;
        assert ls[k] == l;
      }
      if Mentioned(lowerContent, last) {
        DistinctSnoc(e, ToPlace(last));
      } else {
        assert e + [] == e;
      }
    }
  }

  lemma DistinctSnoc(e: seq<Place>, x: Place)
    requires DistinctPlaceIds(e) && forall i :: 0 <= i < |e| ==> e[i].id != x.id
    ensures DistinctPlaceIds(e + [x])
  {
  }

  lemma GazetteerIdsDistinct()
    ensures DistinctLandmarkIds(Gazetteer)
  {
  }

  /** `uniqueLocations`: the mentioned landmarks as places, duplicates by id removed. */
  function Extraction(planContent: string): seq<Place> {
    FirstById(ExtractFrom(ToLower(planContent), Gazetteer))
  }

  /**
   * A landmark is extracted exactly when one of its phrases occurs in the
   * lower-cased plan; the places follow the landmark order, and the duplicate
   * filter removes nothing because the landmark ids are distinct.
   */
  lemma ExtractionContents(planContent: string)
    ensures Extraction(planContent) == ExtractFrom(ToLower(planContent), Gazetteer)
    ensures DistinctPlaceIds(Extraction(planContent))
    ensures forall l :: l in Gazetteer ==> (ToPlace(l) in Extraction(planContent) <==> Mentioned(ToLower(planContent), l))
  {
    var lower := ToLower(planContent);
    GazetteerIdsDistinct();
    ExtractKeepsDistinct(lower, Gazetteer);
    FirstByIdKeepsDistinct(ExtractFrom(lower, Gazetteer));
    ExtractedIffMentioned(lower, Gazetteer);
  }

  /** With distinct landmark ids, a landmark's place is extracted exactly when the landmark is mentioned. */
  lemma ExtractedIffMentioned(lowerContent: string, ls: seq<Landmark>)
    requires DistinctLandmarkIds(ls)
    ensures forall l :: l in ls ==> (ToPlace(l) in ExtractFrom(lowerContent, ls) <==> Mentioned(lowerContent, l))
  {
    forall l | l in ls && ToPlace(l) in ExtractFrom(lowerContent, ls)
      ensures Mentioned(lowerContent, l)
    {
      var l' :| l' in ls && Mentioned(lowerContent, l') && ToPlace(l) == ToPlace(l');
      var i :| 0 <= i < |ls| && ls[i] == l;
      var j :| 0 <= j < |ls| && ls[j] == l';
      assert ls[i].id == ls[j].id;
    }
  }

  /**
   * `extractAndDisplayLocations`: walks the known landmarks, testing each
   * one's phrases against the lower-cased plan, then drops repeated ids.
   */
  method ExtractLocations(planContent: string) returns (unique: seq<Place>)
    ensures unique == Extraction(planContent)
  {
    var extracted := PushMentioned(ToLower(planContent), Gazetteer);
    unique := FirstById(extracted);
  }

  /** The `forEach` over the landmarks: each mentioned one is pushed as a place, in order. */
  method PushMentioned(lower: string, landmarks: seq<Landmark>) returns (extracted: seq<Place>)
    ensures extracted == ExtractFrom(lower, landmarks)
  {
    extracted := [];
    for k := 0 to |landmarks|
      invariant extracted == ExtractFrom(lower, landmarks[..k])
    {
      var location := landmarks[k];
      var isFound := FindMention(lower, location);
      if isFound {
        extracted := extracted + [ToPlace(location)];
      }
      assert landmarks[..k + 1][..k] == landmarks[..k];
    }
    assert landmarks[..|landmarks|] == landmarks;
  }

  /** The `some` over one landmark's phrases: stops at the first phrase found in the plan. */
  method FindMention(lower: string, location: Landmark) returns (isFound: bool)
    ensures isFound <==> Mentioned(lower, location)
  {
    isFound := false;
    var v := 0;
    while v < |location.variations| && !isFound
      invariant 0 <= v <= |location.variations|
      invariant isFound <==> exists w :: w in location.variations[..v] && Contains(lower, ToLower(w))
    {
      isFound := Contains(lower, ToLower(location.variations[v]));
      assert location.variations[..v + 1] == location.variations[..v] + [location.variations[v]];
      v := v + 1;
    }
    if !isFound {
      assert location.variations[..v] == location.variations;
    }
  }

  /** What reaches the map: the extracted places, only when there are some and a listener is attached. */
  function Delivery(planContent: string, hasListener: bool): (r: Option<seq<Place>>)
    ensures r.Some? <==> hasListener && Extraction(planContent) != []
    ensures r.Some? ==> r.value == Extraction(planContent)
  {
    if |Extraction(planContent)| > 0 && hasListener then Some(Extraction(planContent)) else None
  }

  /* ---------- Displaying a reply ---------- */

  /** A piece of an emphasised line: the pieces between `**` markers alternate between plain and bold. */
  datatype Segment = Segment(text: string, bold: bool)

  datatype Block = Emphasis(segments: seq<Segment>) | ListItem(text: string) | Heading(text: string)
                 | Paragraph(text: string) | LineBreak

  function Segments(parts: seq<string>): (r: seq<Segment>)
    ensures |r| == |parts|
    ensures forall j :: 0 <= j < |r| ==> r[j].text == parts[j] && (r[j].bold <==> j % 2 == 1)
  {
    seq(|parts|, j requires 0 <= j < |parts| => Segment(parts[j], j % 2 == 1))
  }

  function Texts(segments: seq<Segment>): (r: seq<string>)
    ensures |r| == |segments| && forall j :: 0 <= j < |r| ==> r[j] == segments[j].text
  {
    seq(|segments|, j requires 0 <= j < |segments| => segments[j].text)
  }

  /**
   * How `renderMessage` shows one line: a line with `**` is split into
   * alternating plain and bold pieces; a line whose trimmed text starts with
   * `-` is a list item holding the trimmed text after the first `-`; a short
   * line ending in `:` without a link is a heading; other non-blank lines are
   * paragraphs and blank lines are line breaks.
   */
  function RenderLine(line: string): (r: Block)
    ensures r.Emphasis? <==> Contains(line, "**")
    ensures r.Heading? || r.Paragraph? ==> r.text == line
  {
    if Contains(line, "**") then Emphasis(Segments(Split(line, "**")))
    else if StartsWith(Trim(line), "-") then ListItem(AfterFirstDash(line))
    else if EndsWith(Trim(line), ":") && |line| < 50 && !Contains(line, "http") then Heading(line)
    else if !IsBlank(line) then Paragraph(line)
    else LineBreak
  }

  /** `line.substring(line.indexOf('-') + 1).trim()`; without a dash, `indexOf` gives -1 and the whole line is kept. */
  function AfterFirstDash(line: string): string {
    match IndexOf(line, "-")
    case None => Trim(line)
    case Some(i) => Trim(line[i + 1..])
  }

  /** `renderMessage`: one block per line of the reply. */
  function RenderMessage(content: string): (r: seq<Block>)
    ensures |r| == |Split(content, "\n")|
    ensures forall i :: 0 <= i < |r| ==> r[i] == RenderLine(Split(content, "\n")[i])
  {
    var lines := Split(content, "\n");
    seq(|lines|, i requires 0 <= i < |lines| => RenderLine(lines[i]))
  }

  /** The pieces of an emphasised line, joined again with `**`, give back the line, and none contains `**`. */
  lemma EmphasisRejoins(line: string)
    requires Contains(line, "**")
    ensures RenderLine(line).Emphasis?
    ensures Join(Texts(RenderLine(line).segments), "**") == line
    ensures forall j :: 0 <= j < |RenderLine(line).segments| ==> !Contains(RenderLine(line).segments[j].text, "**")
  {
    var parts := Split(line, "**");
    assert Texts(Segments(parts)) == parts;
    JoinSplit(line, "**");
    SplitPiecesFree(line, "**");
  }

  /** A line is shown as a line break exactly when it is blank. */
  lemma BreakIffBlank(line: string)
    ensures RenderLine(line).LineBreak? <==> IsBlank(line)
  {
    TrimEmptyIffBlank(line);
  }

  /** A list item holds the trimmed text after the dash that opens the line's trimmed text. */
  lemma ListItemText(line: string)
    requires RenderLine(line).ListItem?
    ensures var i := |line| - |TrimStart(line)|;
      OccursAt(line, "-", i) && AllSpace(line[..i]) && RenderLine(line).text == Trim(line[i + 1..])
  {
    ListItemShape(line);
    DashText(line);
  }

  lemma ListItemShape(line: string)
    requires RenderLine(line).ListItem?
    ensures StartsWith(Trim(line), "-") && RenderLine(line).text == AfterFirstDash(line)
  {
  }

  lemma DashText(line: string)
    requires StartsWith(Trim(line), "-")
    ensures var i := |line| - |TrimStart(line)|;
      OccursAt(line, "-", i) && AllSpace(line[..i]) && AfterFirstDash(line) == Trim(line[i + 1..])
  {
    var t := TrimStart(line);
    var i := |line| - |t|;
    TrimStartDropsSpace(line);
    assert Trim(line)[..1] == "-";
    assert Trim(line)[0] == '-';
    TrimHead(line);
    assert t == line[i..];
    FirstDash(line, t, i);
  }

  /** When the trimmed text starts with a dash, the first dash of the line is where the trimmed text begins. */
  lemma FirstDash(line: string, t: string, i: nat)
    requires |t| >= 1 && t[0] == '-'
    requires i + |t| == |line| && t == line[i..] && AllSpace(line[..i])
    ensures OccursAt(line, "-", i)
    ensures IndexOf(line, "-") == Some(i)
  {
    assert line[i..i + 1] == [t[0]];
    forall j | 0 <= j < i ensures !OccursAt(line, "-", j) {
      assert IsSpace(line[..i][j]);
      NotDash(line, j);
    }
    IndexOfIs(line, "-", i);
  }

  lemma NotDash(line: string, j: nat)
    requires j < |line| && IsSpace(line[j])
    ensures !OccursAt(line, "-", j)
  {
    assert line[j..j + 1] == [line[j]];
  }

  /* ---------- Sending ---------- */

  const ImagePrompt := "What locations would you suggest based on this image?"

  const DayPlanPrompt := "Create a complete day itinerary for me in Dubai with specific locations, times, and activities for each spot."

  /** An attached image counts only when its data URL is not empty. */
  predicate HasImage(image: Option<string>) {
    image.Some? && image.value != ""
  }

  /**
   * `handleSend`'s user message: none when the input is blank and no image
   * is attached; an empty input with an image asks the image prompt.
   */
  function OutgoingMessage(input: string, image: Option<string>): (r: Option<Message>)
    ensures r.None? <==> IsBlank(input) && !HasImage(image)
    ensures r.Some? ==> r.value.role == User && r.value.content != ""
    ensures r.Some? && input != "" ==> r.value.content == input
    ensures r.Some? && input == "" ==> r.value.content == ImagePrompt
    ensures r.Some? ==> (r.value.imageUrl.Some? <==> HasImage(image)) && (HasImage(image) ==> r.value.imageUrl == image)
  {
    if IsBlank(input) && !HasImage(image) then None
    else Some(Message(User, if input == "" then ImagePrompt else input, if HasImage(image) then image else None))
  }

  /** A reply streamed behind a user's message keeps that message and everything before it. */
  lemma ReplyKeepsHistory(messages: seq<Message>, u: Message, content: string)
    requires u.role == User
    ensures |Reply(messages + [u], content)| >= |messages| + 1
    ensures Reply(messages + [u], content)[..|messages| + 1] == messages + [u]
  {
    if content != "" {
      var r := ShowAssistant(messages + [u], content);
      assert r[..|messages| + 1] == r[..|r| - 1];
    }
  }

  /** The chat window's state. */
  class ChatSession {
    var messages: seq<Message>
    var input: string
    var uploadedImage: Option<string>
    var isLoading: bool

    constructor ()
      ensures messages == [] && input == "" && uploadedImage == None && !isLoading
    {
      messages := [];
      input := "";
      uploadedImage := None;
      isLoading := false;
    }

    /**
     * `streamChat`: reads the reply chunk by chunk, line by line, showing it
     * as it grows; for a day plan with a listener attached, the landmarks it
     * names are then delivered. A failed response leaves the chat as it was.
     */
    method StreamChat(isDayPlan: bool, hasListener: bool, responseOk: bool, chunks: seq<string>, parse: string -> Payload)
      returns (delivered: Option<seq<Place>>)
      modifies this
      ensures !responseOk ==> messages == old(messages) && delivered == None
      ensures responseOk ==> messages == Reply(old(messages), StreamedText(chunks, parse))
      ensures responseOk && isDayPlan && StreamedText(chunks, parse) != "" ==>
                delivered == Delivery(StreamedText(chunks, parse), hasListener)
      ensures !(responseOk && isDayPlan && StreamedText(chunks, parse) != "") ==> delivered == None
      ensures input == old(input) && uploadedImage == old(uploadedImage) && isLoading == old(isLoading)
    {
      delivered := None;
      if !responseOk {
        return;
      }
      ghost var start := messages;
      var textBuffer := "";
      var streamDone := false;
      var assistantContent := "";
      var next := 0;
      while !streamDone
        invariant 0 <= next <= |chunks|
        invariant Stream(Progress(textBuffer, assistantContent, streamDone), chunks[next..], parse)
                  == Stream(Progress("", "", false), chunks, parse)
        invariant messages == Reply(start, assistantContent)
        invariant input == old(input) && uploadedImage == old(uploadedImage) && isLoading == old(isLoading)
        decreases |chunks| - next
      {
        if next == |chunks| {
          assert chunks[next..] == [];
          break;
        }
        StreamStep(Progress(textBuffer, assistantContent, false), chunks[next..], parse);
        textBuffer := textBuffer + chunks[next];
        assert chunks[next..][1..] == chunks[next + 1..];
        next := next + 1;
        textBuffer, assistantContent, streamDone := ReadLines(textBuffer, assistantContent, start, parse);
      }
      assert assistantContent == StreamedText(chunks, parse);
      if isDayPlan && assistantContent != "" {
        var unique := ExtractLocations(assistantContent);
        if |unique| > 0 && hasListener {
          delivered := Some(unique);
        }
      }
    }

    /**
     * The inner loop of `streamChat`: takes complete lines off the buffer,
     * appending each delta to the reply and showing it, until no complete
     * line is left, `[DONE]` arrives, or a payload fails to parse.
     */
    method ReadLines(buffer: string, content: string, ghost start: seq<Message>, parse: string -> Payload)
      returns (textBuffer: string, assistantContent: string, streamDone: bool)
      requires messages == Reply(start, content)
      modifies this
      ensures Progress(textBuffer, assistantContent, streamDone) == Drain(buffer, content, parse)
      ensures messages == Reply(start, assistantContent)
      ensures input == old(input) && uploadedImage == old(uploadedImage) && isLoading == old(isLoading)
    {
      textBuffer, assistantContent, streamDone := buffer, content, false;
      var newlineIndex := IndexOf(textBuffer, "\n");
      while newlineIndex.Some?
        invariant newlineIndex == IndexOf(textBuffer, "\n")
        invariant Drain(textBuffer, assistantContent, parse) == Drain(buffer, content, parse) && !streamDone
        invariant messages == Reply(start, assistantContent)
        invariant input == old(input) && uploadedImage == old(uploadedImage) && isLoading == old(isLoading)
        decreases |textBuffer|
      {
        var halted;
        textBuffer, assistantContent, streamDone, halted :=
          TakeLine(textBuffer, newlineIndex.value, assistantContent, start, parse);
        if halted {
          return;
        }
        newlineIndex := IndexOf(textBuffer, "\n");
      }
    }

    /**
     * One pass of the inner loop's body on the buffer's first line. `halted`
     * says the loop stops: `[DONE]` arrived or the payload did not parse.
     */
    method TakeLine(buffer: string, i: nat, content: string, ghost start: seq<Message>, parse: string -> Payload)
      returns (textBuffer: string, assistantContent: string, streamDone: bool, halted: bool)
      requires IndexOf(buffer, "\n") == Some(i)
      requires messages == Reply(start, content)
      modifies this
      ensures halted ==> Progress(textBuffer, assistantContent, streamDone) == Drain(buffer, content, parse)
      ensures !halted ==> !streamDone && |textBuffer| < |buffer|
                          && Drain(textBuffer, assistantContent, parse) == Drain(buffer, content, parse)
      ensures messages == Reply(start, assistantContent)
      ensures input == old(input) && uploadedImage == old(uploadedImage) && isLoading == old(isLoading)
    {
      assistantContent, streamDone, halted := content, false, false;
      var line := buffer[..i];
      textBuffer := buffer[i + 1..];
      if EndsWith(line, "\r") {
        line := line[..|line| - 1];
      }
      assert line == StripCR(buffer[..i]);
      if StartsWith(line, ":") || IsBlank(line) || !StartsWith(line, "data: ") {
        DrainSkips(buffer, i, content, parse);
        return;
      }
      var jsonStr := Trim(line[6..]);
      if jsonStr == "[DONE]" {
        DrainEnds(buffer, i, content, parse);
        streamDone, halted := true, true;
        return;
      }
      assert LineKindOf(line) == DataLine(jsonStr);
      textBuffer, assistantContent, halted := TakeDataLine(buffer, i, line, jsonStr, content, start, parse);
    }

    /** The inner loop's body on a `data: ` line whose payload is not `[DONE]`. */
    method TakeDataLine(buffer: string, i: nat, line: string, jsonStr: string, content: string,
                        ghost start: seq<Message>, parse: string -> Payload)
      returns (textBuffer: string, assistantContent: string, halted: bool)
      requires IndexOf(buffer, "\n") == Some(i) && line == StripCR(buffer[..i])
      requires LineKindOf(line) == DataLine(jsonStr)
      requires messages == Reply(start, content)
      modifies this
      ensures halted ==> Progress(textBuffer, assistantContent, false) == Drain(buffer, content, parse)
      ensures !halted ==> textBuffer == buffer[i + 1..]
                          && Drain(textBuffer, assistantContent, parse) == Drain(buffer, content, parse)
      ensures messages == Reply(start, assistantContent)
      ensures input == old(input) && uploadedImage == old(uploadedImage) && isLoading == old(isLoading)
    {
      textBuffer, assistantContent, halted := buffer[i + 1..], content, false;
      match parse(jsonStr) {
        case Unparsable =>
          DrainFails(buffer, i, content, parse);
          textBuffer := line + "\n" + textBuffer;
          halted := true;
        case Parsed(delta) =>
          DrainReads(buffer, i, content, parse, jsonStr, delta);
          assistantContent := ShowDelta(content, delta, start);
      }
    }

    /** A parsed payload: a non-empty delta is appended to the reply and shown as the last message. */
    method ShowDelta(content: string, delta: Option<string>, ghost start: seq<Message>) returns (assistantContent: string)
      requires messages == Reply(start, content)
      modifies this
      ensures assistantContent == content + DeltaText(delta)
      ensures messages == Reply(start, assistantContent)
      ensures input == old(input) && uploadedImage == old(uploadedImage) && isLoading == old(isLoading)
    {
      assistantContent := content;
      if delta.Some? && delta.value != "" {
        ReplyGrows(start, content, delta.value);
        assistantContent := content + delta.value;
        messages := ShowAssistant(messages, assistantContent);
      } else {
        assert content + DeltaText(delta) == content;
      }
    }

    /** `handleSend`: posts the user's message, clears the input and the image, and streams the reply. */
    method Send(responseOk: bool, chunks: seq<string>, parse: string -> Payload)
      modifies this
      ensures var out := OutgoingMessage(old(input), old(uploadedImage));
        && (out.None? ==> messages == old(messages) && input == old(input)
                          && uploadedImage == old(uploadedImage) && isLoading == old(isLoading))
        && (out.Some? ==>
              && messages == (if responseOk then Reply(old(messages) + [out.value], StreamedText(chunks, parse))
                              else old(messages) + [out.value])
              && input == "" && uploadedImage == None && !isLoading)
    {
      var out := OutgoingMessage(input, uploadedImage);
      if out.None? {
        return;
      }
      messages := messages + [out.value];
      input := "";
      uploadedImage := None;
      isLoading := true;
      var _ := StreamChat(false, false, responseOk, chunks, parse);
      isLoading := false;
    }

    /** `handlePlanMyDay`: asks for a Dubai day plan and delivers the landmarks the reply names. */
    method PlanMyDay(hasListener: bool, responseOk: bool, chunks: seq<string>, parse: string -> Payload)
      returns (delivered: Option<seq<Place>>)
      modifies this
      ensures var asked := old(messages) + [Message(User, DayPlanPrompt, None)];
        messages == (if responseOk then Reply(asked, StreamedText(chunks, parse)) else asked)
      ensures delivered == (if responseOk && StreamedText(chunks, parse) != ""
                            then Delivery(StreamedText(chunks, parse), hasListener) else None)
      ensures input == old(input) && uploadedImage == old(uploadedImage) && !isLoading
    {
      messages := messages + [Message(User, DayPlanPrompt, None)];
      isLoading := true;
      delivered := StreamChat(true, hasListener, responseOk, chunks, parse);
      isLoading := false;
    }
  }
}
