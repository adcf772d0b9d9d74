/** Server-sent events: the printer (internal/events/sse.go) and the reader that bridges
    a daemon's stream into the local hub (internal/daemon/sse_bridge.go). */
module Sse {
  import opened Wrappers
  import opened Text

  datatype Event = Event(number: int, kind: string, time: int, payload: string)

  // ------------------------------------------------------------ the printer

  function Frame(kind: string, json: string): string {
    "event: " + kind + "\n" + "data: " + json + "\n" + "\n"
  }

  /** What is printed of an event. */
  datatype Item = Item(kind: string, json: string)

  function Items(events: seq<Event>, encode: Event -> string): (items: seq<Item>)
    ensures |items| == |events| && forall i :: 0 <= i < |items| ==> items[i] == Item(events[i].kind, encode(events[i]))
  {
    if events == [] then [] else [Item(events[0].kind, encode(events[0]))] + Items(events[1..], encode)
  }

  function Print(items: seq<Item>): string {
    if items == [] then "" else Frame(items[0].kind, items[0].json) + Print(items[1..])
  }

  // ------------------------------------------------------------------ lines

  predicate OneLine(s: string) {
    forall i | 0 <= i < |s| :: s[i] != '\n'
  }

  function LineEnd(s: string): (i: nat)
    ensures i <= |s| && (forall k :: 0 <= k < i ==> s[k] != '\n') && (i < |s| ==> s[i] == '\n')
  {
    if s == "" || s[0] == '\n' then 0 else 1 + LineEnd(s[1..])
  }

  /** The lines that end in a line feed; an unfinished one is dropped. */
  function Lines(s: string): seq<string> {
    var i := LineEnd(s);
    if i == |s| then [] else [s[..i]] + Lines(s[i + 1..])
  }

  lemma LineEndIs(s: string, i: nat)
    requires i < |s| && s[i] == '\n' && forall k :: 0 <= k < i ==> s[k] != '\n'
    ensures LineEnd(s) == i
  {
  }

  lemma LinesStep(s: string, i: nat)
    requires i < |s| && s[i] == '\n' && forall k :: 0 <= k < i ==> s[k] != '\n'
    ensures Lines(s) == [s[..i]] + Lines(s[i + 1..])
  {
    LineEndIs(s, i);
  }

  lemma OneLineHasNone(s: string)
    requires OneLine(s)
    ensures Lines(s) == []
  {
  }

  lemma Prepended(line: string, xs: seq<string>, ys: seq<string>)
    ensures [line] + (xs + ys) == [line] + xs + ys
  {
  }

  lemma Appended(xs: seq<string>, line: string, ys: seq<string>)
    ensures xs + ([line] + ys) == xs + [line] + ys
  {
  }

  /** The first line of a string, when it has one. */
  lemma TakeLine(a: string) returns (first: string, rest: string)
    requires LineEnd(a) < |a|
    ensures first == a[..LineEnd(a)] && a == first + "\n" + rest && OneLine(first)
    ensures Lines(a) == [first] + Lines(rest)
    ensures rest != "" ==> rest[|rest| - 1] == a[|a| - 1]
  {
    var i := LineEnd(a);
    first, rest := a[..i], a[i + 1..];
  }

  lemma LineFirst(first: string, rest: string, whole: string)
    requires OneLine(first) && whole == first + "\n" + rest
    ensures Lines(whole) == [first] + Lines(rest)
  {
    var i := |first|;
    assert whole[i] == '\n' && forall k :: 0 <= k < i ==> whole[k] == first[k];
    assert whole[..i] == first && whole[i + 1..] == rest;
    LinesStep(whole, i);
  }

  lemma Rejoined(a: string, first: string, rest: string, b: string)
    requires a == first + "\n" + rest
    ensures a + b == first + "\n" + (rest + b)
  {
  }

  lemma CutLater(a: string, first: string, rest: string, cut: string) returns (later: string)
    requires a == first + "\n" + rest && cut <= a && |first| < |cut|
    ensures later <= rest && cut == first + "\n" + later
  {
    later := cut[|first| + 1..];
  }

  lemma {:induction false} LinesAppend(a: string, b: string)
    requires a == "" || a[|a| - 1] == '\n'
    ensures Lines(a + b) == Lines(a) + Lines(b)
    decreases |a|
  {
    if a == "" {
      assert a + b == b;
    } else {
      var first, rest := TakeLine(a);
      LinesAppend(rest, b);
      Rejoined(a, first, rest, b);
      LineFirst(first, rest + b, a + b);
      Prepended(first, Lines(rest), Lines(b));
    }
  }

  lemma {:induction false} LinesTorn(a: string, torn: string)
    requires OneLine(torn)
    ensures Lines(a + torn) == Lines(a)
    decreases |a|
  {
    if LineEnd(a) == |a| {
      OneLineHasNone(a + torn);
    } else {
      var first, rest := TakeLine(a);
      LinesTorn(rest, torn);
      Rejoined(a, first, rest, torn);
      LineFirst(first, rest + torn, a + torn);
    }
  }

  lemma PrefixOfBoth(line: string, xs: seq<string>, ys: seq<string>)
    requires xs <= ys
    ensures [line] + xs <= [line] + ys
  {
  }

  lemma {:induction false} LinesCut(a: string, cut: string)
    requires cut <= a
    ensures Lines(cut) <= Lines(a)
    decreases |a|
  {
    if LineEnd(a) < |cut| {
      var first, rest := TakeLine(a);
      var later := CutLater(a, first, rest, cut);
      LinesCut(rest, later);
      LineFirst(first, later, cut);
      PrefixOfBoth(first, Lines(later), Lines(rest));
    } else {
      OneLineHasNone(cut);
    }
  }

  lemma OneLineIsItself(s: string)
    requires OneLine(s)
    ensures Lines(s + "\n") == [s]
  {
    assert s + "\n" == s + "\n" + "";
    LineFirst(s, "", s + "\n");
  }

  // ------------------------------------------------------------- the reader

  function DropReturns(line: string): string {
    if line != "" && line[|line| - 1] in "\r\n" then DropReturns(line[..|line| - 1]) else line
  }

  function Join(lines: seq<string>): string {
    if lines == [] then "" else if |lines| == 1 then lines[0] else lines[0] + "\n" + Join(lines[1..])
  }

  datatype State = State(eventType: string, data: seq<string>)

  /** What is handed to the JSON decoder, with the event type announced for it. */
  datatype Message = Message(eventType: string, raw: string)

  const START := State("", [])

  function Flush(st: State): seq<Message> {
    var raw := Trim(Join(st.data));
    if raw == "" then [] else [Message(st.eventType, raw)]
  }

  predicate IsData(line: string) {
    "data:" <= line
  }

  predicate IsType(line: string) {
    "event:" <= line
  }

  function Feed(st: State, line: string): (State, seq<Message>) {
    var line := DropReturns(line);
    if line == "" then (START, Flush(st))
    else if line[0] == ':' then (st, [])
    else if IsType(line) then (st.(eventType := Trim(line[6..])), [])
    else if IsData(line) then (st.(data := st.data + [Trim(line[5..])]), [])
    else (st, [])
  }

  function Run(st: State, lines: seq<string>): (State, seq<Message>) {
    if lines == [] then (st, []) else
      var (before, got) := Run(st, lines[..|lines| - 1]);
      var (after, more) := Feed(before, lines[|lines| - 1]);
      (after, got + more)
  }

  /** A stream ends at end of input, or in a read error. */
  datatype End = EndOfInput | Broken

  function Closed(r: (State, seq<Message>), end: End): seq<Message> {
    if end.EndOfInput? then r.1 + Flush(r.0) else r.1
  }

  function Messages(stream: string, end: End): seq<Message> {
    Closed(Run(START, Lines(stream)), end)
  }

  /** The announced type stands in for a blank one. */
  function Announce(e: Event, eventType: string): Event {
    if Trim(e.kind) == "" && Trim(eventType) != "" then e.(kind := Trim(eventType)) else e
  }

  /** Nothing for a message that does not decode. */
  function Decoded(m: Message, decode: string -> Option<Event>): seq<Event> {
    match decode(m.raw)
    case None => []
    case Some(e) => [Announce(e, m.eventType)]
  }

  function Delivered(ms: seq<Message>, decode: string -> Option<Event>): seq<Event> {
    if ms == [] then [] else Delivered(ms[..|ms| - 1], decode) + Decoded(ms[|ms| - 1], decode)
  }

  function Numbered(events: seq<Event>, from: int): seq<Event> {
    seq(|events|, i requires 0 <= i < |events| => events[i].(number := from + 1 + i))
  }

  /** The published events, with those added that come next. */
  function WithNumbered(published0: seq<Event>, events: seq<Event>, last0: int): seq<Event> {
    published0 + Numbered(events, last0)
  }

  class Hub {
    var last: int
    var published: seq<Event>

    constructor ()
      ensures last == 0 && published == []
    {
      last, published := 0, [];
    }

    method Publish(e: Event)
      modifies this
      ensures last == old(last) + 1 && published == old(published) + [e.(number := last)]
    {
      last := last + 1;
      published := published + [e.(number := last)];
    }
  }

  ghost predicate Heard(hub: Hub, last0: int, published0: seq<Event>, events: seq<Event>)
    reads hub
  {
    hub.last == last0 + |events| && hub.published == WithNumbered(published0, events, last0)
  }

  lemma DeliveredSnoc(ms: seq<Message>, m: Message, decode: string -> Option<Event>)
    ensures Delivered(ms + [m], decode) == Delivered(ms, decode) + Decoded(m, decode)
  {
    assert (ms + [m])[..|ms|] == ms;
  }

  /** `now` is what was sent, and what the message decodes to. */
  ghost predicate Follows(m: Message, decode: string -> Option<Event>, last0: int, published0: seq<Event>,
                          sent: seq<Event>, now: seq<Event>) {
    match decode(m.raw)
    case None => now == sent
    case Some(e) =>
      && |now| == |sent| + 1
      && WithNumbered(published0, now, last0)
         == WithNumbered(published0, sent, last0) + [Announce(e, m.eventType).(number := last0 + |now|)]
  }

  lemma NextNumber(ms: seq<Message>, m: Message, decode: string -> Option<Event>, last0: int, published0: seq<Event>,
                   sent: seq<Event>, now: seq<Event>)
    requires sent == Delivered(ms, decode) && now == Delivered(ms + [m], decode)
    ensures Follows(m, decode, last0, published0, sent, now)
  {
    DeliveredSnoc(ms, m, decode);
    if decode(m.raw).Some? {
      var e := Announce(decode(m.raw).value, m.eventType);
      NumberedSnoc(sent, e, now, last0);
      Behind(published0, Numbered(sent, last0), e.(number := last0 + |now|));
    }
  }

  lemma NumberedSnoc(sent: seq<Event>, e: Event, now: seq<Event>, last0: int)
    requires now == sent + [e]
    ensures Numbered(now, last0) == Numbered(sent, last0) + [e.(number := last0 + |now|)]
  {
  }

  lemma Behind(a: seq<Event>, b: seq<Event>, e: Event)
    ensures a + (b + [e]) == a + b + [e]
  {
  }

  /** The reader between two lines, with the messages it has passed on. */
  class Reader {
    var eventType: string
    var data: seq<string>
    const hub: Hub
    const decode: string -> Option<Event>
    ghost var passed: seq<Message>
    ghost const last0: int
    ghost const published0: seq<Event>

    constructor (hub: Hub, decode: string -> Option<Event>)
      ensures this.hub == hub && this.decode == decode && Between() == START && passed == [] && Valid()
      ensures last0 == hub.last && published0 == hub.published
    {
      eventType, data := "", [];
      this.hub, this.decode := hub, decode;
      passed, last0, published0 := [], hub.last, hub.published;
    }

    function Between(): State
      reads this
    {
      State(eventType, data)
    }

    /** The hub got what the messages decode to. */
    ghost predicate Valid()
      reads this, hub
    {
      Heard(hub, last0, published0, Delivered(passed, decode))
    }

    /** Publishes what the message decodes to, if anything. */
    method Send(m: Message, ghost sent: seq<Event>, ghost now: seq<Event>)
      requires Heard(hub, last0, published0, sent) && Follows(m, decode, last0, published0, sent, now)
      modifies hub
      ensures Heard(hub, last0, published0, now)
    {
      match decode(m.raw) {
        case None =>
        case Some(e) => hub.Publish(Announce(e, m.eventType));
      }
    }

    method PassOn(m: Message)
      requires Valid()
      modifies this`passed, hub
      ensures Valid() && passed == old(passed) + [m]
    {
      ghost var sent, now := Delivered(passed, decode), Delivered(passed + [m], decode);
      NextNumber(passed, m, decode, last0, published0, sent, now);
      Send(m, sent, now);
      passed := passed + [m];
    }

    method FlushData()
      requires Valid()
      modifies this, hub
      ensures Valid() && Between() == START && passed == old(passed) + Flush(old(Between()))
    {
      if data == [] {
        eventType := "";
        return;
      }
      var et, raw := eventType, Trim(Join(data));
      eventType, data := "", [];
      if raw != "" {
        PassOn(Message(et, raw));
      }
    }

    method FeedLine(rawLine: string)
      requires Valid()
      modifies this, hub
      ensures Valid()
      ensures Between() == Feed(old(Between()), rawLine).0
      ensures passed == old(passed) + Feed(old(Between()), rawLine).1
    {
      var line := DropReturns(rawLine);
      if line == "" {
        FlushData();
      } else if line[0] == ':' {
      } else if IsType(line) {
        eventType := Trim(line[6..]);
      } else if IsData(line) {
        data := data + [Trim(line[5..])];
      }
    }
  }

  /** `rest` is still to be read, after the lines `done`, which made `ms` complete. */
  ghost predicate At(stream: string, rest: string, done: seq<string>, st: State, ms: seq<Message>) {
    Lines(stream) == done + Lines(rest) && Run(START, done) == (st, ms)
  }

  lemma AtNext(stream: string, rest: string, done: seq<string>, st: State, ms: seq<Message>, line: string, next: string)
    requires At(stream, rest, done, st, ms) && LineEnd(rest) < |rest|
    requires line == rest[..LineEnd(rest)] && next == rest[LineEnd(rest) + 1..]
    ensures At(stream, next, done + [line], Feed(st, line).0, ms + Feed(st, line).1)
  {
    LinesStep(rest, LineEnd(rest));
    Appended(done, line, Lines(next));
    RunSnoc(START, done, line);
  }

  lemma AtEnd(stream: string, rest: string, done: seq<string>, st: State, ms: seq<Message>, end: End)
    requires At(stream, rest, done, st, ms) && OneLine(rest)
    ensures Messages(stream, end) == if end.EndOfInput? then ms + Flush(st) else ms
  {
    OneLineHasNone(rest);
    assert done + [] == done;
  }

  /** Reads the stream line by line, publishing what it completes. */
  method ConsumeSSE(stream: string, end: End, decode: string -> Option<Event>, hub: Hub)
    modifies hub
    ensures Heard(hub, old(hub.last), old(hub.published), Delivered(Messages(stream, end), decode))
  {
    var reader := new Reader(hub, decode);
    var rest := stream;
    ghost var done: seq<string> := [];
    while true
      invariant At(stream, rest, done, reader.Between(), reader.passed)
      invariant reader.hub == hub && fresh(reader) && reader.Valid()
      decreases |rest|
    {
      var i := LineEnd(rest);
      if i == |rest| {
        break;
      }
      var line := rest[..i];
      AtNext(stream, rest, done, reader.Between(), reader.passed, line, rest[i + 1..]);
      rest, done := rest[i + 1..], done + [line];
      reader.FeedLine(line);
    }
    AtEnd(stream, rest, done, reader.Between(), reader.passed, end);
    if end.EndOfInput? {
      reader.FlushData();
    }
  }

  lemma {:induction false} DeliveredAppend(a: seq<Message>, b: seq<Message>, decode: string -> Option<Event>)
    ensures Delivered(a + b, decode) == Delivered(a, decode) + Delivered(b, decode)
  {
    if b == [] {
      assert a + b == a;
    } else {
      assert (a + b)[..|a + b| - 1] == a + b[..|b| - 1];
      DeliveredAppend(a, b[..|b| - 1], decode);
    }
  }

  lemma RunSnoc(st: State, lines: seq<string>, line: string)
    ensures var (mid, got) := Run(st, lines); var (after, more) := Feed(mid, line);
      Run(st, lines + [line]) == (after, got + more)
  {
    assert (lines + [line])[..|lines|] == lines;
  }

  lemma {:induction false} RunAppend(st: State, a: seq<string>, b: seq<string>)
    ensures var (mid, got) := Run(st, a); var (after, more) := Run(mid, b);
      Run(st, a + b) == (after, got + more)
  {
    if b == [] {
      assert a + b == a;
      assert Run(st, a).1 + [] == Run(st, a).1;
    } else {
      var n := |b| - 1;
      assert b[..n] + [b[n]] == b && a + b[..n] + [b[n]] == a + b;
      RunAppend(st, a, b[..n]);
      RunSnoc(st, a + b[..n], b[n]);
      var (mid, got) := Run(st, a);
      var (last, more) := Run(mid, b[..n]);
      assert got + more + Feed(last, b[n]).1 == got + (more + Feed(last, b[n]).1);
    }
  }

  // -------------------------------------------------- what the reader goes by

  /** The end of the line is not part of it, whether it is a line feed alone or not. */
  lemma {:induction false} ReturnsAreDropped(text: string, ending: string)
    requires (text == "" || text[|text| - 1] !in "\r\n") && forall c :: c in ending ==> c in "\r\n"
    ensures DropReturns(text + ending) == text
  {
    if ending == "" {
      assert text + ending == text;
    } else {
      var n := |ending| - 1;
      assert (text + ending)[..|text| + n] == text + ending[..n] && ending[n] in ending;
      ReturnsAreDropped(text, ending[..n]);
    }
  }

  /** How each kind of line is read: an empty one ends the event, a colon begins a comment,
      a type is remembered, data is added, and anything else is passed over. */
  lemma LineRules(st: State, line: string, value: string)
    requires value == "" || value[|value| - 1] !in "\r\n"
    ensures Feed(st, "").0 == State("", [])
    ensures line == ":" + value ==> Feed(st, line) == (st, [])
    ensures line == "event:" + value ==> Feed(st, line) == (State(Trim(value), st.data), [])
    ensures line == "data:" + value ==> Feed(st, line) == (State(st.eventType, st.data + [Trim(value)]), [])
    ensures line == value != "" && line[0] != ':' && !("event:" <= line) && !("data:" <= line) ==>
      Feed(st, line) == (st, [])
  {
    if line == "event:" + value { assert line[6..] == value; }
    if line == "data:" + value { assert line[5..] == value; }
  }

  /** The event that an empty line ends: its data lines, one below the other, unless they
      are blank. */
  lemma EventEnds(st: State, early: seq<string>, last: string)
    requires st.data == early + [last]
    ensures Feed(st, "").1
         == var raw := if early == [] then last else Join(early) + "\n" + last;
            if White(raw) then [] else [Message(st.eventType, Trim(raw))]
  {
    if early == [] {
      assert [] + [last] == [last];
    } else {
      JoinSnoc(early, last);
      assert Join(early) + ("\n" + last) == Join(early) + "\n" + last;
    }
    TrimEmptyIsWhite(Join(st.data));
  }

  /** An event is published under its own type, or under the one announced if it has none. */
  lemma AnnouncedTypeStandsIn(e: Event, announced: string, decode: string -> Option<Event>, raw: string)
    requires decode(raw) == Some(e)
    ensures Decoded(Message(announced, raw), decode)
         == [Event(e.number, if White(e.kind) && !White(announced) then Trim(announced) else e.kind, e.time, e.payload)]
  {
    TrimEmptyIsWhite(e.kind);
    TrimEmptyIsWhite(announced);
  }

  /** What the printer writes of an event. */
  lemma FrameIs(kind: string, json: string)
    ensures Frame(kind, json) == "event: " + kind + "\ndata: " + json + "\n\n"
  {
  }

  // ------------------------------------------------------- what is read back

  function Head(kind: string): string {
    "event: " + kind + "\n"
  }

  /** Not a data line, or one with nothing on it. */
  predicate BlankData(line: string) {
    var line := DropReturns(line);
    IsData(line) ==> Trim(line[5..]) == ""
  }

  /** An event type whose text does not, after a line feed, go on with a data line. */
  predicate Harmless(kind: string) {
    forall line | line in Lines(Head(kind)) :: BlankData(line)
  }

  predicate Blank(data: seq<string>) {
    forall i | 0 <= i < |data| :: data[i] == ""
  }

  lemma {:induction false} BlankJoin(data: seq<string>, json: string)
    requires Blank(data) && Trimmed(json)
    ensures Trim(Join(data)) == "" && Trim(Join(data + [json])) == json
  {
    var w := JoinWhite(data, json);
    TrimLeftWhite(w, json);
    TrimLeftWhite(Join(data), "");
    assert Join(data) + "" == Join(data);
    TrimIsTrimmed(json);
  }

  lemma {:induction false} JoinWhite(data: seq<string>, json: string) returns (w: string)
    requires Blank(data)
    ensures White(w) && Join(data + [json]) == w + json && White(Join(data))
  {
    if data == [] {
      w := "";
      assert data + [json] == [json];
    } else {
      var v := JoinWhite(data[1..], json);
      assert (data + [json])[1..] == data[1..] + [json];
      w := "\n" + v;
    }
  }

  lemma FeedBlank(st: State, line: string)
    requires Blank(st.data) && BlankData(line)
    ensures Feed(st, line).1 == [] && Blank(Feed(st, line).0.data)
  {
    BlankJoin(st.data, "");
  }

  lemma {:induction false} RunBlank(st: State, lines: seq<string>)
    requires Blank(st.data) && forall line :: line in lines ==> BlankData(line)
    ensures Run(st, lines).1 == [] && Blank(Run(st, lines).0.data)
  {
    if lines != [] {
      RunBlank(st, lines[..|lines| - 1]);
      FeedBlank(Run(st, lines[..|lines| - 1]).0, lines[|lines| - 1]);
    }
  }

  /** What the encoder yields is one line of text without white space around it. */
  predicate Payload(json: string) {
    json != "" && Trimmed(json) && OneLine(json)
  }

  lemma FeedPayload(st: State, json: string)
    requires Payload(json)
    ensures Feed(st, "data: " + json) == (st.(data := st.data + [json]), [])
  {
    var line := "data: " + json;
    assert DropReturns(line) == line by { assert line[|line| - 1] == json[|json| - 1]; }
    assert line[5..] == " " + json;
    TrimLeftWhite(" ", json);
    TrimIsTrimmed(json);
  }

  lemma HeadLines(kind: string, json: string)
    requires OneLine(json)
    ensures Lines(Head(kind) + "data: " + json + "\n") == Lines(Head(kind)) + ["data: " + json]
    ensures Lines(Frame(kind, json)) == Lines(Head(kind)) + ["data: " + json] + [""]
  {
    var body := "data: " + json;
    var printed := Head(kind) + (body + "\n");
    assert Head(kind) + "data: " + json + "\n" == printed;
    LinesAppend(Head(kind), body + "\n");
    OneLineIsItself(body);
    assert Frame(kind, json) == printed + ("" + "\n");
    LinesAppend(printed, "" + "\n");
    OneLineIsItself("");
  }

  /** The type the reader remembers once the lines of the type have passed. */
  function Announced(kind: string): string {
    Run(START, Lines(Head(kind))).0.eventType
  }

  lemma FrameCompletes(kind: string, json: string)
    requires Harmless(kind) && Payload(json)
    ensures Run(START, Lines(Head(kind))).1 == [] && Blank(Run(START, Lines(Head(kind))).0.data)
    ensures Closed(Run(START, Lines(Head(kind) + "data: " + json + "\n")), EndOfInput)
         == [Message(Announced(kind), json)]
    ensures Run(START, Lines(Head(kind) + "data: " + json + "\n")).1 == []
    ensures Run(START, Lines(Frame(kind, json))) == (START, [Message(Announced(kind), json)])
  {
    var head, body := Lines(Head(kind)), "data: " + json;
    RunBlank(START, head);
    HeadLines(kind, json);
    var (st, _) := Run(START, head);
    RunSnoc(START, head, body);
    FeedPayload(st, json);
    BlankJoin(st.data, json);
    RunSnoc(START, head + [body], "");
  }

  // ---------------------------------------------------- cutting the stream

  ghost predicate Codec(encode: Event -> string, decode: string -> Option<Event>) {
    forall e :: decode(encode(e)) == Some(e) && Payload(encode(e))
  }

  predicate Legible(items: seq<Item>) {
    forall i | 0 <= i < |items| :: Harmless(items[i].kind) && Payload(items[i].json)
  }

  /** How many events the first `n` characters deliver. At end of input an event needs
      no more than its data line, after a read error its closing empty line too. */
  function Arrived(items: seq<Item>, n: nat, end: End): (k: nat)
    ensures k <= |items|
  {
    if items == [] then 0 else
      var f := |Frame(items[0].kind, items[0].json)|;
      if n >= f then 1 + Arrived(items[1..], n - f, end)
      else if end.EndOfInput? && n == f - 1 then 1
      else 0
  }

  lemma {:induction false} ArrivedCountsCompleteEvents(items: seq<Item>, n: nat, end: End, k: nat)
    requires k <= |items|
    ensures Arrived(items, n, end) >= k <==> |Print(items[..k])| <= (if end.EndOfInput? then n + 1 else n)
  {
    if k > 0 {
      var f := |Frame(items[0].kind, items[0].json)|;
      assert items[..k][1..] == items[1..][..k - 1];
      if n >= f {
        ArrivedCountsCompleteEvents(items[1..], n - f, end, k - 1);
      } else if k > 1 {
        assert |Print(items[..k])| > f;
      }
    }
  }

  lemma TakeOfConcat(a: string, b: string, m: nat)
    requires m <= |a| + |b|
    ensures (a + b)[..m] == if m < |a| then a[..m] else a + b[..m - |a|]
  {
  }

  lemma CutLines(head: string, body: string, m: nat)
    requires m <= |head| + |body| && OneLine(body)
    ensures Lines((head + body)[..m]) <= Lines(head)
  {
    TakeOfConcat(head, body, m);
    if m < |head| {
      LinesCut(head, head[..m]);
    } else {
      LinesTorn(head, body[..m - |head|]);
    }
  }

  lemma BlankLinesHoldNothing(lines: seq<string>, end: End)
    requires forall line :: line in lines ==> BlankData(line)
    ensures Closed(Run(START, lines), end) == []
  {
    RunBlank(START, lines);
    BlankJoin(Run(START, lines).0.data, "");
  }

  lemma CutInside(kind: string, json: string, m: nat, torn: string, end: End)
    requires Harmless(kind) && Payload(json) && OneLine(torn) && m < |Frame(kind, json)| - 1
    ensures Messages(Frame(kind, json)[..m] + torn, end) == []
  {
    var head, body := Head(kind), "data: " + json;
    assert Frame(kind, json) == head + body + "\n\n";
    TakeOfConcat(head + body, "\n\n", m);
    assert Frame(kind, json)[..m] == (head + body)[..m];
    LinesTorn(Frame(kind, json)[..m], torn);
    CutLines(head, body, m);
    BlankLinesHoldNothing(Lines(Frame(kind, json)[..m]), end);
  }

  lemma CutBeforeLastLine(kind: string, json: string, torn: string, end: End)
    requires Harmless(kind) && Payload(json) && OneLine(torn)
    ensures var cut := Frame(kind, json)[..|Frame(kind, json)| - 1] + torn;
      Messages(cut, end) == if end.EndOfInput? then [Message(Announced(kind), json)] else []
  {
    var cut := Frame(kind, json)[..|Frame(kind, json)| - 1];
    assert cut == Head(kind) + "data: " + json + "\n";
    LinesTorn(cut, torn);
    FrameCompletes(kind, json);
  }

  lemma AfterFrame(kind: string, json: string, rest: string, end: End)
    requires Harmless(kind) && Payload(json)
    ensures Messages(Frame(kind, json) + rest, end) == [Message(Announced(kind), json)] + Messages(rest, end)
  {
    LinesAppend(Frame(kind, json), rest);
    FrameCompletes(kind, json);
    ClosedAfter(Lines(Frame(kind, json)), Lines(rest), Message(Announced(kind), json), end);
  }

  lemma ClosedAfter(a: seq<string>, b: seq<string>, m: Message, end: End)
    requires Run(START, a) == (START, [m])
    ensures Closed(Run(START, a + b), end) == [m] + Closed(Run(START, b), end)
  {
    RunAppend(START, a, b);
    var (st, more) := Run(START, b);
    assert [m] + more + Flush(st) == [m] + (more + Flush(st));
  }

  lemma {:induction false} DropReturnsPrefix(line: string)
    ensures DropReturns(line) <= line
  {
    if line != "" && line[|line| - 1] in "\r\n" { DropReturnsPrefix(line[..|line| - 1]); }
  }

  predicate NamesNothing(line: string) {
    var line := DropReturns(line);
    IsType(line) ==> Trim(line[6..]) == ""
  }

  lemma {:induction false} RunNamesNothing(st: State, lines: seq<string>)
    requires st.eventType == "" && forall line :: line in lines ==> NamesNothing(line)
    ensures Run(st, lines).0.eventType == ""
  {
    if lines != [] {
      RunNamesNothing(st, lines[..|lines| - 1]);
      assert NamesNothing(lines[|lines| - 1]);
    }
  }

  lemma {:induction false} LinesWhite(s: string)
    requires White(s)
    ensures forall line :: line in Lines(s) ==> White(line)
    decreases |s|
  {
    var i := LineEnd(s);
    if i < |s| { LinesWhite(s[i + 1..]); }
  }

  lemma PrefixedAt(p: string, s: string, i: nat, whole: string)
    requires OneLine(p) && i < |s| && s[i] == '\n' && (forall k :: 0 <= k < i ==> s[k] != '\n') && whole == p + s
    ensures |p| + i < |whole| && whole[|p| + i] == '\n' && forall k :: 0 <= k < |p| + i ==> whole[k] != '\n'
    ensures whole[..|p| + i] == p + s[..i] && whole[|p| + i + 1..] == s[i + 1..]
  {
  }

  lemma PrefixedLines(p: string, s: string)
    requires OneLine(p) && LineEnd(s) < |s|
    ensures Lines(p + s) == [p + s[..LineEnd(s)]] + Lines(s[LineEnd(s) + 1..])
  {
    var i := LineEnd(s);
    PrefixedAt(p, s, i, p + s);
    LineAt(p + s, |p| + i, p + s[..i], s[i + 1..]);
  }

  lemma LineAt(whole: string, i: nat, first: string, rest: string)
    requires i < |whole| && whole[i] == '\n' && forall k :: 0 <= k < i ==> whole[k] != '\n'
    requires whole[..i] == first && whole[i + 1..] == rest
    ensures Lines(whole) == [first] + Lines(rest)
  {
    LinesStep(whole, i);
  }

  lemma BlankHeadLines(kind: string) returns (w: string, rest: seq<string>)
    requires White(kind)
    ensures Lines(Head(kind)) == ["event: " + w] + rest && White(w) && forall line :: line in rest ==> White(line)
  {
    var line := kind + "\n";
    var i := WhiteLineEnd(kind, line);
    w, rest := line[..i], Lines(line[i + 1..]);
    assert Head(kind) == "event: " + line;
    PrefixedLines("event: ", line);
    LinesWhite(line[i + 1..]);
  }

  lemma WhiteLineEnd(kind: string, line: string) returns (i: nat)
    requires White(kind) && line == kind + "\n"
    ensures i == LineEnd(line) < |line| && White(line[..i]) && White(line[i + 1..])
  {
    i := LineEnd(line);
    assert line[|kind|] == '\n';
    forall c | c in line ensures IsSpace(c) { assert c in kind || c == '\n'; }
  }

  lemma WhiteNamesNothing(line: string)
    requires White(line)
    ensures NamesNothing(line) && NamesNothing("event: " + line)
  {
    DropReturnsPrefix(line);
    assert line != "" ==> line[0] in line;
    var first := DropReturns("event: " + line);
    DropReturnsPrefix("event: " + line);
    if IsType(first) {
      assert first[6..] == ("event: " + line)[6..|first|] == (" " + line)[..|first| - 6];
      TrimEmptyIsWhite(first[6..]);
    }
  }

  /** A blank event type is announced as none. */
  lemma BlankTypeAnnouncesNothing(kind: string)
    requires Trim(kind) == ""
    ensures Announced(kind) == ""
  {
    TrimEmptyIsWhite(kind);
    var w, rest := BlankHeadLines(kind);
    forall line | line in ["event: " + w] + rest ensures NamesNothing(line) {
      if line in rest { WhiteNamesNothing(line); } else { WhiteNamesNothing(w); }
    }
    RunNamesNothing(START, Lines(Head(kind)));
  }

  lemma DecodedBack(e: Event, json: string, decode: string -> Option<Event>)
    requires decode(json) == Some(e)
    ensures Decoded(Message(Announced(e.kind), json), decode) == [e]
  {
    if Trim(e.kind) == "" {
      BlankTypeAnnouncesNothing(e.kind);
      TrimIsTrimmed("");
    }
  }

  lemma FirstDelivered(m: Message, ms: seq<Message>, e: Event, decode: string -> Option<Event>)
    requires Decoded(m, decode) == [e]
    ensures Delivered([m] + ms, decode) == [e] + Delivered(ms, decode)
  {
    DeliveredAppend([m], ms, decode);
    assert Delivered([m], decode) == Delivered([], decode) + [e];
  }

  /** The messages in part of a frame: none, or the one if only the empty line is missing. */
  lemma CutInFrame(kind: string, json: string, n: nat, torn: string, end: End, stream: string)
    requires Harmless(kind) && Payload(json) && n < |Frame(kind, json)| && OneLine(torn)
    requires stream == Frame(kind, json)[..n] + torn
    ensures Messages(stream, end)
         == if end.EndOfInput? && n == |Frame(kind, json)| - 1 then [Message(Announced(kind), json)] else []
  {
    if n < |Frame(kind, json)| - 1 {
      CutInside(kind, json, n, torn, end);
    } else {
      CutBeforeLastLine(kind, json, torn, end);
    }
  }

  lemma NothingRead(torn: string, end: End)
    requires OneLine(torn)
    ensures Messages(torn, end) == []
  {
    OneLineHasNone(torn);
    BlankJoin([], "");
  }

  function AnnouncedAll(items: seq<Item>): seq<Message> {
    if items == [] then [] else [Message(Announced(items[0].kind), items[0].json)] + AnnouncedAll(items[1..])
  }

  lemma AnnouncedPast(items: seq<Item>, n: nat, end: End, ms: seq<Message>)
    requires items != [] && n >= |Frame(items[0].kind, items[0].json)|
    requires ms == AnnouncedAll(items[1..][..Arrived(items[1..], n - |Frame(items[0].kind, items[0].json)|, end)])
    ensures [Message(Announced(items[0].kind), items[0].json)] + ms == AnnouncedAll(items[..Arrived(items, n, end)])
  {
    var k := Arrived(items, n, end);
    assert items[..k][1..] == items[1..][..k - 1];
  }

  lemma AnnouncedPart(items: seq<Item>, n: nat, end: End)
    requires items != [] && n < |Frame(items[0].kind, items[0].json)|
    ensures AnnouncedAll(items[..Arrived(items, n, end)])
         == if end.EndOfInput? && n == |Frame(items[0].kind, items[0].json)| - 1
            then [Message(Announced(items[0].kind), items[0].json)] else []
  {
    var k := Arrived(items, n, end);
    assert items[..k] == if k == 1 then [items[0]] else [];
  }

  lemma SplitCut(first: string, tail: string, n: nat, torn: string)
    requires n <= |first + tail|
    ensures n >= |first| ==> (first + tail)[..n] + torn == first + (tail[..n - |first|] + torn)
    ensures n < |first| ==> (first + tail)[..n] + torn == first[..n] + torn
  {
  }

  lemma {:induction false} CutMessages(items: seq<Item>, n: nat, torn: string, end: End, cut: string, ms: seq<Message>)
    requires Legible(items) && n <= |Print(items)| && OneLine(torn)
    requires cut == Print(items)[..n] + torn && ms == Messages(cut, end)
    ensures ms == AnnouncedAll(items[..Arrived(items, n, end)])
  {
    if items == [] {
      assert cut == torn;
      NothingRead(torn, end);
    } else {
      var kind, json := items[0].kind, items[0].json;
      var first, tail := Frame(kind, json), Print(items[1..]);
      SplitCut(first, tail, n, torn);
      if n >= |first| {
        var cut' := tail[..n - |first|] + torn;
        var ms' := Messages(cut', end);
        AfterFrame(kind, json, cut', end);
        CutMessages(items[1..], n - |first|, torn, end, cut', ms');
        AnnouncedPast(items, n, end, ms');
      } else {
        CutInFrame(kind, json, n, torn, end, cut);
        AnnouncedPart(items, n, end);
      }
    }
  }

  lemma {:induction false} AnnouncedIsDelivered(events: seq<Event>, encode: Event -> string,
                                                decode: string -> Option<Event>, ms: seq<Message>)
    requires Codec(encode, decode) && ms == AnnouncedAll(Items(events, encode))
    ensures Delivered(ms, decode) == events
  {
    if events != [] {
      var e := events[0];
      assert Items(events, encode)[1..] == Items(events[1..], encode);
      AnnouncedIsDelivered(events[1..], encode, decode, ms[1..]);
      DecodedBack(e, encode(e), decode);
      FirstDelivered(ms[0], ms[1..], e, decode);
    }
  }

  /** However the printed stream is cut, even inside a character, and whichever way it
      ends, the events read are the first ones printed, in order: those that arrived. */
  lemma CutYieldsPrefix(events: seq<Event>, encode: Event -> string, decode: string -> Option<Event>,
                        n: nat, torn: string, end: End, ms: seq<Message>)
    requires Codec(encode, decode) && OneLine(torn) && n <= |Print(Items(events, encode))|
    requires forall i :: 0 <= i < |events| ==> Harmless(events[i].kind)
    requires ms == Messages(Print(Items(events, encode))[..n] + torn, end)
    ensures Delivered(ms, decode) == events[..Arrived(Items(events, encode), n, end)]
  {
    var items := Items(events, encode);
    var k := Arrived(items, n, end);
    CutMessages(items, n, torn, end, Print(items)[..n] + torn, ms);
    assert items[..k] == Items(events[..k], encode);
    AnnouncedIsDelivered(events[..k], encode, decode, ms);
  }

  /** The whole stream yields all events, in order. */
  lemma WholeStreamYieldsAll(events: seq<Event>, encode: Event -> string, decode: string -> Option<Event>, end: End,
                             ms: seq<Message>)
    requires Codec(encode, decode) && forall i :: 0 <= i < |events| ==> Harmless(events[i].kind)
    requires ms == Messages(Print(Items(events, encode)), end)
    ensures Delivered(ms, decode) == events
  {
    var all := Print(Items(events, encode));
    assert all[..|all|] + "" == all;
    CutYieldsPrefix(events, encode, decode, |all|, "", end, ms);
    AllArrived(Items(events, encode), |all|, end);
    assert events[..|events|] == events;
  }

  lemma AllArrived(items: seq<Item>, n: nat, end: End)
    requires n == |Print(items)|
    ensures Arrived(items, n, end) == |items|
  {
    ArrivedCountsCompleteEvents(items, n, end, |items|);
    assert items[..|items|] == items;
  }

  // ------------------------------------------------ types that are harmful

  predicate AllTrimmed(data: seq<string>) {
    forall i | 0 <= i < |data| :: Trimmed(data[i])
  }

  lemma {:induction false} RunTrimmed(lines: seq<string>)
    ensures AllTrimmed(Run(START, lines).0.data)
  {
    if lines != [] {
      RunTrimmed(lines[..|lines| - 1]);
      var line := DropReturns(lines[|lines| - 1]);
      if IsData(line) { TrimIsTrimmed(line[5..]); }
    }
  }

  lemma {:induction false} WhiteJoin(data: seq<string>)
    requires White(Join(data)) && AllTrimmed(data)
    ensures Blank(data)
  {
    if data != [] {
      assert White(data[0]) by {
        forall c | c in data[0] ensures IsSpace(c) { assert c in Join(data); }
      }
      TrimEmptyIsWhite(data[0]);
      TrimIsTrimmed(data[0]);
      assert White(Join(data[1..])) by {
        forall c | c in Join(data[1..]) ensures IsSpace(c) { if |data| > 1 { assert c in Join(data); } }
      }
      WhiteJoin(data[1..]);
    }
  }

  /** Once a data line with something on it has passed, it shows: in a message, or in
      what is still held back. */
  lemma {:induction false} DataLineShows(lines: seq<string>, line: string)
    requires line in lines && !BlankData(line)
    ensures var (st, got) := Run(START, lines); got != [] || !Blank(st.data)
  {
    var n := |lines| - 1;
    var (mid, got) := Run(START, lines[..n]);
    var last := DropReturns(lines[n]);
    if line == lines[n] {
      assert Feed(mid, line).0.data == mid.data + [Trim(last[5..])];
      assert Feed(mid, line).0.data[|mid.data|] != "";
    } else {
      assert line in lines[..n];
      DataLineShows(lines[..n], line);
      if got == [] {
        RunTrimmed(lines[..n]);
        HeldBackShows(mid);
        var i :| 0 <= i < |mid.data| && mid.data[i] != "";
        if last != "" { assert Feed(mid, lines[n]).0.data[i] == mid.data[i]; }
      }
    }
  }

  lemma HeldBackShows(st: State)
    requires AllTrimmed(st.data) && !Blank(st.data)
    ensures Flush(st) != []
  {
    TrimEmptyIsWhite(Join(st.data));
    if White(Join(st.data)) { WhiteJoin(st.data); }
  }

  lemma {:induction false} JoinSnoc(data: seq<string>, json: string)
    requires data != []
    ensures Join(data + [json]) == Join(data) + ("\n" + json)
  {
    assert (data + [json])[1..] == data[1..] + [json];
    if |data| > 1 {
      JoinSnoc(data[1..], json);
      assert data[0] + "\n" + (Join(data[1..]) + ("\n" + json)) == data[0] + "\n" + Join(data[1..]) + ("\n" + json);
    } else {
      assert (data + [json])[1..] == [json];
    }
  }

  /** What is held back does not go away when the payload joins it. */
  lemma HeldBackSpoils(data: seq<string>, json: string)
    requires AllTrimmed(data) && !Blank(data) && Payload(json)
    ensures |Trim(Join(data + [json]))| > |json|
  {
    if White(Join(data)) { WhiteJoin(data); }
    JoinSnoc(data, json);
    TrimLeftKeeps(Join(data), "\n" + json);
    var rest := TrimLeft(Join(data)) + ("\n" + json);
    assert rest[|rest| - 1] == json[|json| - 1];
  }

  predicate IsOne(ms: seq<Message>, raw: string) {
    |ms| == 1 && ms[0].raw == raw
  }

  /** A printed event is read back as the one message it was, whatever its payload,
      exactly when its type is harmless. */
  lemma ReadBackIffHarmless(kind: string, json: string)
    requires Payload(json)
    ensures IsOne(Messages(Frame(kind, json), EndOfInput), json) <==> Harmless(kind)
  {
    if Harmless(kind) {
      AfterFrame(kind, json, "", EndOfInput);
      NothingRead("", EndOfInput);
      assert Frame(kind, json) + "" == Frame(kind, json);
      assert Messages(Frame(kind, json), EndOfInput) == [Message(Announced(kind), json)];
    } else {
      HarmfulIsNotReadBack(kind, json);
    }
  }

  lemma FrameMessages(kind: string, json: string, st: State, got: seq<Message>)
    requires Payload(json) && Run(START, Lines(Head(kind))) == (st, got)
    ensures Messages(Frame(kind, json), EndOfInput) == got + Flush(st.(data := st.data + [json]))
  {
    var head, body := Lines(Head(kind)), "data: " + json;
    HeadLines(kind, json);
    RunSnoc(START, head, body);
    FeedPayload(st, json);
    RunSnoc(START, head + [body], "");
    BlankJoin([], "");
  }

  lemma ShownSpoils(st: State, got: seq<Message>, json: string)
    requires Payload(json) && AllTrimmed(st.data) && (got != [] || !Blank(st.data))
    ensures !IsOne(got + Flush(st.(data := st.data + [json])), json)
  {
    var full := st.(data := st.data + [json]);
    assert full.data[|st.data|] != "";
    HeldBackShows(full);
    if got == [] { HeldBackSpoils(st.data, json); }
  }

  lemma HarmfulIsNotReadBack(kind: string, json: string)
    requires Payload(json) && !Harmless(kind)
    ensures !IsOne(Messages(Frame(kind, json), EndOfInput), json)
  {
    var head := Lines(Head(kind));
    var line :| line in head && !BlankData(line);
    var (st, got) := Run(START, head);
    DataLineShows(head, line);
    RunTrimmed(head);
    FrameMessages(kind, json, st, got);
    ShownSpoils(st, got, json);
  }

  /** A line feed in the type lets it smuggle in a data line. */
  lemma SmuggledDataLine(before: string, line: string)
    requires OneLine(line) && !BlankData(line)
    ensures !Harmless(before + "\n" + line)
  {
    assert Head(before + "\n" + line) == "event: " + before + "\n" + (line + "\n");
    LinesAppend("event: " + before + "\n", line + "\n");
    OneLineIsItself(line);
    assert line in Lines(Head(before + "\n" + line));
  }

  lemma DataYIsNotBlank()
    ensures !BlankData("data: y") && OneLine("data: y")
  {
    var line := "data: y";
    assert DropReturns(line) == line && line[5..] == " y" && 'y' in " y";
    TrimEmptyIsWhite(" y");
  }

  /** The event with type x, a line feed, and "data: y" is not read back, whatever its payload. */
  lemma HarmfulTypeExists(json: string)
    requires Payload(json)
    ensures !IsOne(Messages(Frame("x" + "\n" + "data: y", json), EndOfInput), json)
  {
    DataYIsNotBlank();
    SmuggledDataLine("x", "data: y");
    HarmfulIsNotReadBack("x" + "\n" + "data: y", json);
  }

  /** A type without line feeds is harmless. */
  lemma OneLineTypeIsHarmless(kind: string)
    requires OneLine(kind)
    ensures Harmless(kind)
  {
    OneLineIsItself("event: " + kind);
    assert Head(kind) == "event: " + kind + "\n";
    DropReturnsPrefix("event: " + kind);
  }
}
