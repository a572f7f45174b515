/**
 * `SessionStream`: one Session's event subscription, resumed with the last event id across
 * dropped connections (packages/cli/src/server-task.ts), over the frames `parseSseBody` reads.
 */
module SessionStreams {
  import opened Text
  import opened SseReader
  import opened SseFrames
  import opened Wrappers

  // ---- What the server sends ----

  /** A ping has no id; an event is numbered within its channel's epoch. */
  datatype Item = Ping | Event(seqNo: nat, event: Option<string>, data: string)

  function Digits(n: nat): (s: string)
    ensures s != "" && forall c :: c in s ==> '0' <= c <= '9'
  {
    if n < 10 then [('0' as int + n) as char] else Digits(n / 10) + [('0' as int + n % 10) as char]
  }

  function IdOf(epoch: string, n: nat): string {
    epoch + "-" + Digits(n)
  }

  predicate OneLine(s: string) {
    '\n' !in s && '\r' !in s
  }

  predicate WellFormed(item: Item) {
    item.Event? ==>
      && OneLine(item.data)
      && (item.event.Some? ==> OneLine(item.event.value) && item.event.value != "ping")
  }

  function Field(name: string, value: string): string {
    name + ": " + value
  }

  function EventLine(event: Option<string>): seq<string> {
    if event.Some? then [Field("event", event.value)] else []
  }

  function LinesOf(epoch: string, item: Item): seq<string> {
    match item
    case Ping => [Field("event", "ping"), Field("data", "{}")]
    case Event(n, event, data) => EventLine(event) + [Field("data", data), Field("id", IdOf(epoch, n))]
  }

  function Unlines(lines: seq<string>): string {
    if lines == [] then "" else lines[0] + "\n" + Unlines(lines[1..])
  }

  /** An item's field lines and the blank line that dispatches it. */
  function Encode(epoch: string, item: Item): string {
    Unlines(LinesOf(epoch, item) + [""])
  }

  function Body(epoch: string, wire: seq<Item>): string {
    if wire == [] then "" else Encode(epoch, wire[0]) + Body(epoch, wire[1..])
  }

  /** The frame of an item for a parser whose last seen id is `id`: a ping carries that one on. */
  function FrameOf(epoch: string, id: Option<string>, item: Item): Frame {
    match item
    case Ping => Frame(id, Some("ping"), "{}")
    case Event(n, event, data) => Frame(Some(IdOf(epoch, n)), event, data)
  }

  function WireFrames(epoch: string, id: Option<string>, wire: seq<Item>): seq<Frame>
    decreases wire
  {
    if wire == [] then []
    else
      var frame := FrameOf(epoch, id, wire[0]);
      [frame] + WireFrames(epoch, frame.id, wire[1..])
  }

  // ---- Reading a body cut off anywhere ----

  lemma FieldOf(name: string, value: string)
    requires ':' !in name
    ensures FieldName(Field(name, value)) == name && FieldValue(Field(name, value)) == value
  {
    var line := Field(name, value);
    assert line[..|name|] == name && line[|name|] == ':' && line[|name| + 2..] == value;
    FindUnique(line, ':', |name|);
  }

  /** The lines of a prefix of some lines' text are the first of them. */
  lemma {:induction false} LinesOfPrefix(lines: seq<string>, text: string)
    requires text <= Unlines(lines) && forall line :: line in lines ==> OneLine(line)
    ensures LfLines(text) <= lines
    ensures text == Unlines(lines) ==> LfAll(LF_START, text) == LfScan(lines, "")
    ensures text != Unlines(lines) ==> |LfLines(text)| < |lines|
  {
    if lines == [] {
      assert text == "";
    } else {
      var head := lines[0] + "\n";
      assert lines[0] in lines && forall line :: line in lines[1..] ==> line in lines;
      hide LfAll, StripCr, OneLine;
      if |text| < |head| {
        PartOfLine(lines[0], text);
      } else {
        var rest := text[|head|..];
        assert text == head + rest && rest <= Unlines(lines[1..]);
        LinesOfPrefix(lines[1..], rest);
        var t := LfAll(LF_START, rest);
        HeadLine(lines[0], rest);
        assert lines == [lines[0]] + lines[1..];
        assert LfLines(text) == [lines[0]] + t.lines;
      }
    }
  }

  lemma PartOfLine(line: string, text: string)
    requires OneLine(line) && |text| < |line + "\n"| && text == (line + "\n")[..|text|]
    ensures LfLines(text) == []
  {
    assert text == line[..|text|];
    LfPlain(LF_START, text);
  }

  lemma HeadLine(line: string, rest: string)
    requires OneLine(line)
    ensures var t := LfAll(LF_START, rest);
            LfAll(LF_START, line + "\n" + rest) == LfScan([line] + t.lines, t.line)
  {
    LfLine(LF_START, line);
    LfAppend(LF_START, line + "\n", rest);
    LfShift([line], rest);
    assert StripCr(line) == line;
    assert [] + [line] == [line];
  }

  /** Lines already taken stay in front. */
  lemma {:induction false} LfShift(lines: seq<string>, text: string)
    ensures var s := LfAll(LF_START, text); LfAll(LfScan(lines, ""), text) == LfScan(lines + s.lines, s.line)
  {
    if text == "" {
      assert lines + [] == lines;
    } else {
      var init, c := text[..|text| - 1], text[|text| - 1];
      LfShift(lines, init);
      var s := LfAll(LF_START, init);
      assert LfAll(LF_START, text) == LfChar(s, c);
      assert LfAll(LfScan(lines, ""), text) == LfChar(LfScan(lines + s.lines, s.line), c);
    }
  }

  /** Field lines alone dispatch nothing. */
  lemma {:induction false} NoBlankNoFrame(p: Parse, lines: seq<string>)
    requires "" !in lines
    ensures ParseLines(p, lines).frames == p.frames
  {
    if lines != [] {
      assert lines[|lines| - 1] in lines;
      NoBlankNoFrame(p, lines[..|lines| - 1]);
    }
  }

  lemma ParseSnoc(p: Parse, lines: seq<string>, line: string)
    ensures ParseLines(p, lines + [line]) == ParseLine(ParseLines(p, lines), line)
  {
    assert (lines + [line])[..|lines|] == lines;
  }

  lemma ParseField(p: Parse, name: string, value: string)
    requires name in ["data", "event", "id"]
    ensures ParseLine(p, Field(name, value)) ==
            if name == "data" then p.(data := p.data + [value])
            else if name == "event" then p.(event := Some(value)) else p.(id := Some(value))
  {
    FieldOf(name, value);
  }

  /** One more field line. */
  lemma ParseOneMore(p: Parse, lines: seq<string>, name: string, value: string, q: Parse)
    requires name in ["data", "event", "id"] && ParseLines(p, lines) == q
    ensures ParseLines(p, lines + [Field(name, value)]) ==
            if name == "data" then q.(data := q.data + [value])
            else if name == "event" then q.(event := Some(value)) else q.(id := Some(value))
  {
    ParseSnoc(p, lines, Field(name, value));
    ParseField(q, name, value);
  }

  lemma EventParses(p: Parse, event: Option<string>)
    requires p.event == None
    ensures ParseLines(p, EventLine(event)) == p.(event := event)
  {
    if event.Some? {
      ParseOneMore(p, [], "event", event.value, p);
      assert [] + [Field("event", event.value)] == EventLine(event);
    }
  }

  lemma DataParses(p: Parse, event: Option<string>, data: string)
    requires p.event == None && p.data == []
    ensures ParseLines(p, EventLine(event) + [Field("data", data)]) == p.(event := event, data := [data])
  {
    EventParses(p, event);
    hide ParseLines, Field, EventLine;
    ParseOneMore(p, EventLine(event), "data", data, p.(event := event));
    assert [] + [data] == [data];
  }

  lemma DispatchParses(p: Parse, event: Option<string>, data: string)
    requires p.event == event && p.data == [data]
    ensures ParseLine(p, "") == Parse(p.id, None, [], p.frames + [Frame(p.id, event, data)])
  {
  }

  /** The lines of an item, before the blank one. */
  lemma FieldsParse(epoch: string, item: Item, p: Parse)
    requires p.event == None && p.data == []
    ensures var f := FrameOf(epoch, p.id, item);
            ParseLines(p, LinesOf(epoch, item)) == Parse(f.id, f.event, [f.data], p.frames)
  {
    hide ParseLines, Field, IdOf;
    match item
    case Ping =>
      DataParses(p, Some("ping"), "{}");
      assert EventLine(Some("ping")) + [Field("data", "{}")] == LinesOf(epoch, item);
    case Event(n, event, data) =>
      DataParses(p, event, data);
      var lines := EventLine(event) + [Field("data", data)];
      ParseOneMore(p, lines, "id", IdOf(epoch, n), p.(event := event, data := [data]));
      assert lines + [Field("id", IdOf(epoch, n))] == LinesOf(epoch, item);
  }

  /** A parser between frames, after the lines of one item. */
  lemma ItemParses(epoch: string, item: Item, p: Parse)
    requires p.event == None && p.data == []
    ensures var f := FrameOf(epoch, p.id, item);
            ParseLines(p, LinesOf(epoch, item) + [""]) == Parse(f.id, None, [], p.frames + [f])
  {
    var f := FrameOf(epoch, p.id, item);
    FieldsParse(epoch, item, p);
    ParseSnoc(p, LinesOf(epoch, item), "");
    hide ParseLines, ParseLine, LinesOf;
    DispatchParses(Parse(f.id, f.event, [f.data], p.frames), f.event, f.data);
  }

  lemma FieldIsOneLine(name: string, value: string)
    requires OneLine(name) && OneLine(value)
    ensures OneLine(Field(name, value)) && Field(name, value) != ""
  {
    var line := Field(name, value);
    assert forall c :: c in line ==> c in name || c in ": " || c in value;
  }

  lemma IdIsOneLine(epoch: string, n: nat)
    requires OneLine(epoch)
    ensures OneLine(IdOf(epoch, n))
  {
    assert forall c :: c in IdOf(epoch, n) ==> c in epoch || c == '-' || c in Digits(n);
  }

  lemma ItemLines(epoch: string, item: Item)
    requires WellFormed(item) && OneLine(epoch)
    ensures var lines := LinesOf(epoch, item);
            "" !in lines && forall line :: line in lines + [""] ==> OneLine(line)
  {
    hide Field;
    match item
    case Ping =>
      FieldIsOneLine("event", "ping");
      FieldIsOneLine("data", "{}");
    case Event(n, event, data) =>
      if event.Some? {
        FieldIsOneLine("event", event.value);
      }
      FieldIsOneLine("data", data);
      IdIsOneLine(epoch, n);
      FieldIsOneLine("id", IdOf(epoch, n));
  }

  lemma FirstItem(epoch: string, item: Item, rest: string, p: Parse)
    requires WellFormed(item) && OneLine(epoch) && p.event == None && p.data == []
    ensures var f := FrameOf(epoch, p.id, item);
            ParseLines(p, LfLines(Encode(epoch, item) + rest))
            == ParseLines(Parse(f.id, None, [], p.frames + [f]), LfLines(rest))
  {
    var lines, first := LinesOf(epoch, item) + [""], Encode(epoch, item);
    ItemLines(epoch, item);
    LinesOfPrefix(lines, first);
    LfAppend(LF_START, first, rest);
    LfShift(lines, rest);
    ParseAppend(p, lines, LfLines(rest));
    ItemParses(epoch, item, p);
  }

  /**
   * Whatever character the connection drops at, the frames read from it are those of the items
   * received whole, in order.
   */
  lemma {:induction false} CutBody(epoch: string, wire: seq<Item>, text: string, p: Parse) returns (k: nat)
    requires OneLine(epoch) && (forall item :: item in wire ==> WellFormed(item))
    requires text <= Body(epoch, wire) && p.event == None && p.data == []
    ensures k <= |wire|
    ensures ParseLines(p, LfLines(text)).frames == p.frames + WireFrames(epoch, p.id, wire[..k])
    decreases |wire|
  {
    hide LinesOf, ParseLines, LfAll, FrameOf, OneLine;
    k := 0;
    if wire == [] {
      NothingRead(p);
      assert p.frames + [] == p.frames;
    } else {
      var first := Encode(epoch, wire[0]);
      assert wire[0] in wire && forall item :: item in wire[1..] ==> item in wire;
      if |text| < |first| {
        assert text <= first;
        PartOfItem(epoch, wire[0], text, p);
      } else {
        var rest := text[|first|..];
        assert text == first + rest && rest <= Body(epoch, wire[1..]);
        FirstItem(epoch, wire[0], rest, p);
        var frame := FrameOf(epoch, p.id, wire[0]);
        k := CutBody(epoch, wire[1..], rest, Parse(frame.id, None, [], p.frames + [frame]));
        FramesStep(epoch, p.id, wire, k);
        k := k + 1;
      }
    }
  }

  lemma NothingRead(p: Parse)
    ensures ParseLines(p, LfLines("")) == p
  {
  }

  lemma FramesStep(epoch: string, id: Option<string>, wire: seq<Item>, k: nat)
    requires k < |wire|
    ensures var frame := FrameOf(epoch, id, wire[0]);
            WireFrames(epoch, id, wire[..k + 1]) == [frame] + WireFrames(epoch, frame.id, wire[1..][..k])
  {
    assert wire[..k + 1][1..] == wire[1..][..k];
  }

  /** An item that did not arrive whole. */
  lemma PartOfItem(epoch: string, item: Item, text: string, p: Parse)
    requires WellFormed(item) && OneLine(epoch)
    requires text <= Encode(epoch, item) && text != Encode(epoch, item)
    ensures ParseLines(p, LfLines(text)).frames == p.frames
  {
    var lines := LinesOf(epoch, item);
    ItemLines(epoch, item);
    LinesOfPrefix(lines + [""], text);
    assert LfLines(text) <= lines;
    NoBlankNoFrame(p, LfLines(text));
  }

  // ---- The order in which the server sends ----

  lemma {:induction false} DigitsInjective(m: nat, n: nat)
    requires Digits(m) == Digits(n)
    ensures m == n
  {
    var a, b := Digits(m), Digits(n);
    assert a[|a| - 1] == b[|b| - 1] && a[..|a| - 1] == b[..|b| - 1];
    if m >= 10 && n >= 10 {
      assert a[..|a| - 1] == Digits(m / 10) && b[..|b| - 1] == Digits(n / 10);
      DigitsInjective(m / 10, n / 10);
    }
  }

  /** An id names one event of its channel. */
  lemma IdInjective(epoch: string, m: nat, n: nat)
    requires IdOf(epoch, m) == IdOf(epoch, n)
    ensures m == n
  {
    assert IdOf(epoch, m)[|epoch| + 1..] == Digits(m) && IdOf(epoch, n)[|epoch| + 1..] == Digits(n);
    DigitsInjective(m, n);
  }

  /** The channel's broadcast events, numbered upwards; unicast events take numbers in between. */
  ghost predicate IsLog(log: seq<Item>) {
    && (forall i :: 0 <= i < |log| ==> log[i].Event? && log[i].seqNo > 0 && WellFormed(log[i]))
    && (forall i, j :: 0 <= i < j < |log| ==> log[i].seqNo < log[j].seqNo)
  }

  /** The number of log entries up to number `n`. */
  ghost predicate At(log: seq<Item>, position: nat, n: nat)
    requires IsLog(log)
  {
    && position <= |log|
    && (forall i :: 0 <= i < position ==> log[i].seqNo <= n)
    && (forall i :: position <= i < |log| ==> n < log[i].seqNo)
  }

  /**
   * What a connection that starts after number `n` carries: the log from `position` on, nothing
   * skipped, with pings and this subscriber's own (unicast) events in between.
   */
  ghost predicate Serves(log: seq<Item>, position: nat, n: nat, wire: seq<Item>)
    requires IsLog(log)
    decreases wire
  {
    At(log, position, n) &&
    (wire == [] ||
     match wire[0]
     case Ping => Serves(log, position, n, wire[1..])
     case Event(m, _, _) =>
       n < m && WellFormed(wire[0]) &&
       if position < |log| && log[position] == wire[0] then Serves(log, position + 1, m, wire[1..])
       else At(log, position, m) && Serves(log, position, m, wire[1..]))
  }

  lemma {:induction false} ServesWellFormed(log: seq<Item>, position: nat, n: nat, wire: seq<Item>)
    requires IsLog(log) && Serves(log, position, n, wire)
    ensures forall item :: item in wire ==> WellFormed(item)
    decreases wire
  {
    if wire != [] && wire[0].Event? {
      var on := if position < |log| && log[position] == wire[0] then position + 1 else position;
      ServesWellFormed(log, on, wire[0].seqNo, wire[1..]);
    } else if wire != [] {
      ServesWellFormed(log, position, n, wire[1..]);
    }
  }

  lemma {:induction false} ServesPrefix(log: seq<Item>, position: nat, n: nat, wire: seq<Item>, k: nat)
    requires IsLog(log) && Serves(log, position, n, wire) && k <= |wire|
    ensures Serves(log, position, n, wire[..k])
    decreases wire
  {
    if k > 0 {
      assert wire[..k][1..] == wire[1..][..k - 1];
      if wire[0].Event? {
        var on := if position < |log| && log[position] == wire[0] then position + 1 else position;
        ServesPrefix(log, on, wire[0].seqNo, wire[1..], k - 1);
      } else {
        ServesPrefix(log, position, n, wire[1..], k - 1);
      }
    }
  }

  /** The frames of the log's own events among `frames`, in order. */
  ghost function FromLog(epoch: string, log: seq<Item>, frames: seq<Frame>): seq<Frame>
    requires IsLog(log)
  {
    if frames == [] then []
    else
      var f := frames[|frames| - 1];
      FromLog(epoch, log, frames[..|frames| - 1])
      + if exists i :: 0 <= i < |log| && f == FrameOf(epoch, None, log[i]) then [f] else []
  }

  function LogFrames(epoch: string, log: seq<Item>): seq<Frame> {
    seq(|log|, i requires 0 <= i < |log| => FrameOf(epoch, None, log[i]))
  }

  /** The number `n` fixes the position. */
  lemma AtUnique(log: seq<Item>, p: nat, q: nat, n: nat)
    requires IsLog(log) && At(log, p, n) && At(log, q, n)
    ensures p == q
  {
    if p < q {
      AtOnce(log, p, q, n);
    } else if q < p {
      AtOnce(log, q, p, n);
    }
  }

  lemma AtOnce(log: seq<Item>, p: nat, q: nat, n: nat)
    requires IsLog(log) && p < q <= |log| && At(log, p, n)
    ensures !At(log, q, n)
  {
    assert n < log[p].seqNo;
  }

  /** One more frame: the next of the log, or none of the log's. */
  lemma OneMore(epoch: string, log: seq<Item>, id: Option<string>, wire: seq<Item>, position: nat, n: nat)
    requires IsLog(log) && wire != [] && Serves(log, position, n, wire)
    ensures var f, item := FrameOf(epoch, id, wire[0]), wire[0];
            if item.Event? && position < |log| && log[position] == item then f == FrameOf(epoch, None, log[position])
            else forall i :: 0 <= i < |log| ==> f != FrameOf(epoch, None, log[i])
  {
    var f, item := FrameOf(epoch, id, wire[0]), wire[0];
    forall i | 0 <= i < |log| && f == FrameOf(epoch, None, log[i])
      ensures item.Event? && position < |log| && log[position] == item
    {
      if item.Event? {
        IdInjective(epoch, item.seqNo, log[i].seqNo);
      }
    }
  }

  /** The position and number reached once `item` has been delivered. */
  ghost function Onward(log: seq<Item>, position: nat, n: nat, item: Item): (nat, nat) {
    if item.Ping? then (position, n)
    else (if position < |log| && log[position] == item then position + 1 else position, item.seqNo)
  }

  /** One more item served. */
  lemma ServesOne(log: seq<Item>, position: nat, n: nat, wire: seq<Item>)
    requires IsLog(log) && wire != [] && Serves(log, position, n, wire)
    ensures var (q, m) := Onward(log, position, n, wire[0]);
            position <= q <= |log| && At(log, q, m) && Serves(log, q, m, wire[1..])
  {
    hide At;
    var (q, m) := Onward(log, position, n, wire[0]);
    assert Serves(log, q, m, wire[1..]);
    assert At(log, q, m);
    AtBounded(log, q, m);
  }

  lemma AtBounded(log: seq<Item>, position: nat, n: nat)
    requires IsLog(log) && At(log, position, n)
    ensures position <= |log|
  {
  }

  lemma FromLogOne(epoch: string, log: seq<Item>, delivered: seq<Frame>, f: Frame)
    requires IsLog(log)
    ensures FromLog(epoch, log, delivered + [f]) == FromLog(epoch, log, delivered)
            + if exists i :: 0 <= i < |log| && f == FrameOf(epoch, None, log[i]) then [f] else []
  {
    assert (delivered + [f])[..|delivered|] == delivered;
  }

  lemma LogFramesOne(epoch: string, log: seq<Item>, first: nat, position: nat)
    requires first <= position < |log|
    ensures LogFrames(epoch, log[first..position + 1])
         == LogFrames(epoch, log[first..position]) + [FrameOf(epoch, None, log[position])]
  {
  }

  lemma DeliverOne(epoch: string, log: seq<Item>, first: nat, position: nat, n: nat,
                   delivered: seq<Frame>, seen: Option<string>, wire: seq<Item>)
    requires IsLog(log) && wire != [] && Serves(log, position, n, wire) && first <= position
    requires FromLog(epoch, log, delivered) == LogFrames(epoch, log[first..position])
    ensures var f := FrameOf(epoch, seen, wire[0]);
            var (q, m) := Onward(log, position, n, wire[0]);
            && position <= q <= |log| && At(log, q, m) && Serves(log, q, m, wire[1..])
            && FromLog(epoch, log, delivered + [f]) == LogFrames(epoch, log[first..q])
  {
    hide Serves, At, FromLog, LogFrames, IsLog;
    var f := FrameOf(epoch, seen, wire[0]);
    var (q, m) := Onward(log, position, n, wire[0]);
    ServesOne(log, position, n, wire);
    OneMore(epoch, log, seen, wire, position, n);
    FromLogOne(epoch, log, delivered, f);
    if q != position {
      LogFramesOne(epoch, log, first, position);
    } else {
      assert FromLog(epoch, log, delivered) + [] == FromLog(epoch, log, delivered);
    }
  }

  // ---- The subscription ----

  /** What becomes of one connection: the chunks that arrive, then its end, by an error or not. */
  datatype Connection = Connection(chunks: seq<string>, failed: bool, closes: bool)

  /** The generator of one connection, run ahead: the frames it has yet to yield, then its end. */
  datatype Live = Live(frames: seq<Frame>, failed: bool, closes: bool)

  /** What the server meant to send on a connection, and the number (and position) it starts after. */
  datatype Served = Served(wire: seq<Item>, position: nat, number: nat)

  /** The server honours the request: it resumes after the last event id the client names. */
  ghost predicate Honours(epoch: string, log: seq<Item>, lastEventId: Option<string>,
                          connection: Connection, served: Served)
    requires IsLog(log)
  {
    && Concat(connection.chunks) <= Body(epoch, served.wire)
    && Serves(log, served.position, served.number, served.wire)
    && (lastEventId.Some? ==> lastEventId == Some(IdOf(epoch, served.number)))
  }

  /** The frames that arrive on a connection are those of the first items sent on it. */
  lemma Arrived(epoch: string, log: seq<Item>, lastEventId: Option<string>, connection: Connection, served: Served)
    returns (k: nat)
    requires IsLog(log) && OneLine(epoch) && Honours(epoch, log, lastEventId, connection, served)
    ensures k <= |served.wire| && FramesOf(Concat(connection.chunks)) == WireFrames(epoch, None, served.wire[..k])
    ensures Serves(log, served.position, served.number, served.wire[..k])
    ensures At(log, served.position, served.number)
    ensures lastEventId.Some? ==> lastEventId == Some(IdOf(epoch, served.number))
  {
    var wire := served.wire;
    ServesWellFormed(log, served.position, served.number, wire);
    k := CutBody(epoch, wire, Concat(connection.chunks), PARSE_START);
    ServesPrefix(log, served.position, served.number, wire, k);
    assert [] + WireFrames(epoch, None, wire[..k]) == WireFrames(epoch, None, wire[..k]);
  }

  datatype Outcome = Received(frame: Frame) | Closed | Lost | Waiting

  const MAX_RECONNECTS := 5

  // ---- What one `next` comes to ----

  /** The connection ends without a frame, and the stream stays open. */
  predicate IsDrop(connection: Connection) {
    FramesOf(Concat(connection.chunks)) == [] && !connection.closes
  }

  predicate AreDrops(connections: seq<Connection>, n: nat) {
    n <= |connections| && forall i :: 0 <= i < n ==> IsDrop(connections[i])
  }

  /** A connection that is still being read has nothing more either. */
  predicate Ended(live: Option<Live>) {
    live.Some? ==> live.value.frames == [] && !live.value.closes
  }

  /** The drops when `n` connections have followed the one that was being read. */
  function Drops(live: Option<Live>, n: nat): nat {
    if live.Some? then n + 1 else n
  }

  /**
   * How a `next` ends that opened `used` of the connections: at a frame, the first to arrive; at a
   * connection that is not there yet; at the first drop too many; or closed.
   */
  ghost predicate Ends(live: Option<Live>, attempts: nat, connections: seq<Connection>,
                       outcome: Outcome, drops: nat, used: nat) {
    match outcome
    case Received(frame) =>
      if used == 0 then drops == 0 && live.Some? && live.value.frames != [] && frame == live.value.frames[0]
      else
        && Ended(live) && AreDrops(connections, used - 1) && used <= |connections|
        && FramesOf(Concat(connections[used - 1].chunks)) != []
        && frame == FramesOf(Concat(connections[used - 1].chunks))[0]
        && drops == Drops(live, used - 1) && (drops == 0 || attempts + drops <= MAX_RECONNECTS)
    case Waiting =>
      && Ended(live) && AreDrops(connections, used) && used == |connections|
      && drops == Drops(live, used) && (drops == 0 || attempts + drops <= MAX_RECONNECTS)
    case Lost =>
      && Ended(live) && AreDrops(connections, used) && drops == Drops(live, used) && drops > 0
      && attempts + drops > MAX_RECONNECTS && (drops == 1 || attempts + drops == MAX_RECONNECTS + 1)
    case Closed => ClosedBy(live, connections, used)
  }

  /** The last one opened, or the one that was being read, closed the stream and had no frame. */
  predicate ClosedBy(live: Option<Live>, connections: seq<Connection>, used: nat) {
    if used == 0 then live.Some? && live.value.frames == [] && live.value.closes
    else
      && Ended(live) && used <= |connections| && AreDrops(connections, used - 1)
      && FramesOf(Concat(connections[used - 1].chunks)) == [] && connections[used - 1].closes
  }

  /** So far all have dropped that were opened, and these were not too many. */
  ghost predicate Dropping(live: Option<Live>, attempts: nat, connections: seq<Connection>, drops: nat, used: nat) {
    && Ended(live) && AreDrops(connections, used) && drops == Drops(live, used)
    && (drops == 0 || attempts + drops <= MAX_RECONNECTS)
  }

  /** One more is read, `now`: the next of the connections, or the one that was being read. */
  ghost predicate Reads(live: Option<Live>, attempts: nat, connections: seq<Connection>, drops: nat, used: nat, now: Live) {
    if used == 0 then live == Some(now) && drops == 0
    else
      && used <= |connections| && Dropping(live, attempts, connections, drops, used - 1)
      && now.frames == FramesOf(Concat(connections[used - 1].chunks)) && now.closes == connections[used - 1].closes
  }

  /** The loop goes on: `now` is the connection that is being read, and it is closed or not. */
  ghost predicate Going(live: Option<Live>, attempts: nat, connections: seq<Connection>, drops: nat, used: nat,
                        now: Option<Live>, closed: bool) {
    if closed then ClosedBy(live, connections, used)
    else if now.Some? then Reads(live, attempts, connections, drops, used, now.value)
    else Dropping(live, attempts, connections, drops, used)
  }

  lemma ReadBegins(live: Option<Live>, attempts: nat, connections: seq<Connection>)
    ensures Going(live, attempts, connections, 0, 0, live, false)
  {
  }

  lemma NextIsRead(live: Option<Live>, attempts: nat, connections: seq<Connection>, drops: nat, used: nat, now: Live)
    requires Dropping(live, attempts, connections, drops, used) && used < |connections|
    requires now == Live(FramesOf(Concat(connections[used].chunks)), connections[used].failed, connections[used].closes)
    ensures Reads(live, attempts, connections, drops, used + 1, now)
  {
  }

  lemma ClosedEnds(live: Option<Live>, attempts: nat, connections: seq<Connection>, drops: nat, used: nat, now: Option<Live>)
    requires Going(live, attempts, connections, drops, used, now, true)
    ensures Ends(live, attempts, connections, Closed, drops, used)
  {
  }

  lemma GoingDrops(live: Option<Live>, attempts: nat, connections: seq<Connection>, drops: nat, used: nat)
    requires Going(live, attempts, connections, drops, used, None, false)
    ensures Dropping(live, attempts, connections, drops, used)
  {
  }

  lemma GoingReads(live: Option<Live>, attempts: nat, connections: seq<Connection>, drops: nat, used: nat, now: Live)
    requires Going(live, attempts, connections, drops, used, Some(now), false)
    ensures Reads(live, attempts, connections, drops, used, now)
  {
  }

  lemma CloseEnds(live: Option<Live>, attempts: nat, connections: seq<Connection>, drops: nat, used: nat)
    requires ClosedBy(live, connections, used)
    ensures Ends(live, attempts, connections, Closed, drops, used)
  {
  }

  /** It has a frame, closes the stream, or is one more drop. */
  lemma OneMoreRead(live: Option<Live>, attempts: nat, connections: seq<Connection>, drops: nat, used: nat, now: Live)
    requires Reads(live, attempts, connections, drops, used, now)
    ensures now.frames != [] ==> Ends(live, attempts, connections, Received(now.frames[0]), drops, used)
    ensures now.frames == [] && now.closes ==> ClosedBy(live, connections, used)
    ensures now.frames == [] && !now.closes && attempts + drops < MAX_RECONNECTS ==>
              Going(live, attempts, connections, drops + 1, used, None, false)
    ensures now.frames == [] && now.closes ==> Going(live, attempts, connections, drops + 1, used, None, true)
    ensures now.frames == [] && !now.closes && attempts + drops >= MAX_RECONNECTS ==>
              Ends(live, attempts, connections, Lost, drops + 1, used)
  {
    hide FramesOf;
    if used > 0 && now.frames == [] && !now.closes {
      assert IsDrop(connections[used - 1]);
    }
  }

  lemma WaitEnds(live: Option<Live>, attempts: nat, connections: seq<Connection>, drops: nat)
    requires Dropping(live, attempts, connections, drops, |connections|)
    ensures Ends(live, attempts, connections, Waiting, drops, |connections|)
  {
  }

  lemma NoDrop(connections: seq<Connection>, n: nat, m: nat)
    requires n < |connections| && FramesOf(Concat(connections[n].chunks)) != []
    ensures n < m ==> !AreDrops(connections, m)
  {
    hide FramesOf;
    assert !IsDrop(connections[n]);
  }

  /** An event that arrives is delivered: the first frame of all connections, if not too many drop before. */
  lemma FirstFrameArrives(live: Option<Live>, attempts: nat, connections: seq<Connection>,
                          outcome: Outcome, drops: nat, used: nat, n: nat)
    requires Ends(live, attempts, connections, outcome, drops, used)
    requires Ended(live) && n < |connections| && AreDrops(connections, n)
    requires FramesOf(Concat(connections[n].chunks)) != [] && attempts + Drops(live, n) <= MAX_RECONNECTS
    ensures outcome == Received(FramesOf(Concat(connections[n].chunks))[0]) && drops == Drops(live, n) && used == n + 1
  {
    hide FramesOf;
    NoDrop(connections, n, if used > 0 then used - 1 else 0);
  }

  /** It waits only for a connection that is not there yet: when all of them dropped, and these were not too many. */
  lemma WaitsForConnection(live: Option<Live>, attempts: nat, connections: seq<Connection>,
                           outcome: Outcome, drops: nat, used: nat)
    requires Ends(live, attempts, connections, outcome, drops, used)
    requires Ended(live) && AreDrops(connections, |connections|)
    ensures outcome == Waiting <==>
              Drops(live, |connections|) == 0 || attempts + Drops(live, |connections|) <= MAX_RECONNECTS
    ensures outcome == Waiting || outcome == Lost
  {
    hide FramesOf;
  }

  class SessionStream {
    var lastEventId: Option<string>
    var closed: bool
    var live: Option<Live>
    var attempts: nat

    ghost const epoch: string
    ghost const log: seq<Item>
    /** The log positions delivery began at and has reached, and the number it has reached. */
    ghost var first: nat
    ghost var position: nat
    ghost var reached: nat
    ghost var delivered: seq<Frame>
    /** The items behind the frames still to come, and the id their parser has seen. */
    ghost var coming: seq<Item>
    ghost var seen: Option<string>

    /** Exactly once: what was delivered of the log is one stretch of it, in order. */
    ghost predicate ExactlyOnce()
      requires IsLog(log)
      reads this
    {
      && first <= position <= |log|
      && FromLog(epoch, log, delivered) == LogFrames(epoch, log[first..position])
    }

    ghost predicate Valid()
      reads this
    {
      && IsLog(log) && OneLine(epoch)
      && At(log, position, reached) && ExactlyOnce()
      && (lastEventId == None ==> first == position)
      && (lastEventId.Some? ==> lastEventId == Some(IdOf(epoch, reached)))
      && (live.Some? ==>
            && live.value.frames == WireFrames(epoch, seen, coming)
            && Serves(log, position, reached, coming)
            && (seen.Some? ==> seen == lastEventId))
    }

    constructor (ghost epoch: string, ghost log: seq<Item>)
      requires IsLog(log) && OneLine(epoch)
      ensures Valid() && this.epoch == epoch && this.log == log
      ensures !closed && attempts == 0 && delivered == [] && live == None && lastEventId == None
    {
      this.epoch, this.log := epoch, log;
      lastEventId, closed, live, attempts := None, false, None, 0;
      first, position, reached, delivered, coming, seen := 0, 0, 0, [], [], None;
    }

    /** Opens a connection with the last event id. */
    method Open(connection: Connection, ghost served: Served)
      requires Valid() && live == None && Honours(epoch, log, lastEventId, connection, served)
      modifies `live, `first, `position, `reached, `coming, `seen
      ensures Valid() && live == Some(Live(FramesOf(Concat(connection.chunks)), connection.failed, connection.closes))
      ensures lastEventId.Some? ==> (first, position, reached) == old((first, position, reached))
    {
      var frames := ParseSseBody(connection.chunks);
      ghost var k := Arrived(epoch, log, lastEventId, connection, served);
      hide Honours, Serves, FromLog, LogFrames, WireFrames, At, IsLog, IdOf, OneLine;
      live := Some(Live(frames, connection.failed, connection.closes));
      coming, seen := served.wire[..k], None;
      if lastEventId.Some? {
        IdInjective(epoch, reached, served.number);
        AtUnique(log, position, served.position, reached);
      } else {
        first, position, reached := served.position, served.position, served.number;
      }
    }

    /** Takes the next frame the connection yields. */
    method Take() returns (frame: Frame)
      requires Valid() && live.Some? && live.value.frames != []
      modifies this
      ensures Valid() && delivered == old(delivered) + [frame] && frame == old(live.value.frames)[0]
      ensures live == Some(old(live.value).(frames := old(live.value.frames)[1..]))
      ensures attempts == 0 && closed == old(closed) && first == old(first)
      ensures frame.id.Some? ==> lastEventId == frame.id
      ensures frame.id == None ==> lastEventId == old(lastEventId)
    {
      DeliverOne(epoch, log, first, position, reached, delivered, seen, coming);
      hide Serves, FromLog, LogFrames, At, IsLog, IdOf, OneLine;
      frame := live.value.frames[0];
      live := Some(live.value.(frames := live.value.frames[1..]));
      attempts := 0;
      if frame.id.Some? {
        lastEventId := frame.id;
      }
      ghost var on := Onward(log, position, reached, coming[0]);
      delivered, position, reached := delivered + [frame], on.0, on.1;
      coming, seen := coming[1..], frame.id;
    }

    /** `backoff`: one more drop without a frame; gives up past `MAX_RECONNECTS` of them. */
    method Backoff() returns (gaveUp: bool)
      requires Valid()
      modifies `attempts
      ensures Valid() && attempts == old(attempts) + 1 && gaveUp == (attempts > MAX_RECONNECTS)
    {
      attempts := attempts + 1;
      gaveUp := attempts > MAX_RECONNECTS;
    }

    /** The connection ended: its generator returned, or threw. */
    method EndConnection() returns (failed: bool)
      requires Valid() && live.Some?
      modifies `live, `closed
      ensures Valid() && failed == old(live).value.failed && closed == old(live).value.closes
      ensures live == if failed && closed then old(live) else None
    {
      failed := live.value.failed;
      closed := live.value.closes;
      if !(failed && closed) {
        live := None;
      }
    }

    /** The connection dropped: once more, or given up. */
    method Drop(failed: bool) returns (end: Option<Outcome>, recounted: bool)
      requires Valid() && !(failed && closed)
      modifies `attempts
      ensures Valid() && attempts == old(attempts) + if recounted then 2 else 1
      ensures end == if old(attempts) < MAX_RECONNECTS then None else if closed then Some(Closed) else Some(Lost)
      ensures recounted == (end == Some(Lost) && !failed)
    {
      recounted := false;
      var gaveUp := Backoff();
      if !gaveUp {
        return None, false;
      }
      if failed {
        return Some(Lost), false;
      }
      if closed {
        return Some(Closed), false;
      }
      gaveUp := Backoff();
      return Some(Lost), true;
    }

    /**
     * One turn of the loop of `Next`: a frame, or one drop more, or no connection to open yet. The
     * ghosts say what the loop began with.
     */
    method Turn(connections: seq<Connection>, ghost served: seq<Served>, used: nat, drops: nat,
                ghost was: Option<Live>, ghost failures: nat)
        returns (end: Option<Outcome>, dropped: nat, recounted: bool, next: nat)
      requires Valid() && !closed && used <= |connections| == |served|
      requires forall i :: used <= i < |connections| ==> Honours(epoch, log, lastEventId, connections[i], served[i])
      requires Going(was, failures, connections, drops, used, live, false) && attempts == failures + drops
      modifies this
      ensures Valid() && used <= next <= |connections| && (old(lastEventId).Some? ==> first == old(first))
      ensures end == None ==>
                && Going(was, failures, connections, dropped, next, live, closed)
                && (next > used || (old(live).Some? && live == None))
      ensures end.Some? ==> Ends(was, failures, connections, end.value, dropped, next)
      ensures end.Some? && end.value.Received? ==> delivered == old(delivered) + [end.value.frame] && attempts == 0
      ensures !(end.Some? && end.value.Received?) ==>
                && delivered == old(delivered) && lastEventId == old(lastEventId)
                && attempts == failures + dropped + if recounted then 1 else 0
      ensures recounted ==> end == Some(Lost)
      ensures end.Some? ==> (end.value == Closed <==> closed)
      ensures end == Some(Waiting) || end == Some(Lost) ==> live == None
    {
      hide *;
      dropped, recounted, next := drops, false, used;
      if live == None {
        GoingDrops(was, failures, connections, drops, used);
        if used == |connections| {
          WaitEnds(was, failures, connections, drops);
          return Some(Waiting), drops, false, used;
        }
        Open(connections[used], served[used]);
        NextIsRead(was, failures, connections, drops, used, live.value);
        next := used + 1;
      } else {
        GoingReads(was, failures, connections, drops, used, live.value);
      }
      OneMoreRead(was, failures, connections, drops, next, live.value);
      if live.value.frames != [] {
        var frame := Take();
        return Some(Received(frame)), drops, false, next;
      }
      var failed := EndConnection();
      if closed {
        CloseEnds(was, failures, connections, drops, next);
        CloseEnds(was, failures, connections, drops + 1, next);
      }
      if failed && closed {
        return Some(Closed), drops, false, next;
      }
      end, recounted := Drop(failed);
      dropped := drops + 1;
    }

    /**
     * The next frame, through as many of the `connections` as it takes: `used` were opened, and
     * `drops` counts those that ended without one. A give-up after a connection that ended without an
     * error is caught and counted once more (`recounted`), unless the stream has been closed.
     */
    method Next(connections: seq<Connection>, ghost served: seq<Served>)
        returns (outcome: Outcome, drops: nat, recounted: bool, used: nat)
      requires Valid() && |served| == |connections|
      requires forall i :: 0 <= i < |connections| ==> Honours(epoch, log, lastEventId, connections[i], served[i])
      modifies this
      ensures Valid() && (old(lastEventId).Some? ==> first == old(first))
      ensures outcome.Received? ==> delivered == old(delivered) + [outcome.frame] && attempts == 0
      ensures !outcome.Received? ==> delivered == old(delivered)
      ensures !outcome.Received? ==> attempts == old(attempts) + drops + if recounted then 1 else 0
      ensures recounted ==> outcome == Lost
      ensures outcome == Closed <==> closed && !outcome.Received?
      ensures outcome == Waiting || outcome == Lost ==> live == None
      ensures if old(closed) then outcome == Closed && drops == used == 0
              else Ends(old(live), old(attempts), connections, outcome, drops, used)
    {
      assert IsLog(log);
      ReadBegins(live, attempts, connections);
      ghost var was, failures := live, attempts;
      hide *;
      drops, recounted, used := 0, false, 0;
      while true
        invariant used <= |connections| && Valid() && !recounted
        invariant forall i :: used <= i < |connections| ==> Honours(epoch, log, lastEventId, connections[i], served[i])
        invariant delivered == old(delivered) && attempts == failures + drops
        invariant lastEventId == old(lastEventId) && (lastEventId.Some? ==> first == old(first))
        invariant if old(closed) then closed && used == drops == 0
                  else Going(was, failures, connections, drops, used, live, closed)
        decreases 2 * (|connections| - used) + (if live.Some? then 1 else 0)
      {
        if closed {
          if !old(closed) {
            ClosedEnds(was, failures, connections, drops, used, live);
          }
          return Closed, drops, false, used;
        }
        var end;
        end, drops, recounted, used := Turn(connections, served, used, drops, was, failures);
        if end.Some? {
          return end.value, drops, recounted, used;
        }
      }
    }
  }
}
