/**
 * `sseData`: the incremental reader of a server-sent event body (packages/amsp/src/sse.ts), and
 * the one-pass reading of the same text that the HTML Standard prescribes (sections 9.2.5, 9.2.6).
 */
module SseReader {
  import opened Text
  import opened Wrappers

  // ---- The reference: the whole text, one character after the other ----

  predicate IsTerminator(c: char) {
    c == '\r' || c == '\n'
  }

  /** The terminated lines so far, the line under way, and whether the text so far ends in a CR. */
  datatype Scan = Scan(lines: seq<string>, line: string, cr: bool)

  const START := Scan([], "", false)

  /** Section 9.2.5: a line ends at a CR, at a LF, or at a LF right after a CR (with it). */
  function ScanChar(s: Scan, c: char): Scan {
    if c == '\n' && s.cr then s.(cr := false)
    else if IsTerminator(c) then Scan(s.lines + [s.line], "", c == '\r')
    else Scan(s.lines, s.line + [c], false)
  }

  function ScanAll(s: Scan, text: string): Scan {
    if text == "" then s else ScanChar(ScanAll(s, text[..|text| - 1]), text[|text| - 1])
  }

  /** The terminated lines of `text`. An unterminated last line is not one. */
  function Lines(text: string): seq<string> {
    ScanAll(START, text).lines
  }

  /** A line's field name and value: split at the first colon, one leading space dropped. */
  function FieldName(line: string): string {
    line[..Find(line, ':')]
  }

  function FieldValue(line: string): string {
    var colon := Find(line, ':');
    if colon == |line| then ""
    else if colon + 1 < |line| && line[colon + 1] == ' ' then line[colon + 2..]
    else line[colon + 1..]
  }

  /**
   * Section 9.2.6, for `data` alone: each data line appends its value and a LF to the data
   * buffer; a blank line dispatches the buffer less its last LF, unless it is empty. What is in
   * the buffer at the end of the body is dropped.
   */
  function Dispatched(lines: seq<string>, buffer: string): seq<string> {
    if lines == [] then []
    else if lines[0] == "" then
      (if buffer == "" then [] else [buffer[..|buffer| - 1]]) + Dispatched(lines[1..], "")
    else if FieldName(lines[0]) == "data" then Dispatched(lines[1..], buffer + FieldValue(lines[0]) + "\n")
    else Dispatched(lines[1..], buffer)
  }

  function Reference(text: string): seq<string> {
    Dispatched(Lines(text), "")
  }

  lemma {:induction false} ScanAppend(s: Scan, a: string, b: string)
    ensures ScanAll(s, a + b) == ScanAll(ScanAll(s, a), b)
  {
    if b == "" {
      assert a + b == a;
    } else {
      var init := b[..|b| - 1];
      ScanAppend(s, a, init);
      assert (a + b)[..|a + b| - 1] == a + init;
    }
  }

  /** Text without a terminator only extends the line under way. */
  lemma {:induction false} ScanPlain(s: Scan, text: string)
    requires forall c :: c in text ==> !IsTerminator(c)
    ensures ScanAll(s, text).lines == s.lines && ScanAll(s, text).line == s.line + text
    ensures text != "" ==> !ScanAll(s, text).cr
  {
    if text != "" {
      var init := text[..|text| - 1];
      assert text == init + [text[|text| - 1]];
      ScanPlain(s, init);
    }
  }

  /** A line without terminators, then the terminator that ends it: at a CRLF, both characters. */
  lemma ScanLine(s: Scan, line: string, end: string)
    requires forall c :: c in line ==> !IsTerminator(c)
    requires end in ["\r", "\n", "\r\n"]
    requires s.line == "" && (s.cr && line == "" ==> end != "\n")
    ensures ScanAll(s, line + end) == Scan(s.lines + [line], "", end == "\r")
  {
    ScanAppend(s, line, end);
    ScanPlain(s, line);
    ScanEnd(ScanAll(s, line), end);
    assert "" + line == line;
  }

  lemma ScanEnd(t: Scan, end: string)
    requires end in ["\r", "\n", "\r\n"] && (t.cr ==> end != "\n")
    ensures ScanAll(t, end) == Scan(t.lines + [t.line], "", end == "\r")
  {
    assert ScanAll(t, end[..1]) == ScanChar(ScanAll(t, end[..1][..0]), end[0]);
    if |end| == 2 {
      assert ScanAll(t, end) == ScanChar(ScanAll(t, end[..1]), end[1]);
    } else {
      assert end[..1] == end;
    }
  }

  // ---- The event assembler, as the generator keeps it: an array of data lines, or null ----

  datatype Fold = Fold(data: Option<seq<string>>, events: seq<string>)

  function Take(f: Fold, line: string): Fold {
    if line == "" then
      match f.data
      case None => f
      case Some(values) => Fold(None, f.events + [Join(values, "\n")])
    else if FieldName(line) != "data" then f
    else Fold(Some((if f.data.Some? then f.data.value else []) + [FieldValue(line)]), f.events)
  }

  function TakeAll(f: Fold, lines: seq<string>): Fold {
    if lines == [] then f else Take(TakeAll(f, lines[..|lines| - 1]), lines[|lines| - 1])
  }

  lemma {:induction false} TakeAllAppend(f: Fold, a: seq<string>, b: seq<string>)
    ensures TakeAll(f, a + b) == TakeAll(TakeAll(f, a), b)
  {
    if b == [] {
      assert a + b == a;
    } else {
      var init := b[..|b| - 1];
      TakeAllAppend(f, a, init);
      assert (a + b)[..|a + b| - 1] == a + init;
    }
  }

  /** The standard's data buffer, read off the array of data lines: each value and its LF. */
  function Buffer(data: Option<seq<string>>): string {
    if data.None? then "" else Join(data.value, "\n") + "\n"
  }

  lemma {:induction false} JoinSnoc(values: seq<string>, v: string)
    requires values != []
    ensures Join(values + [v], "\n") == Join(values, "\n") + "\n" + v
  {
    if |values| > 1 {
      JoinSnoc(values[1..], v);
      assert (values + [v])[1..] == values[1..] + [v];
      assert values[0] + "\n" + (Join(values[1..], "\n") + "\n" + v)
          == (values[0] + "\n" + Join(values[1..], "\n")) + "\n" + v;
    } else {
      assert (values + [v])[1..] == [v];
    }
  }

  ghost predicate NonEmptyData(f: Fold) {
    f.data.Some? ==> f.data.value != []
  }

  /** One line, kept as an array or as the standard's buffer. */
  lemma TakeRefines(f: Fold, line: string, rest: seq<string>)
    requires NonEmptyData(f)
    ensures NonEmptyData(Take(f, line))
    ensures f.events + Dispatched([line] + rest, Buffer(f.data))
         == Take(f, line).events + Dispatched(rest, Buffer(Take(f, line).data))
  {
    assert ([line] + rest)[1..] == rest;
    if line == "" {
      if f.data.Some? {
        var joined := Join(f.data.value, "\n");
        assert Buffer(f.data)[..|Buffer(f.data)| - 1] == joined;
        assert f.events + ([joined] + Dispatched(rest, "")) == (f.events + [joined]) + Dispatched(rest, "");
      } else {
        assert f.events + ([] + Dispatched(rest, "")) == f.events + Dispatched(rest, "");
      }
    } else if FieldName(line) == "data" {
      if f.data.Some? {
        JoinSnoc(f.data.value, FieldValue(line));
      } else {
        assert [] + [FieldValue(line)] == [FieldValue(line)];
        assert "" + FieldValue(line) + "\n" == FieldValue(line) + "\n";
      }
    }
  }

  lemma {:induction false} FoldRefines(f: Fold, lines: seq<string>)
    requires NonEmptyData(f)
    ensures TakeAll(f, lines).events == f.events + Dispatched(lines, Buffer(f.data))
    decreases |lines|
  {
    if lines == [] {
      assert f.events + [] == f.events;
    } else {
      TakeRefines(f, lines[0], lines[1..]);
      assert lines == [lines[0]] + lines[1..];
      TakeAllAppend(f, [lines[0]], lines[1..]);
      assert TakeAll(f, [lines[0]]) == Take(TakeAll(f, [lines[0]][..0]), lines[0]);
      FoldRefines(Take(f, lines[0]), lines[1..]);
    }
  }

  // ---- The generator ----

  /** The first line terminator at or after `from`, or `|s|`: what the sticky regex finds. */
  function NextEnd(s: string, from: nat): (i: nat)
    requires from <= |s|
    ensures from <= i <= |s| && (i < |s| ==> IsTerminator(s[i]))
    ensures forall k :: from <= k < i ==> !IsTerminator(s[k])
    decreases |s| - from
  {
    if from == |s| || IsTerminator(s[from]) then from else NextEnd(s, from + 1)
  }

  /** The length of the terminator at `i`. */
  function EndLength(s: string, i: nat): (n: nat)
    requires i < |s| && IsTerminator(s[i])
    ensures i + n <= |s| && s[i..i + n] in ["\r", "\n", "\r\n"]
    ensures s[i..i + n] == "\r" && i + 1 < |s| ==> s[i + 1] != '\n'
  {
    if s[i] == '\r' && i + 1 < |s| && s[i + 1] == '\n' then
      assert s[i..i + 2] == "\r\n"; 2
    else
      assert s[i..i + 1] == [s[i]]; 1
  }

  /** The text cut into lines so far ends with a line, and no half of a CRLF is left in `pending`. */
  ghost predicate Aligned(s: Scan, pending: string) {
    s.line == "" && (s.cr && pending != "" ==> pending[0] != '\n')
  }

  /** `pending` holds no terminator, unless its last character is a CR that waits for its LF. */
  ghost predicate Searched(pending: string, from: nat) {
    && from <= |pending|
    && (forall k :: 0 <= k < from ==> !IsTerminator(pending[k]))
    && (from < |pending| ==> from == |pending| - 1 && pending[from] == '\r')
  }

  /** `lines` have been cut off `p` up to `start`, after the text `taken`. */
  ghost predicate Cut(taken: string, p: string, start: nat, lines: seq<string>) {
    && start <= |p|
    && Lines(taken + p[..start]) == Lines(taken) + lines
    && Aligned(ScanAll(START, taken + p[..start]), p[start..])
  }

  /** One turn of the search: the line from `start` to the terminator at `index` is cut off. */
  lemma CutLine(taken: string, p: string, start: nat, index: nat, lines: seq<string>)
    requires Cut(taken, p, start, lines) && start <= index < |p| && IsTerminator(p[index])
    requires forall k :: start <= k < index ==> !IsTerminator(p[k])
    ensures var end := index + EndLength(p, index);
            && Cut(taken, p, end, lines + [p[start..index]])
            && (ScanAll(START, taken + p[..end]).cr && end == |p| ==> index == |p| - 1 && p[index] == '\r')
  {
    hide ScanAll;
    var next := index + EndLength(p, index);
    var line, end := p[start..index], p[index..next];
    assert ScanAll(START, taken + p[..next]) == ScanAll(ScanAll(START, taken + p[..start]), line + end) by {
      ScanAppend(START, taken + p[..start], line + end);
      assert taken + p[..next] == (taken + p[..start]) + (line + end);
    }
    ScanLine(ScanAll(START, taken + p[..start]), line, end);
  }

  /**
   * The search loop: cuts the complete lines off `pending`, searching from `from` on. `taken` is
   * the text cut off before.
   */
  method CutLines(pending: string, from: nat, done: bool, ghost taken: string)
    returns (lines: seq<string>, start: nat, next: nat)
    requires Aligned(ScanAll(START, taken), pending)
    requires from <= |pending| && forall k :: 0 <= k < from ==> !IsTerminator(pending[k])
    ensures Cut(taken, pending, start, lines) && Searched(pending[start..], next)
    ensures ScanAll(START, taken + pending[..start]).cr && start == |pending| ==> done || start == 0
    ensures done ==> next == |pending| - start
  {
    lines, start := [], 0;
    var waitForLf := false;
    var index := NextEnd(pending, from);
    assert taken + pending[..0] == taken && pending[0..] == pending;
    while index < |pending|
      invariant start <= index <= |pending| && !waitForLf
      invariant index < |pending| ==> IsTerminator(pending[index])
      invariant forall k :: start <= k < index ==> !IsTerminator(pending[k])
      invariant Cut(taken, pending, start, lines)
      invariant ScanAll(START, taken + pending[..start]).cr && start == |pending| ==> done || start == 0
      decreases |pending| - start
    {
      // A CR that ends what has arrived may be the first half of a CRLF.
      if !done && pending[index] == '\r' && index == |pending| - 1 {
        waitForLf := true;
        break;
      }
      CutLine(taken, pending, start, index, lines);
      lines := lines + [pending[start..index]];
      start := index + EndLength(pending, index);
      index := NextEnd(pending, start);
    }
    next := if waitForLf then |pending| - start - 1 else |pending| - start;
  }

  /** The loop over the lines: what it yields and the data lines it keeps. */
  method Assemble(lines: seq<string>, kept: Option<seq<string>>) returns (data: Option<seq<string>>, events: seq<string>)
    ensures Fold(data, events) == TakeAll(Fold(kept, []), lines)
  {
    data, events := kept, [];
    for i := 0 to |lines|
      invariant Fold(data, events) == TakeAll(Fold(kept, []), lines[..i])
    {
      var line := lines[i];
      assert lines[..i + 1][..i] == lines[..i];
      if line == "" {
        if data.Some? {
          var event := Join(data.value, "\n");
          data := None;
          events := events + [event];
        }
      } else if FieldName(line) == "data" {
        data := Some((if data.Some? then data.value else []) + [FieldValue(line)]);
      }
    }
    assert lines[..|lines|] == lines;
  }

  lemma {:induction false} TakeAllPrefix(data: Option<seq<string>>, events: seq<string>, lines: seq<string>)
    ensures var f := TakeAll(Fold(data, []), lines);
            TakeAll(Fold(data, events), lines) == Fold(f.data, events + f.events)
  {
    if lines == [] {
      assert events + [] == events;
    } else {
      TakeAllPrefix(data, events, lines[..|lines| - 1]);
      var f := TakeAll(Fold(data, []), lines[..|lines| - 1]);
      var g := Take(f, lines[|lines| - 1]);
      if g.events != f.events {
        assert events + g.events == (events + f.events) + [g.events[|f.events|]];
      }
    }
  }

  /** What the generator has read as `taken + pending`, and yielded as `events`. */
  ghost predicate Kept(taken: string, pending: string, from: nat, data: Option<seq<string>>, events: seq<string>) {
    && Aligned(ScanAll(START, taken), pending) && Searched(pending, from)
    && Fold(data, events) == TakeAll(Fold(None, []), Lines(taken))
  }

  /** At the end an unterminated last line is dropped, and an event under way too. */
  lemma AtEnd(taken: string, pending: string, data: Option<seq<string>>, events: seq<string>)
    requires Kept(taken, pending, |pending|, data, events)
    ensures events == Reference(taken + pending)
  {
    ScanAppend(START, taken, pending);
    ScanPlain(ScanAll(START, taken), pending);
    FoldRefines(Fold(None, []), Lines(taken));
  }

  /** One turn of the read loop: `chunk` has arrived, or the body is `done`. */
  method Turn(pending: string, from: nat, data: Option<seq<string>>, chunk: string, done: bool,
              ghost taken: string, ghost before: seq<string>)
    returns (pending': string, from': nat, data': Option<seq<string>>, events: seq<string>, ghost taken': string)
    requires Kept(taken, pending, from, data, before) && (ScanAll(START, taken).cr ==> pending != "")
    ensures taken' + pending' == taken + pending + chunk && Kept(taken', pending', from', data', before + events)
    ensures !done && ScanAll(START, taken').cr ==> pending' != ""
    ensures done ==> from' == |pending'|
  {
    var arrived := pending + chunk;
    var lines, start, next := CutLines(arrived, from, done, taken);
    pending', from', taken' := arrived[start..], next, taken + arrived[..start];
    data', events := Assemble(lines, data);
    TakeAllAppend(Fold(None, []), Lines(taken), lines);
    TakeAllPrefix(data, before, lines);
  }

  /**
   * `sseData` on a body read to its end. Whatever the chunks, the events are those of the whole
   * text; `last` is what the decoder releases at the end.
   */
  method SseData(chunks: seq<string>, last: string) returns (events: seq<string>)
    ensures events == Reference(Concat(chunks) + last)
  {
    var pending, from := "", 0;
    var data: Option<seq<string>> := None;
    events := [];
    ghost var taken := "";
    for i := 0 to |chunks|
      invariant Kept(taken, pending, from, data, events) && (ScanAll(START, taken).cr ==> pending != "")
      invariant taken + pending == Concat(chunks[..i])
    {
      var more;
      pending, from, data, more, taken := Turn(pending, from, data, chunks[i], false, taken, events);
      events := events + more;
      assert chunks[..i + 1][..i] == chunks[..i];
    }
    assert chunks[..|chunks|] == chunks;
    var more;
    pending, from, data, more, taken := Turn(pending, from, data, last, true, taken, events);
    events := events + more;
    AtEnd(taken, pending, data, events);
  }
}
