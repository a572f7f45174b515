/**
 * `ToolOutputCollapser` and `collapseLines`: head and tail of a long tool output, streamed and at
 * once (packages/cli/src/output-collapse.ts). Both must show the same lines.
 */
module OutputCollapse {
  import opened Text

  // ---- Lines ----

  /** The terminated lines of a text, and what follows the last newline. */
  datatype Cut = Cut(lines: seq<string>, rest: string)

  function CutChar(cut: Cut, c: char): Cut {
    if c == '\n' then Cut(cut.lines + [cut.rest], "") else Cut(cut.lines, cut.rest + [c])
  }

  function CutText(cut: Cut, text: string): Cut {
    if text == "" then cut else CutChar(CutText(cut, text[..|text| - 1]), text[|text| - 1])
  }

  const EMPTY := Cut([], "")

  /** `text.split("\n")`. */
  function Split(text: string): (parts: seq<string>)
    ensures parts != []
  {
    var cut := CutText(EMPTY, text);
    cut.lines + [cut.rest]
  }

  /** The lines history shows: the split text less one trailing empty line. */
  function OutputLines(text: string): seq<string> {
    var lines := Split(text);
    if |lines| > 1 && lines[|lines| - 1] == "" then lines[..|lines| - 1] else lines
  }

  /** The lines a stretch of live text shows. */
  function LinesShown(text: string): seq<string> {
    var cut := CutText(EMPTY, text);
    if cut.rest == "" then cut.lines else cut.lines + [cut.rest]
  }

  function Unlines(lines: seq<string>): string {
    if lines == [] then "" else Unlines(lines[..|lines| - 1]) + lines[|lines| - 1] + "\n"
  }

  lemma {:induction false} CutAppend(cut: Cut, a: string, b: string)
    ensures CutText(cut, a + b) == CutText(CutText(cut, a), b)
  {
    if b == "" {
      assert a + b == a;
    } else {
      CutAppend(cut, a, b[..|b| - 1]);
      assert (a + b)[..|a + b| - 1] == a + b[..|b| - 1];
    }
  }

  lemma {:induction false} CutPlain(cut: Cut, text: string)
    requires '\n' !in text
    ensures CutText(cut, text) == Cut(cut.lines, cut.rest + text)
  {
    if text != "" {
      var init := text[..|text| - 1];
      assert text == init + [text[|text| - 1]];
      CutPlain(cut, init);
    }
  }

  lemma CutLine(cut: Cut, line: string)
    requires '\n' !in line
    ensures CutText(cut, line + "\n") == Cut(cut.lines + [cut.rest + line], "")
  {
    assert (line + "\n")[..|line|] == line;
    CutPlain(cut, line);
  }

  /** Text cut after some lines adds its own. */
  lemma {:induction false} CutShift(lines: seq<string>, rest: string, text: string)
    ensures var cut := CutText(Cut([], rest), text);
            CutText(Cut(lines, rest), text) == Cut(lines + cut.lines, cut.rest)
  {
    if text == "" {
      assert lines + [] == lines;
    } else {
      var init, c := text[..|text| - 1], text[|text| - 1];
      CutShift(lines, rest, init);
      var cut := CutText(Cut([], rest), init);
      assert CutText(Cut(lines, rest), text) == CutChar(Cut(lines + cut.lines, cut.rest), c);
      if c == '\n' {
        assert (lines + cut.lines) + [cut.rest] == lines + (cut.lines + [cut.rest]);
      }
    }
  }

  /** A text is its terminated lines and the rest. */
  lemma {:induction false} CutRebuilds(text: string)
    ensures var cut := CutText(EMPTY, text); Unlines(cut.lines) + cut.rest == text && '\n' !in cut.rest
  {
    if text != "" {
      var init, c := text[..|text| - 1], text[|text| - 1];
      CutRebuilds(init);
      var cut, next := CutText(EMPTY, init), CutText(EMPTY, text);
      assert text == init + [c];
      if c == '\n' {
        assert next.lines[..|next.lines| - 1] == cut.lines;
      }
    }
  }

  // ---- The output at once ----

  datatype Collapsed = Collapsed(head: seq<string>, hidden: nat, tail: seq<string>)

  /** `lines.slice(-n)`: a negative zero keeps everything. */
  function SliceLast(lines: seq<string>, n: nat): seq<string> {
    if n == 0 || n >= |lines| then lines else lines[|lines| - n..]
  }

  function CollapseLines(lines: seq<string>, head: nat, tail: nat): Collapsed {
    if |lines| <= head + tail + 1 then Collapsed(lines, 0, [])
    else Collapsed(lines[..head], |lines| - head - tail, SliceLast(lines, tail))
  }

  /** Every line is shown or hidden once exactly when there is a tail, or nothing to elide. */
  lemma EachLineOnce(lines: seq<string>, head: nat, tail: nat)
    ensures var c := CollapseLines(lines, head, tail);
            && (|c.head| + c.hidden + |c.tail| == |lines| <==> tail >= 1 || |lines| <= head + 1)
            && (c.hidden == 0 || c.hidden >= 2)
            && (tail >= 1 ==> c.head <= lines && (c.hidden > 0 ==> c.tail == lines[|lines| - tail..]))
  {
  }

  // ---- The stream ----

  /** Completed head lines that stream live, and lines shown after the elision marker. */
  const TOOL_OUTPUT_HEAD_LINES: nat := 4
  const TOOL_OUTPUT_TAIL_LINES: nat := 4

  datatype Settled = Settled(hidden: nat, lines: seq<string>)

  class ToolOutputCollapser {
    var headRemaining: nat
    const tail: nat
    var buffered: seq<string>
    var dropped: nat
    var partial: string
    var holding: bool

    ghost const head: nat
    /** The output so far, and the part of it written through. */
    ghost var text: string
    ghost var live: string

    /** `kept` are the lines held back so far, the first `dropped` of them gone from the buffer. */
    ghost predicate Buffers(kept: seq<string>)
      reads this
    {
      && |kept| == dropped + |buffered| && |buffered| <= tail + 1
      && buffered == kept[dropped..]
      && (dropped > 0 ==> |buffered| == tail + 1)
    }

    /** Past the head: what is written is the first `head` lines, the rest is held. */
    ghost predicate Holds(cut: Cut)
      reads this
    {
      && headRemaining == 0 && head <= |cut.lines|
      && CutText(EMPTY, live) == Cut(cut.lines[..head], "")
      && Buffers(cut.lines[head..]) && partial == cut.rest
    }

    ghost predicate Valid()
      reads this
    {
      var cut := CutText(EMPTY, text);
      if holding then Holds(cut) && (head < |cut.lines| || cut.rest != "")
      else
        && live == text && dropped == 0 && buffered == [] && partial == ""
        && |cut.lines| + headRemaining == head && (headRemaining == 0 ==> cut.rest == "")
    }

    constructor (head: nat := TOOL_OUTPUT_HEAD_LINES, tail: nat := TOOL_OUTPUT_TAIL_LINES)
      ensures Valid() && text == "" && live == "" && this.head == head && this.tail == tail
    {
      headRemaining, this.tail, this.head := head, tail, head;
      buffered, dropped, partial, holding := [], 0, "", false;
      text, live := "", "";
    }

    method BufferLine(line: string, ghost kept: seq<string>)
      requires Buffers(kept)
      modifies `buffered, `dropped
      ensures Buffers(kept + [line])
    {
      buffered := buffered + [line];
      if |buffered| > tail + 1 {
        buffered := buffered[1..];
        dropped := dropped + 1;
      }
    }

    /** The loop that spends the head allowance: how much of `chunk` is written through. */
    method SpendHead(chunk: string) returns (idx: nat)
      requires Valid() && !holding
      modifies `headRemaining
      ensures idx <= |chunk|
      ensures var cut := CutText(EMPTY, text + chunk[..idx]);
              && |cut.lines| + headRemaining == head && (headRemaining == 0 ==> cut.rest == "")
              && (idx < |chunk| ==> headRemaining == 0)
    {
      idx := 0;
      assert text + chunk[..0] == text;
      while idx < |chunk| && headRemaining > 0
        invariant idx <= |chunk|
        invariant var cut := CutText(EMPTY, text + chunk[..idx]);
                  |cut.lines| + headRemaining == head && (headRemaining == 0 ==> cut.rest == "")
        decreases |chunk| - idx
      {
        var rest := chunk[idx..];
        var nl := Find(rest, '\n');
        ghost var before := text + chunk[..idx];
        if nl == |rest| {
          assert text + chunk[..|chunk|] == before + rest && rest[..nl] == rest;
          CutAppend(EMPTY, before, rest);
          CutPlain(CutText(EMPTY, before), rest);
          idx := |chunk|;
          break;
        }
        HeadLine(before, rest[..nl]);
        assert text + chunk[..idx + nl + 1] == before + (rest[..nl] + "\n");
        idx := idx + nl + 1;
        headRemaining := headRemaining - 1;
      }
    }

    /** Splits what is held back into lines and buffers those that are complete. */
    method Hold(rest: string)
      requires Holds(CutText(EMPTY, text))
      modifies `buffered, `dropped, `partial, `text
      ensures text == old(text) + rest && Holds(CutText(EMPTY, text))
    {
      ghost var cut := CutText(EMPTY, text);
      CutRebuilds(text);
      hide CutText, Split, Unlines;
      var parts := Split(partial + rest);
      ghost var all := parts;
      partial := parts[|parts| - 1];
      parts := parts[..|parts| - 1];
      assert all == parts + [partial];
      HeldAppend(text, rest, parts, partial);
      text := text + rest;
      BufferLines(parts, cut.lines[head..]);
      SlicesAppend(cut.lines, parts, head);
    }

    method BufferLines(parts: seq<string>, ghost kept: seq<string>)
      requires Buffers(kept)
      modifies `buffered, `dropped
      ensures Buffers(kept + parts)
    {
      assert kept + parts[..0] == kept;
      for i := 0 to |parts|
        invariant Buffers(kept + parts[..i])
      {
        BufferLine(parts[i], kept + parts[..i]);
        assert (kept + parts[..i]) + [parts[i]] == kept + parts[..i + 1];
      }
      assert parts[..|parts|] == parts;
    }

    /** Feeds one chunk; returns what to write live. */
    method Push(chunk: string) returns (through: string)
      requires Valid()
      modifies this
      ensures Valid() && text == old(text) + chunk && live == old(live) + through
    {
      through := "";
      var rest := chunk;
      if !holding {
        var idx := SpendHead(chunk);
        through, rest := chunk[..idx], chunk[idx..];
        text, live := text + through, live + through;
        if rest == "" {
          assert chunk == through;
          return;
        }
        holding := true;
        ghost var cut := CutText(EMPTY, text);
        assert cut.lines[..head] == cut.lines && cut.lines[head..] == [];
      }
      assert rest != "" || old(holding);
      Grows(CutText(EMPTY, text), rest);
      CutAppend(EMPTY, text, rest);
      hide CutText;
      assert old(text) + chunk == text + rest by {
        assert chunk == through + rest;
      }
      Hold(rest);
    }

    /** Settles what is held back at the end of the output. */
    method Flush() returns (settled: Settled)
      requires Valid() && tail >= 1 && text != ""
      modifies this
      ensures buffered == [] && dropped == 0 && partial == ""
      ensures var c := CollapseLines(OutputLines(text), head, tail);
              && settled.hidden == c.hidden
              && (c.hidden > 0 ==> live == Unlines(c.head) && settled.lines == c.tail)
              && (c.hidden == 0 ==> LinesShown(live) + settled.lines == c.head)
      ensures text == old(text) && live == old(live)
    {
      hide CollapseLines, OutputLines, LinesShown, Unlines, CutText;
      ghost var cut := CutText(EMPTY, text);
      ghost var kept := if holding then cut.lines[head..] else [];
      if partial != "" {
        BufferLine(partial, kept);
        kept := kept + [partial];
        partial := "";
      }
      if dropped == 0 {
        settled := Settled(0, buffered);
      } else {
        settled := Settled(dropped + (|buffered| - tail), SliceLast(buffered, tail));
      }
      SettlesLikeBatch(text, live, head, tail, holding, kept, dropped, settled);
      buffered, dropped := [], 0;
    }
  }

  lemma SlicesAppend(lines: seq<string>, more: seq<string>, n: nat)
    requires n <= |lines|
    ensures (lines + more)[n..] == lines[n..] + more && (lines + more)[..n] == lines[..n]
  {
  }

  lemma HeadLine(before: string, line: string)
    requires '\n' !in line
    ensures var cut, next := CutText(EMPTY, before), CutText(EMPTY, before + (line + "\n"));
            |next.lines| == |cut.lines| + 1 && next.rest == ""
  {
    CutAppend(EMPTY, before, line + "\n");
    CutLine(CutText(EMPTY, before), line);
  }

  /** More text adds lines or makes the last one longer. */
  lemma {:induction false} Grows(cut: Cut, text: string)
    ensures var next := CutText(cut, text);
            |cut.lines| < |next.lines| || (next.lines == cut.lines && next.rest == cut.rest + text)
  {
    CutShift(cut.lines, cut.rest, text);
    if '\n' !in text {
      CutPlain(cut, text);
    } else {
      HasLine(Cut([], cut.rest), text);
    }
  }

  lemma {:induction false} HasLine(cut: Cut, text: string)
    requires '\n' in text
    ensures |CutText(cut, text).lines| > |cut.lines|
  {
    var init, c := text[..|text| - 1], text[|text| - 1];
    assert text == init + [c];
    if '\n' in init {
      HasLine(cut, init);
    } else {
      CutPlain(cut, init);
    }
  }

  /** Splitting the held line with what follows is splitting the whole text. */
  lemma HeldAppend(text: string, rest: string, parts: seq<string>, last: string)
    requires Split(CutText(EMPTY, text).rest + rest) == parts + [last] && '\n' !in CutText(EMPTY, text).rest
    ensures var cut := CutText(EMPTY, text);
            CutText(EMPTY, text + rest) == Cut(cut.lines + parts, last)
  {
    var cut := CutText(EMPTY, text);
    CutAppend(EMPTY, cut.rest, rest);
    CutPlain(EMPTY, cut.rest);
    assert "" + cut.rest == cut.rest;
    CutAppend(EMPTY, text, rest);
    CutShift(cut.lines, cut.rest, rest);
    var more := CutText(EMPTY, cut.rest + rest);
    assert more.lines == (more.lines + [more.rest])[..|more.lines|] == parts && more.rest == last;
  }

  /** What the stream shows against what the collapse of the whole output shows. */
  lemma SettlesLikeBatch(text: string, live: string, head: nat, tail: nat, holding: bool,
                         kept: seq<string>, dropped: nat, settled: Settled)
    requires text != "" && tail >= 1
    requires var cut := CutText(EMPTY, text);
             if holding then
               && head <= |cut.lines| && CutText(EMPTY, live) == Cut(cut.lines[..head], "")
               && kept == cut.lines[head..] + if cut.rest == "" then [] else [cut.rest]
             else live == text && kept == [] && (|cut.lines| < head || (|cut.lines| == head && cut.rest == ""))
    requires dropped == (if |kept| <= tail + 1 then 0 else |kept| - tail - 1)
    requires settled == if dropped == 0 then Settled(0, kept) else Settled(|kept| - tail, kept[|kept| - tail..])
    ensures var c := CollapseLines(OutputLines(text), head, tail);
            && settled.hidden == c.hidden
            && (c.hidden > 0 ==> live == Unlines(c.head) && settled.lines == c.tail)
            && (c.hidden == 0 ==> LinesShown(live) + settled.lines == c.head)
  {
    var cut := CutText(EMPTY, text);
    OutputIsShown(text);
    if holding {
      CutRebuilds(live);
      assert live == Unlines(cut.lines[..head]);
      assert LinesShown(text) == cut.lines[..head] + kept;
      hide CutText, LinesShown, OutputLines, Unlines;
      SettledTail(cut.lines[..head], kept, tail);
    } else {
      assert LinesShown(text) + [] == LinesShown(text);
    }
  }

  lemma SettledTail(shown: seq<string>, kept: seq<string>, tail: nat)
    requires tail >= 1
    ensures var c := CollapseLines(shown + kept, |shown|, tail);
            if |kept| <= tail + 1 then c == Collapsed(shown + kept, 0, [])
            else c == Collapsed(shown, |kept| - tail, kept[|kept| - tail..])
  {
    var lines := shown + kept;
    assert lines[..|shown|] == shown;
    if |kept| > tail + 1 {
      assert lines[|lines| - tail..] == kept[|kept| - tail..];
    }
  }

  /** The rendered lines of a text are its terminated lines and what follows them. */
  lemma OutputIsShown(text: string)
    requires text != ""
    ensures OutputLines(text) == LinesShown(text)
  {
    CutRebuilds(text);
    var cut := CutText(EMPTY, text);
    assert (cut.lines + [cut.rest])[..|cut.lines|] == cut.lines;
  }

  /** An output in chunks: what is written live, then settled, is what `CollapseLines` shows. */
  method Collapse(chunks: seq<string>, head: nat, tail: nat) returns (live: string, settled: Settled)
    requires tail >= 1 && Concat(chunks) != ""
    ensures var c := CollapseLines(OutputLines(Concat(chunks)), head, tail);
            && settled.hidden == c.hidden
            && (c.hidden > 0 ==> live == Unlines(c.head) && settled.lines == c.tail)
            && (c.hidden == 0 ==> LinesShown(live) + settled.lines == c.head)
  {
    var collapser := new ToolOutputCollapser(head, tail);
    live := "";
    for i := 0 to |chunks|
      invariant collapser.Valid() && collapser.head == head && collapser.tail == tail
      invariant collapser.text == Concat(chunks[..i]) && collapser.live == live
    {
      var through := collapser.Push(chunks[i]);
      live := live + through;
      assert chunks[..i + 1][..i] == chunks[..i];
    }
    assert chunks[..|chunks|] == chunks;
    settled := collapser.Flush();
  }
}
