/**
 * `parseSseBody`: the second incremental reader of a server-sent event body
 * (packages/cli/src/client.ts), which keeps ids and event names, and its agreement with `sseData`.
 */
module SseFrames {
  import opened Text
  import opened SseReader
  import opened Wrappers

  datatype Frame = Frame(id: Option<string>, event: Option<string>, data: string)

  // ---- The whole text at once ----

  /** A line ends at a LF alone; one CR before it is dropped. */
  datatype LfScan = LfScan(lines: seq<string>, line: string)

  const LF_START := LfScan([], "")

  function LfChar(s: LfScan, c: char): LfScan {
    if c == '\n' then LfScan(s.lines + [StripCr(s.line)], "") else LfScan(s.lines, s.line + [c])
  }

  function LfAll(s: LfScan, text: string): LfScan {
    if text == "" then s else LfChar(LfAll(s, text[..|text| - 1]), text[|text| - 1])
  }

  function LfLines(text: string): seq<string> {
    LfAll(LF_START, text).lines
  }

  /** The fields of the frame under way, and the frames dispatched. The id outlives its frame. */
  datatype Parse = Parse(id: Option<string>, event: Option<string>, data: seq<string>, frames: seq<Frame>)

  const PARSE_START := Parse(None, None, [], [])

  function ParseLine(p: Parse, line: string): Parse {
    if line == "" then
      if p.data == [] && p.event.None? then p.(id := None)
      else Parse(p.id, None, [], p.frames + [Frame(p.id, p.event, Join(p.data, "\n"))])
    else
      var field, value := FieldName(line), FieldValue(line);
      if field == "data" then p.(data := p.data + [value])
      else if field == "event" then p.(event := Some(value))
      else if field == "id" then p.(id := Some(value))
      else p
  }

  function ParseLines(p: Parse, lines: seq<string>): Parse {
    if lines == [] then p else ParseLine(ParseLines(p, lines[..|lines| - 1]), lines[|lines| - 1])
  }

  function FramesOf(text: string): seq<Frame> {
    ParseLines(PARSE_START, LfLines(text)).frames
  }

  lemma {:induction false} LfAppend(s: LfScan, a: string, b: string)
    ensures LfAll(s, a + b) == LfAll(LfAll(s, a), b)
  {
    if b == "" {
      assert a + b == a;
    } else {
      LfAppend(s, a, b[..|b| - 1]);
      assert (a + b)[..|a + b| - 1] == a + b[..|b| - 1];
    }
  }

  lemma {:induction false} LfPlain(s: LfScan, text: string)
    requires '\n' !in text
    ensures LfAll(s, text) == LfScan(s.lines, s.line + text)
  {
    if text != "" {
      var init := text[..|text| - 1];
      assert text == init + [text[|text| - 1]];
      LfPlain(s, init);
    }
  }

  /** A line and the LF that ends it. */
  lemma LfLine(s: LfScan, line: string)
    requires '\n' !in line && s.line == ""
    ensures LfAll(s, line + "\n") == LfScan(s.lines + [StripCr(line)], "")
  {
    var text := line + "\n";
    assert LfAll(s, text) == LfChar(LfAll(s, line), '\n') by {
      assert text[..|text| - 1] == line;
    }
    LfPlain(s, line);
    assert "" + line == line;
  }

  lemma {:induction false} ParseAppend(p: Parse, a: seq<string>, b: seq<string>)
    ensures ParseLines(p, a + b) == ParseLines(ParseLines(p, a), b)
  {
    if b == [] {
      assert a + b == a;
    } else {
      ParseAppend(p, a, b[..|b| - 1]);
      assert (a + b)[..|a + b| - 1] == a + b[..|b| - 1];
    }
  }

  // ---- The generator ----

  /** The turn's inner loop: takes the LF-ended lines off the buffer and parses each. */
  method TakeLines(buffer: string, parse: Parse, ghost taken: string)
    returns (rest: string, after: Parse, ghost taken': string)
    requires LfAll(LF_START, taken).line == "" && parse == ParseLines(PARSE_START, LfLines(taken))
    ensures taken' + rest == taken + buffer && '\n' !in rest
    ensures LfAll(LF_START, taken').line == "" && after == ParseLines(PARSE_START, LfLines(taken'))
  {
    rest, after, taken' := buffer, parse, taken;
    var id, event, data, frames := parse.id, parse.event, parse.data, parse.frames;
    while true
      invariant taken' + rest == taken + buffer
      invariant LfAll(LF_START, taken').line == ""
      invariant Parse(id, event, data, frames) == ParseLines(PARSE_START, LfLines(taken'))
      decreases |rest|
    {
      var nl := Find(rest, '\n');
      if nl == |rest| {
        assert rest[..nl] == rest;
        break;
      }
      var line := StripCr(rest[..nl]);
      CutLine(taken', rest[..nl]);
      MoveAcross(taken', rest, nl);
      taken' := taken' + rest[..nl] + "\n";
      rest := rest[nl + 1..];
      if line == "" {
        if data == [] && event.None? {
          id := None;
        } else {
          frames := frames + [Frame(id, event, Join(data, "\n"))];
          event, data := None, [];
        }
        continue;
      }
      if line[0] == ':' {
        continue;
      }
      var field, value := FieldName(line), FieldValue(line);
      if field == "data" {
        data := data + [value];
      } else if field == "event" {
        event := Some(value);
      } else if field == "id" {
        id := Some(value);
      }
    }
    after := Parse(id, event, data, frames);
  }

  lemma CutLine(taken: string, line: string)
    requires '\n' !in line && LfAll(LF_START, taken).line == ""
    ensures LfAll(LF_START, taken + line + "\n") == LfScan(LfLines(taken) + [StripCr(line)], "")
    ensures ParseLines(PARSE_START, LfLines(taken + line + "\n"))
         == ParseLine(ParseLines(PARSE_START, LfLines(taken)), StripCr(line))
  {
    LfAppend(LF_START, taken, line + "\n");
    assert taken + line + "\n" == taken + (line + "\n");
    LfLine(LfAll(LF_START, taken), line);
    var lines := LfLines(taken) + [StripCr(line)];
    assert lines[..|lines| - 1] == LfLines(taken);
  }

  /** `parseSseBody` on a body read to its end: whatever the chunks, the frames of the whole text. */
  method ParseSseBody(chunks: seq<string>) returns (frames: seq<Frame>)
    ensures frames == FramesOf(Concat(chunks))
  {
    var buffer, parse := "", PARSE_START;
    ghost var taken := "";
    for i := 0 to |chunks|
      invariant taken + buffer == Concat(chunks[..i]) && '\n' !in buffer
      invariant LfAll(LF_START, taken).line == "" && parse == ParseLines(PARSE_START, LfLines(taken))
    {
      buffer, parse, taken := TakeLines(buffer + chunks[i], parse, taken);
      assert chunks[..i + 1][..i] == chunks[..i];
    }
    assert chunks[..|chunks|] == chunks;
    LfAppend(LF_START, taken, buffer);
    LfPlain(LfAll(LF_START, taken), buffer);
    frames := parse.frames;
  }

  // ---- The two readers agree ----

  /** Every CR is followed by a LF, but a CR that ends the text may still wait for its own. */
  predicate CrBeforeLf(text: string) {
    forall i :: 0 <= i < |text| - 1 && text[i] == '\r' ==> text[i + 1] == '\n'
  }

  /** The two line splitters, side by side: after a CR `sseData`'s is one line ahead. */
  ghost predicate InStep(s: Scan, lf: LfScan, crLast: bool) {
    if crLast then
      && s.cr && s.line == "" && s.lines != [] && lf.lines == s.lines[..|s.lines| - 1]
      && lf.line == s.lines[|s.lines| - 1] + "\r"
    else
      !s.cr && s.line == lf.line && s.lines == lf.lines && '\r' !in lf.line
  }

  lemma {:induction false} SplittersInStep(text: string)
    requires CrBeforeLf(text)
    ensures InStep(ScanAll(START, text), LfAll(LF_START, text), text != "" && text[|text| - 1] == '\r')
  {
    if text != "" {
      var n := |text| - 1;
      var init := text[..n];
      SplittersInStep(init);
      if n > 0 && init[n - 1] == '\r' {
        assert text[n - 1] == '\r' && text[n] == '\n';
        var lf := LfAll(LF_START, init);
        assert StripCr(lf.line) + "\r" == lf.line;
      }
    }
  }

  function Datas(frames: seq<Frame>): seq<string> {
    if frames == [] then [] else Datas(frames[..|frames| - 1]) + [frames[|frames| - 1].data]
  }

  lemma {:induction false} AssemblersInStep(lines: seq<string>)
    requires forall line :: line in lines ==> FieldName(line) != "event"
    ensures var p, f := ParseLines(PARSE_START, lines), TakeAll(Fold(None, []), lines);
            && p.event == None && f.events == Datas(p.frames)
            && f.data == (if p.data == [] then None else Some(p.data))
  {
    if lines != [] {
      var n := |lines| - 1;
      AssemblersInStep(lines[..n]);
      var p, q := ParseLines(PARSE_START, lines[..n]), ParseLines(PARSE_START, lines);
      assert lines[n] in lines;
      if q.frames != p.frames {
        assert q.frames[..|q.frames| - 1] == p.frames;
      }
      assert [] + [FieldValue(lines[n])] == [FieldValue(lines[n])];
    }
  }

  /**
   * On text in which each CR is followed by a LF and no line names an `event`, the two readers
   * yield the same data, cut into chunks any way at all (by `SseData` and `ParseSseBody`).
   */
  lemma ReadersAgree(text: string)
    requires CrBeforeLf(text) && (text != "" ==> text[|text| - 1] != '\r')
    requires forall line :: line in Lines(text) ==> FieldName(line) != "event"
    ensures Datas(FramesOf(text)) == Reference(text)
  {
    SplittersInStep(text);
    AssemblersInStep(Lines(text));
    FoldRefines(Fold(None, []), Lines(text));
  }
}
