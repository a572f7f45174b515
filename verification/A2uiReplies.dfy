/**
 * What the a2ui filter (packages/cli/src/a2ui-stream.ts) prints of a reply, said without its reading of
 * it: a reply is lines, fenced code and a2ui blocks, in one way or another cut off at its end.
 */
module A2uiReplies {
  import opened A2uiStream
  import opened Text

  // ---- The three kinds of fence lines ----

  /** Up to three spaces, `size` times the mark, and what follows that run. */
  predicate IsRun(line: string, i: nat, mark: char, size: nat, info: string) {
    && i <= 3 && mark in {'`', '~'} && size >= 3 && (info != "" ==> info[0] != mark)
    && line == Fill(' ', i) + (Fill(mark, size) + info)
  }

  /** A fence opens: nothing that ends a line after the run, and no backtick after a run of them. */
  ghost predicate IsOpener(line: string, mark: char, size: nat) {
    exists i: nat, info :: IsRun(line, i, mark, size, info) && !HasLineEnd(info) && (mark == '`' ==> '`' !in info)
  }

  ghost predicate IsA2uiWord(info: string) {
    exists lead, tail :: AllBlank(lead) && AllBlank(tail) && info == lead + "a2ui" + tail
  }

  /** An a2ui block opens: the word alone, between blanks. */
  ghost predicate IsA2uiOpener(line: string, mark: char, size: nat) {
    exists i: nat, info :: IsRun(line, i, mark, size, info) && IsA2uiWord(info)
  }

  /** A fence of `size` marks closes: at least as many of the same mark, and blanks. */
  ghost predicate IsCloser(line: string, mark: char, size: nat) {
    exists i: nat, n: nat, tail :: IsRun(line, i, mark, n, tail) && n >= size && AllBlank(tail)
  }

  lemma RunIs(line: string, i: nat, mark: char, size: nat, info: string)
    requires IsRun(line, i, mark, size, info)
    ensures HasRun(line, 3) && HasRun(line, 1) && RunFence(line) == Fence(mark, size) && AfterRun(line) == info
  {
    RunShape(i, mark, size, info);
  }

  lemma HasItsRun(line: string)
    requires HasRun(line, 3)
    ensures IsRun(line, Count(line, ' '), RunFence(line).mark, RunFence(line).size, AfterRun(line))
  {
    HeldShape(line);
  }

  lemma OpenerIs(line: string, mark: char, size: nat)
    ensures IsOpener(line, mark, size) <==> OpensFence(line) && RunFence(line) == Fence(mark, size)
  {
    hide RunFence, AfterRun, IsRun, HasLineEnd;
    if OpensFence(line) && RunFence(line) == Fence(mark, size) {
      HasItsRun(line);
    }
    forall i: nat, info | IsRun(line, i, mark, size, info)
      ensures HasRun(line, 3) && RunFence(line) == Fence(mark, size) && AfterRun(line) == info
    {
      RunIs(line, i, mark, size, info);
    }
  }

  lemma WordIs(info: string)
    ensures IsA2uiWord(info) <==> A2uiInfo(info)
  {
    if A2uiInfo(info) {
      var lead, word := info[..Blanks(info)], info[Blanks(info)..];
      assert info == lead + "a2ui" + word[4..];
    }
    forall lead, tail | AllBlank(lead) && AllBlank(tail) && info == lead + "a2ui" + tail
      ensures A2uiInfo(info)
    {
      InfoShape(lead, tail);
    }
  }

  lemma A2uiOpenerIs(line: string, mark: char, size: nat)
    ensures IsA2uiOpener(line, mark, size) <==> OpensA2ui(line) && RunFence(line) == Fence(mark, size)
  {
    OpenerIs(line, mark, size);
    hide RunFence, AfterRun, IsRun, HasLineEnd, A2uiInfo, IsA2uiWord;
    if OpensA2ui(line) && RunFence(line) == Fence(mark, size) {
      HasItsRun(line);
      WordIs(AfterRun(line));
    }
    forall i: nat, info | IsRun(line, i, mark, size, info) && IsA2uiWord(info)
      ensures OpensA2ui(line) && RunFence(line) == Fence(mark, size)
    {
      RunIs(line, i, mark, size, info);
      WordIs(info);
      WordHasNoEnd(info);
    }
  }

  lemma WordHasNoEnd(info: string)
    requires IsA2uiWord(info)
    ensures !HasLineEnd(info) && '`' !in info
  {
    var lead, tail :| AllBlank(lead) && AllBlank(tail) && info == lead + "a2ui" + tail;
    InfoShape(lead, tail);
  }

  lemma CloserIs(line: string, mark: char, size: nat)
    ensures IsCloser(line, mark, size) <==> Closes(line, Fence(mark, size))
  {
    hide RunFence, AfterRun, IsRun, AllBlank;
    if Closes(line, Fence(mark, size)) {
      HasItsRun(line);
    }
    forall i: nat, n: nat, tail | IsRun(line, i, mark, n, tail) && n >= size && AllBlank(tail)
      ensures Closes(line, Fence(mark, size))
    {
      RunIs(line, i, mark, n, tail);
    }
  }

  // ---- Replies ----

  /** A fence, the lines in it, and the line that closes it or the one under way at the end. */
  datatype Fenced = Fenced(mark: char, size: nat, opener: string, body: seq<string>, end: string)

  datatype Part =
    | Line(line: string)
    | CodeFence(fenced: Fenced)
    | Block(fenced: Fenced)
    | LastLine(line: string)
    | LastCode(fenced: Fenced)
    | LastBlock(fenced: Fenced)

  function Unlines(lines: seq<string>): string {
    if lines == [] then "" else Unlines(lines[..|lines| - 1]) + (lines[|lines| - 1] + "\n")
  }

  function Source(f: Fenced): string {
    f.opener + "\n" + Unlines(f.body) + f.end
  }

  function PartText(part: Part): string {
    match part
    case Line(line) => line + "\n"
    case CodeFence(f) => Source(f) + "\n"
    case Block(f) => Source(f) + "\n"
    case LastLine(line) => line
    case LastCode(f) => Source(f)
    case LastBlock(f) => Source(f)
  }

  predicate IsLine(line: string) {
    '\n' !in line
  }

  /** None of the lines closes the fence; a CR that ends a line does not belong to it. */
  ghost predicate IsBody(f: Fenced) {
    && IsLine(f.opener) && IsLine(f.end)
    && forall k :: 0 <= k < |f.body| ==> IsLine(f.body[k]) && !IsCloser(StripCr(f.body[k]), f.mark, f.size)
  }

  ghost predicate OpensNothing(line: string) {
    forall mark, size :: !IsOpener(StripCr(line), mark, size)
  }

  ghost predicate IsCode(f: Fenced) {
    && IsBody(f) && IsOpener(StripCr(f.opener), f.mark, f.size)
    && !IsA2uiOpener(StripCr(f.opener), f.mark, f.size)
  }

  ghost predicate IsBlock(f: Fenced) {
    IsBody(f) && IsA2uiOpener(StripCr(f.opener), f.mark, f.size)
  }

  ghost predicate IsPart(part: Part) {
    match part
    case Line(line) => IsLine(line) && OpensNothing(line)
    case CodeFence(f) => IsCode(f) && IsCloser(StripCr(f.end), f.mark, f.size)
    case Block(f) => IsBlock(f) && IsCloser(StripCr(f.end), f.mark, f.size)
    case LastLine(line) => IsLine(line)
    case LastCode(f) => IsCode(f)
    case LastBlock(f) => IsBlock(f)
  }

  predicate IsLast(part: Part) {
    part.LastLine? || part.LastCode? || part.LastBlock?
  }

  /** Parts of a reply: only the last may be cut off. */
  ghost predicate IsReply(parts: seq<Part>) {
    forall k :: 0 <= k < |parts| ==> IsPart(parts[k]) && (IsLast(parts[k]) ==> k == |parts| - 1)
  }

  function ReplyText(parts: seq<Part>): string {
    if parts == [] then "" else PartText(parts[0]) + ReplyText(parts[1..])
  }

  // ---- What is printed ----

  /** What is shown for a part: a block, whole or cut off, by its fallback; all else as it stands. */
  function PartShown(part: Part, fallback: string -> string): string {
    if part.Block? || part.LastBlock? then TrimNewlines(fallback(PartText(part))) else PartText(part)
  }

  /** A block leaves a newline owed to whatever is shown next; `owed` is whether one is owed now. */
  function Print(parts: seq<Part>, owed: bool, fallback: string -> string): string {
    if parts == [] then ""
    else
      var shown := PartShown(parts[0], fallback);
      (if shown == "" then "" else (if owed then "\n" else "") + shown)
      + Print(parts[1..], parts[0].Block? || (owed && shown == ""), fallback)
  }

  /** Fallbacks lose the newlines they end with, and nothing else. */
  lemma {:induction false} TrimIs(s: string) returns (n: nat)
    ensures s == TrimNewlines(s) + Fill('\n', n)
    ensures TrimNewlines(s) != "" ==> TrimNewlines(s)[|TrimNewlines(s)| - 1] != '\n'
  {
    if s != "" && s[|s| - 1] == '\n' {
      var m := TrimIs(s[..|s| - 1]);
      n := m + 1;
      assert Fill('\n', n) == Fill('\n', m) + "\n";
      assert s == s[..|s| - 1] + "\n";
    } else {
      n := 0;
    }
  }

  // ---- The filter's reading of the parts ----

  /** Between two parts. */
  function Between(shown: Shown): Reply {
    Reply(Plain, NO_FENCE, "", "", shown)
  }

  lemma ReadText(shown: Shown, line: string, fallback: string -> string)
    requires IsLine(line) && OpensNothing(line)
    ensures Read(Between(shown), line + "\n", fallback) == Between(Emit(shown, line + "\n"))
  {
    assert !OpensFence(StripCr(line)) by {
      if OpensFence(StripCr(line)) {
        OpenerIs(StripCr(line), RunFence(StripCr(line)).mark, RunFence(StripCr(line)).size);
      }
    }
    hide OpensFence, StripCr, Emit;
    ReadLine(Between(shown), line, fallback);
    assert "" + line == line;
  }

  lemma ReadOpener(shown: Shown, f: Fenced, fallback: string -> string)
    requires IsLine(f.opener) && IsOpener(StripCr(f.opener), f.mark, f.size)
    ensures Read(Between(shown), f.opener + "\n", fallback) ==
              if IsA2uiOpener(StripCr(f.opener), f.mark, f.size)
              then Reply(A2ui, Fence(f.mark, f.size), "", f.opener + "\n", shown)
              else Reply(Code, Fence(f.mark, f.size), "", "", Emit(shown, f.opener + "\n"))
  {
    OpenerIs(StripCr(f.opener), f.mark, f.size);
    A2uiOpenerIs(StripCr(f.opener), f.mark, f.size);
    hide OpensFence, OpensA2ui, StripCr, Emit, IsOpener, IsA2uiOpener, RunFence;
    ReadLine(Between(shown), f.opener, fallback);
    assert "" + f.opener == f.opener;
  }

  lemma {:induction false} ReadCode(fence: Fence, lines: seq<string>, shown: Shown, fallback: string -> string)
    requires forall k :: 0 <= k < |lines| ==> IsLine(lines[k]) && !IsCloser(StripCr(lines[k]), fence.mark, fence.size)
    ensures Read(Reply(Code, fence, "", "", shown), Unlines(lines), fallback)
              == Reply(Code, fence, "", "", Emit(shown, Unlines(lines)))
  {
    if lines != [] {
      var front, last := lines[..|lines| - 1], lines[|lines| - 1];
      ReadCode(fence, front, shown, fallback);
      var r := Reply(Code, fence, "", "", Emit(shown, Unlines(front)));
      ReadAppend(Reply(Code, fence, "", "", shown), Unlines(front), last + "\n", fallback);
      ReadLine(r, last, fallback);
      CloserIs(StripCr(last), fence.mark, fence.size);
      hide Read, Closes, StripCr, IsCloser, Emit;
      assert "" + last == last;
      EmitTwice(shown, Unlines(front), last + "\n");
    }
  }

  lemma {:induction false} ReadBlock(fence: Fence, block: string, lines: seq<string>, shown: Shown, fallback: string -> string)
    requires forall k :: 0 <= k < |lines| ==> IsLine(lines[k]) && !IsCloser(StripCr(lines[k]), fence.mark, fence.size)
    ensures Read(Reply(A2ui, fence, "", block, shown), Unlines(lines), fallback)
              == Reply(A2ui, fence, "", block + Unlines(lines), shown)
  {
    if lines != [] {
      var front, last := lines[..|lines| - 1], lines[|lines| - 1];
      ReadBlock(fence, block, front, shown, fallback);
      var r := Reply(A2ui, fence, "", block + Unlines(front), shown);
      ReadAppend(Reply(A2ui, fence, "", block, shown), Unlines(front), last + "\n", fallback);
      ReadLine(r, last, fallback);
      CloserIs(StripCr(last), fence.mark, fence.size);
      hide Read, Closes, StripCr, IsCloser, Emit;
      assert "" + last == last;
      Assoc(block, Unlines(front), last + "\n");
    } else {
      assert block + "" == block;
    }
  }

  /** Reading on from `r` the fence's lines up to the last. */
  lemma ReadFenced(shown: Shown, f: Fenced, fallback: string -> string)
    requires IsBody(f) && IsOpener(StripCr(f.opener), f.mark, f.size)
    ensures Read(Between(shown), f.opener + "\n" + Unlines(f.body), fallback) ==
              if IsA2uiOpener(StripCr(f.opener), f.mark, f.size)
              then Reply(A2ui, Fence(f.mark, f.size), "", f.opener + "\n" + Unlines(f.body), shown)
              else Reply(Code, Fence(f.mark, f.size), "", "", Emit(shown, f.opener + "\n" + Unlines(f.body)))
  {
    var begun := f.opener + "\n";
    ReadOpener(shown, f, fallback);
    ReadAppend(Between(shown), begun, Unlines(f.body), fallback);
    EmitTwice(shown, begun, Unlines(f.body));
    hide Read, Emit, IsA2uiOpener, IsOpener;
    if IsA2uiOpener(StripCr(f.opener), f.mark, f.size) {
      ReadBlock(Fence(f.mark, f.size), begun, f.body, shown, fallback);
    } else {
      ReadCode(Fence(f.mark, f.size), f.body, Emit(shown, begun), fallback);
    }
  }

  /** A fence that is closed. */
  lemma ReadClosed(shown: Shown, f: Fenced, fallback: string -> string)
    requires IsBody(f) && IsOpener(StripCr(f.opener), f.mark, f.size) && IsCloser(StripCr(f.end), f.mark, f.size)
    ensures Read(Between(shown), Source(f) + "\n", fallback) ==
              if IsA2uiOpener(StripCr(f.opener), f.mark, f.size)
              then Between(Emit(shown, TrimNewlines(fallback(Source(f) + "\n"))).(owed := true))
              else Between(Emit(shown, Source(f) + "\n"))
  {
    var front, end, fence := f.opener + "\n" + Unlines(f.body), f.end + "\n", Fence(f.mark, f.size);
    ReadFenced(shown, f, fallback);
    CloserIs(StripCr(f.end), f.mark, f.size);
    assert Source(f) == front + f.end;
    hide *;
    ReadAppend(Between(shown), front, end, fallback);
    Assoc(front, f.end, "\n");
    if IsA2uiOpener(StripCr(f.opener), f.mark, f.size) {
      EndBlock(fence, front, f.end, shown, fallback);
    } else {
      EndCode(fence, front, f.end, shown, fallback);
    }
  }

  lemma EndBlock(fence: Fence, block: string, end: string, shown: Shown, fallback: string -> string)
    requires IsLine(end) && Closes(StripCr(end), fence)
    ensures Read(Reply(A2ui, fence, "", block, shown), end + "\n", fallback)
              == Between(Emit(shown, TrimNewlines(fallback(block + (end + "\n")))).(owed := true))
  {
    ReadLine(Reply(A2ui, fence, "", block, shown), end, fallback);
    hide Read, Emit, Closes, StripCr, TrimNewlines;
    assert "" + end == end;
  }

  lemma EndCode(fence: Fence, front: string, end: string, shown: Shown, fallback: string -> string)
    requires IsLine(end) && Closes(StripCr(end), fence)
    ensures Read(Reply(Code, fence, "", "", Emit(shown, front)), end + "\n", fallback)
              == Between(Emit(shown, front + (end + "\n")))
  {
    ReadLine(Reply(Code, fence, "", "", Emit(shown, front)), end, fallback);
    EmitTwice(shown, front, end + "\n");
    hide Read, Emit, Closes, StripCr;
    assert "" + end == end;
  }

  /** A fence that is cut off. */
  lemma ReadCutOff(shown: Shown, f: Fenced, fallback: string -> string)
    requires IsBody(f) && IsOpener(StripCr(f.opener), f.mark, f.size)
    ensures Printed(Read(Between(shown), Source(f), fallback), fallback) ==
              Emit(shown, if IsA2uiOpener(StripCr(f.opener), f.mark, f.size) then TrimNewlines(fallback(Source(f))) else Source(f)).out
  {
    var front := f.opener + "\n" + Unlines(f.body);
    ReadFenced(shown, f, fallback);
    ReadAppend(Between(shown), front, f.end, fallback);
    EmitTwice(shown, front, f.end);
    ReadPlain(Read(Between(shown), front, fallback), f.end, fallback);
    hide Read, Emit, IsA2uiOpener, IsOpener, StripCr, Unlines, IsBody, TrimNewlines;
    assert "" + f.end == f.end;
  }

  lemma A2uiOpens(line: string, mark: char, size: nat)
    requires IsA2uiOpener(line, mark, size)
    ensures IsOpener(line, mark, size)
  {
    A2uiOpenerIs(line, mark, size);
    OpenerIs(line, mark, size);
  }

  lemma ReadPart(shown: Shown, part: Part, fallback: string -> string)
    requires IsPart(part) && !IsLast(part)
    ensures var after := Emit(shown, PartShown(part, fallback));
            Read(Between(shown), PartText(part), fallback) == Between(if part.Block? then after.(owed := true) else after)
  {
    hide Read, Emit, IsA2uiOpener, IsOpener, IsCloser, IsBody, OpensNothing, TrimNewlines, Source;
    match part
    case Line(line) => ReadText(shown, line, fallback);
    case CodeFence(f) => ReadClosed(shown, f, fallback);
    case Block(f) =>
      A2uiOpens(StripCr(f.opener), f.mark, f.size);
      ReadClosed(shown, f, fallback);
  }

  lemma ReadLast(shown: Shown, part: Part, fallback: string -> string)
    requires IsPart(part) && IsLast(part)
    ensures Printed(Read(Between(shown), PartText(part), fallback), fallback) == Emit(shown, PartShown(part, fallback)).out
  {
    hide Read, Emit, IsA2uiOpener, IsOpener, IsBody, TrimNewlines, Source;
    match part
    case LastLine(line) =>
      ReadPlain(Between(shown), line, fallback);
      assert "" + line == line;
    case LastCode(f) => ReadCutOff(shown, f, fallback);
    case LastBlock(f) =>
      A2uiOpens(StripCr(f.opener), f.mark, f.size);
      ReadCutOff(shown, f, fallback);
  }

  lemma {:induction false} ReadReply(shown: Shown, parts: seq<Part>, fallback: string -> string)
    requires IsReply(parts)
    ensures Printed(Read(Between(shown), ReplyText(parts), fallback), fallback)
              == shown.out + Print(parts, shown.owed, fallback)
    decreases |parts|
  {
    if parts == [] {
      assert shown.out + "" == shown.out;
    } else {
      var part, rest := parts[0], parts[1..];
      var text := PartShown(part, fallback);
      assert IsPart(part) && IsReply(rest);
      if IsLast(part) {
        assert rest == [] && PartText(part) + "" == PartText(part);
        ReadLast(shown, part, fallback);
        hide Read, Printed, PartText, PartShown, IsPart;
        PrintFirst(shown, parts, fallback);
      } else {
        var next := if part.Block? then Emit(shown, text).(owed := true) else Emit(shown, text);
        ReadPart(shown, part, fallback);
        ReadAppend(Between(shown), PartText(part), ReplyText(rest), fallback);
        ReadReply(next, rest, fallback);
        hide Read, Printed, PartText, PartShown, IsPart;
        PrintFirst(shown, parts, fallback);
      }
    }
  }

  lemma PrintFirst(shown: Shown, parts: seq<Part>, fallback: string -> string)
    requires parts != []
    ensures var after := Emit(shown, PartShown(parts[0], fallback));
            shown.out + Print(parts, shown.owed, fallback)
              == after.out + Print(parts[1..], parts[0].Block? || after.owed, fallback)
  {
    hide PartShown;
    var text := PartShown(parts[0], fallback);
    if text == "" {
      PrintNothing(shown, parts, fallback);
    } else {
      Regroup4(shown.out, if shown.owed then "\n" else "", text, Print(parts[1..], parts[0].Block?, fallback));
    }
  }

  lemma PrintNothing(shown: Shown, parts: seq<Part>, fallback: string -> string)
    requires parts != [] && PartShown(parts[0], fallback) == ""
    ensures Print(parts, shown.owed, fallback) == Print(parts[1..], parts[0].Block? || shown.owed, fallback)
  {
    hide PartShown;
    var rest := Print(parts[1..], parts[0].Block? || shown.owed, fallback);
    assert "" + rest == rest;
  }

  lemma Regroup4(a: string, b: string, c: string, d: string)
    ensures a + ((b + c) + d) == (a + b + c) + d
  {
  }

  /**
   * What the filter prints of a reply, whatever its parts: text and code as they stand, each block by
   * its fallback, and a newline between a block and what is shown next.
   */
  lemma PrintsParts(parts: seq<Part>, fallback: string -> string)
    requires IsReply(parts)
    ensures Filtered(ReplyText(parts), fallback) == Print(parts, false, fallback)
  {
    ReadReply(Shown("", false), parts, fallback);
    hide Read, Printed;
    assert "" + Print(parts, false, fallback) == Print(parts, false, fallback);
  }

  // ---- Every reply has parts ----

  /** The first line is whole and opens an a2ui block. */
  ghost predicate StartsWithBlock(text: string) {
    var nl := Find(text, '\n');
    nl < |text| && exists mark, size :: IsA2uiOpener(StripCr(text[..nl]), mark, size)
  }

  ghost predicate IsOpenBody(lines: seq<string>, mark: char, size: nat) {
    forall k :: 0 <= k < |lines| ==> IsLine(lines[k]) && !IsCloser(StripCr(lines[k]), mark, size)
  }

  /** The lines of a fence up to the one that closes it, or to the end. */
  lemma {:induction false} SplitBody(done: seq<string>, rest: string, mark: char, size: nat)
      returns (body: seq<string>, end: string, closed: bool, after: string)
    requires IsOpenBody(done, mark, size)
    ensures IsOpenBody(body, mark, size) && IsLine(end) && (closed ==> IsCloser(StripCr(end), mark, size))
    ensures Unlines(done) + rest == Unlines(body) + end + (if closed then "\n" + after else "")
    ensures if closed then |after| < |rest| else after == ""
    decreases |rest|
  {
    hide IsCloser, StripCr;
    var nl := Find(rest, '\n');
    if nl == |rest| {
      assert rest[..nl] == rest;
      body, end, closed, after := done, rest, false, "";
      assert Unlines(body) + end + "" == Unlines(done) + rest;
    } else {
      var line, more := rest[..nl], rest[nl + 1..];
      assert rest == line + ("\n" + more);
      if IsCloser(StripCr(line), mark, size) {
        body, end, closed, after := done, line, true, more;
        Assoc(Unlines(done), line, "\n" + more);
      } else {
        body, end, closed, after := SplitBody(done + [line], more, mark, size);
        assert (done + [line])[..|done|] == done;
        assert Unlines(done + [line]) + more == Unlines(done) + (line + "\n") + more;
        Regroup(Unlines(done), line, more);
      }
    }
  }

  lemma Regroup(front: string, line: string, more: string)
    ensures front + (line + "\n") + more == front + (line + ("\n" + more))
  {
  }

  /** Every text is a reply: a line that opens no fence, a fence up to its closing line, or the end. */
  lemma {:induction false} EveryReply(text: string) returns (parts: seq<Part>)
    ensures IsReply(parts) && ReplyText(parts) == text
    ensures if text == "" then parts == [] else parts != [] && PartText(parts[0]) != ""
    ensures parts != [] && (parts[0].Block? || parts[0].LastBlock?) ==> StartsWithBlock(text)
    decreases |text|
  {
    var nl := Find(text, '\n');
    if text == "" {
      parts := [];
    } else if nl == |text| {
      assert text[..nl] == text && text + "" == text;
      parts := [LastLine(text)];
      assert ReplyText(parts[1..]) == "";
    } else {
      var line, rest := text[..nl], text[nl + 1..];
      assert text == (line + "\n") + rest;
      var part, after := FirstPart(line, rest);
      hide PartText, IsPart, IsA2uiOpener, IsLast;
      if IsLast(part) {
        parts := [part];
        assert parts[1..] == [] && text + "" == text;
      } else {
        var more := EveryReply(after);
        parts := [part] + more;
        assert parts[1..] == more;
      }
    }
  }

  lemma FirstPart(line: string, rest: string) returns (part: Part, after: string)
    requires IsLine(line)
    ensures IsPart(part) && PartText(part) != "" && |after| <= |rest|
    ensures line + "\n" + rest == PartText(part) + after && (IsLast(part) ==> after == "")
    ensures part.Block? || part.LastBlock? ==> exists mark, size :: IsA2uiOpener(StripCr(line), mark, size)
  {
    hide IsOpener, IsA2uiOpener, IsCloser, StripCr;
    if OpensNothing(line) {
      part, after := Line(line), rest;
    } else {
      var mark, size :| IsOpener(StripCr(line), mark, size);
      var body, end, closed, more := SplitBody([], rest, mark, size);
      var f := Fenced(mark, size, line, body, end);
      assert "" + rest == rest;
      after := more;
      if IsA2uiOpener(StripCr(line), mark, size) {
        part := if closed then Block(f) else LastBlock(f);
      } else {
        part := if closed then CodeFence(f) else LastCode(f);
      }
      hide Unlines;
      SourceIs(f, rest, closed, after);
    }
  }

  lemma SourceIs(f: Fenced, rest: string, closed: bool, after: string)
    requires rest == Unlines(f.body) + f.end + (if closed then "\n" + after else "") && (!closed ==> after == "")
    ensures f.opener + "\n" + rest == (if closed then Source(f) + "\n" else Source(f)) + after && Source(f) != ""
  {
    hide Unlines;
    var head, body := f.opener + "\n", Unlines(f.body);
    if closed {
      assert head + (body + f.end + ("\n" + after)) == (head + body + f.end + "\n") + after;
    } else {
      assert head + (body + f.end + "") == (head + body + f.end) + "";
    }
  }

  /** On every text the filter prints what its parts say. */
  lemma FilterIsPrint(text: string, fallback: string -> string) returns (parts: seq<Part>)
    ensures IsReply(parts) && ReplyText(parts) == text && Filtered(text, fallback) == Print(parts, false, fallback)
  {
    parts := EveryReply(text);
    hide IsReply, Print, Filtered;
    PrintsParts(parts, fallback);
  }

  // ---- A block, and a fence, between text and the rest ----

  lemma {:induction false} ReadLines(shown: Shown, lines: seq<string>, fallback: string -> string)
    requires forall k :: 0 <= k < |lines| ==> IsPart(Line(lines[k]))
    ensures Read(Between(shown), Unlines(lines), fallback) == Between(Emit(shown, Unlines(lines)))
  {
    if lines != [] {
      var front, last := lines[..|lines| - 1], lines[|lines| - 1];
      ReadLines(shown, front, fallback);
      assert IsPart(Line(last));
      ReadAppend(Between(shown), Unlines(front), last + "\n", fallback);
      ReadText(Emit(shown, Unlines(front)), last, fallback);
      EmitTwice(shown, Unlines(front), last + "\n");
    }
  }

  /** The newline that is owed comes with the first thing shown. */
  lemma OwedNewline(parts: seq<Part>, fallback: string -> string)
    requires parts != [] && PartShown(parts[0], fallback) != ""
    ensures Print(parts, true, fallback) == "\n" + Print(parts, false, fallback)
  {
    hide PartShown;
    var shown := PartShown(parts[0], fallback);
    var rest := Print(parts[1..], parts[0].Block?, fallback);
    assert "\n" + shown + rest == "\n" + ("" + shown + rest);
  }

  /** What follows a part that was read between two others. */
  lemma ReadAround(lines: seq<string>, part: Part, rest: string, parts: seq<Part>, fallback: string -> string)
    requires forall k :: 0 <= k < |lines| ==> IsPart(Line(lines[k]))
    requires IsPart(part) && !IsLast(part) && IsReply(parts) && ReplyText(parts) == rest
    ensures Filtered(Unlines(lines) + PartText(part) + rest, fallback)
              == Unlines(lines) + PartShown(part, fallback) + Print(parts, part.Block?, fallback)
  {
    var none, text, shown := Shown("", false), Unlines(lines), PartShown(part, fallback);
    ReadLines(none, lines, fallback);
    ReadAppend(Between(none), text, PartText(part), fallback);
    ReadPart(Emit(none, text), part, fallback);
    EmitTwice(none, text, shown);
    ReadAppend(Between(none), text + PartText(part), rest, fallback);
    hide Read, Printed, IsPart, IsReply, PartText, PartShown, Unlines, Print;
    var after := Emit(none, text + shown);
    assert after.out == text + shown && !after.owed;
    ReadReply(if part.Block? then after.(owed := true) else after, parts, fallback);
  }

  /**
   * An a2ui block after lines that open nothing: its fallback in its place, and a newline before the
   * rest, when the rest does not itself start with a block; with an empty fallback only the newline.
   */
  lemma BlockIsReplaced(lines: seq<string>, f: Fenced, rest: string, fallback: string -> string)
    requires forall k :: 0 <= k < |lines| ==> IsPart(Line(lines[k]))
    requires IsPart(Block(f)) && !StartsWithBlock(rest)
    ensures var block := Source(f) + "\n";
            Filtered(Unlines(lines) + block + rest, fallback)
              == Unlines(lines) + TrimNewlines(fallback(block)) + if rest == "" then "" else "\n" + Filtered(rest, fallback)
  {
    var parts := EveryReply(rest);
    assert PartShown(Block(f), fallback) == TrimNewlines(fallback(Source(f) + "\n"));
    assert PartText(Block(f)) == Source(f) + "\n" && !IsLast(Block(f));
    RestIsShown(rest, parts, fallback);
    hide *;
    ReadAround(lines, Block(f), rest, parts, fallback);
  }

  lemma RestIsShown(rest: string, parts: seq<Part>, fallback: string -> string)
    requires IsReply(parts) && ReplyText(parts) == rest && (rest == "" ==> parts == [])
    requires rest != "" ==> parts != [] && PartText(parts[0]) != "" && !parts[0].Block? && !parts[0].LastBlock?
    ensures Print(parts, true, fallback) == if rest == "" then "" else "\n" + Filtered(rest, fallback)
  {
    PrintsParts(parts, fallback);
    if rest != "" {
      assert PartShown(parts[0], fallback) == PartText(parts[0]);
      hide *;
      OwedNewline(parts, fallback);
    }
  }

  /** Fenced code stands as it is, and what follows it is read as if it came first. */
  lemma CodeIsVerbatim(lines: seq<string>, f: Fenced, rest: string, fallback: string -> string)
    requires forall k :: 0 <= k < |lines| ==> IsPart(Line(lines[k]))
    requires IsPart(CodeFence(f))
    ensures var code := Source(f) + "\n";
            Filtered(Unlines(lines) + code + rest, fallback) == Unlines(lines) + code + Filtered(rest, fallback)
  {
    var parts := EveryReply(rest);
    hide IsPart, StartsWithBlock, Filtered, IsReply, TrimNewlines;
    ReadAround(lines, CodeFence(f), rest, parts, fallback);
    PrintsParts(parts, fallback);
  }
}
