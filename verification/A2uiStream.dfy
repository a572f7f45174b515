/**
 * `A2uiStreamFilter`: prints the a2ui blocks of a streamed reply as their text fallback
 * (packages/cli/src/a2ui-stream.ts). What it prints must not depend on how the reply was cut.
 */
module A2uiStream {
  import opened Text

  // ---- The four line patterns ----

  /** An open fence: its character and run length, which a closing line must match or exceed. */
  datatype Fence = Fence(mark: char, size: nat)

  /** How many characters at the start of `s` are `c`. */
  function Count(s: string, c: char): (n: nat)
    ensures n <= |s| && (n < |s| ==> s[n] != c) && forall k :: 0 <= k < n ==> s[k] == c
  {
    if s == "" || s[0] != c then 0 else 1 + Count(s[1..], c)
  }

  predicate IsBlank(c: char) {
    c == ' ' || c == '\t'
  }

  predicate AllBlank(s: string) {
    forall k :: 0 <= k < |s| ==> IsBlank(s[k])
  }

  /** How many characters at the start of `s` are blanks. */
  function Blanks(s: string): (n: nat)
    ensures n <= |s| && AllBlank(s[..n]) && (n < |s| ==> !IsBlank(s[n]))
  {
    if s == "" || !IsBlank(s[0]) then 0
    else
      var n := Blanks(s[1..]);
      assert forall k :: 0 < k < n + 1 ==> s[k] == s[1..][..n][k - 1];
      n + 1
  }

  /** What `.` does not match. */
  predicate HasLineEnd(s: string) {
    exists k :: 0 <= k < |s| && s[k] in {'\n', '\r', '\U{2028}', '\U{2029}'}
  }

  /** Up to three spaces, a run of at least `least` backticks or tildes, and the rest. */
  predicate HasRun(s: string, least: nat) {
    var i := Count(s, ' ');
    && i <= 3 && i < |s| && s[i] in {'`', '~'} && Count(s[i..], s[i]) >= least
  }

  function RunFence(s: string): Fence
    requires HasRun(s, 1)
  {
    var i := Count(s, ' ');
    Fence(s[i], Count(s[i..], s[i]))
  }

  function AfterRun(s: string): string
    requires HasRun(s, 1)
  {
    var i := Count(s, ' ');
    s[i + Count(s[i..], s[i])..]
  }

  /** `fenceOpenedBy` finds a fence: a backtick run with a backtick after it is inline code. */
  predicate OpensFence(line: string) {
    && HasRun(line, 3) && !HasLineEnd(AfterRun(line))
    && (RunFence(line).mark == '`' ==> '`' !in AfterRun(line))
  }

  predicate A2uiInfo(info: string) {
    var word := info[Blanks(info)..];
    "a2ui" <= word && AllBlank(word[4..])
  }

  predicate OpensA2ui(line: string) {
    OpensFence(line) && A2uiInfo(AfterRun(line))
  }

  predicate Closes(line: string, fence: Fence) {
    HasRun(line, 3) && AllBlank(AfterRun(line)) && RunFence(line).mark == fence.mark && RunFence(line).size >= fence.size
  }

  predicate InfoPrefix(info: string) {
    var word := info[Blanks(info)..];
    word <= "a2ui" || ("a2ui" <= word && AllBlank(word[4..]))
  }

  /** The partial lines that are held back. */
  predicate Held(s: string) {
    var i := Count(s, ' ');
    && i <= 3
    && (i == |s| || (HasRun(s, 1) && (AfterRun(s) == "" || (HasRun(s, 3) && InfoPrefix(AfterRun(s))))))
  }

  // ---- A partial line is held exactly while it may still become an a2ui opener ----

  lemma {:induction false} CountPrefix(s: string, p: string, c: char)
    requires p <= s
    ensures Count(p, c) == if Count(s, c) <= |p| then Count(s, c) else |p|
    decreases |s|
  {
    if p != "" && p[0] == c {
      CountPrefix(s[1..], p[1..], c);
    }
  }

  lemma {:induction false} BlanksPrefix(s: string, p: string)
    requires p <= s
    ensures Blanks(p) == if Blanks(s) <= |p| then Blanks(s) else |p|
    decreases |s|
  {
    if p != "" && IsBlank(p[0]) {
      BlanksPrefix(s[1..], p[1..]);
    }
  }

  lemma InfoPrefixHolds(info: string, p: string)
    requires A2uiInfo(info) && p <= info
    ensures InfoPrefix(p)
  {
    BlanksPrefix(info, p);
    var b := Blanks(info);
    if b < |p| {
      assert p[b..] <= info[b..];
    }
  }

  lemma RunPrefix(s: string, p: string)
    requires HasRun(s, 1) && p <= s && Count(s, ' ') < |p|
    ensures HasRun(p, 1) && Count(p, ' ') == Count(s, ' ')
    ensures RunFence(p).mark == RunFence(s).mark
    ensures var i := Count(s, ' ');
            if RunFence(s).size <= |p| - i then RunFence(p).size == RunFence(s).size && AfterRun(p) <= AfterRun(s)
            else AfterRun(p) == ""
  {
    var i := Count(s, ' ');
    CountPrefix(s, p, ' ');
    assert p[i..] <= s[i..];
    CountPrefix(s[i..], p[i..], s[i]);
  }

  /** The key to chunking: each prefix of an opener line is held. */
  lemma OpenerPrefixHeld(line: string, p: string)
    requires OpensA2ui(line) && p <= line
    ensures Held(p)
  {
    var i := Count(line, ' ');
    CountPrefix(line, p, ' ');
    if i < |p| {
      RunPrefix(line, p);
      if RunFence(line).size <= |p| - i {
        InfoPrefixHolds(AfterRun(line), AfterRun(p));
      }
    }
  }

  lemma {:induction false} CountIs(s: string, c: char, n: nat)
    requires n <= |s| && (n < |s| ==> s[n] != c) && forall k :: 0 <= k < n ==> s[k] == c
    ensures Count(s, c) == n
  {
    if n > 0 {
      CountIs(s[1..], c, n - 1);
    }
  }

  lemma {:induction false} BlanksIs(s: string, n: nat)
    requires n <= |s| && (n < |s| ==> !IsBlank(s[n])) && AllBlank(s[..n])
    ensures Blanks(s) == n
  {
    if n > 0 {
      assert IsBlank(s[..n][0]);
      assert s[1..][..n - 1] == s[..n][1..];
      BlanksIs(s[1..], n - 1);
    }
  }

  /** A run of `n` characters `c`. */
  function Fill(c: char, n: nat): string {
    seq(n, _ => c)
  }

  /** Three spaces at most, then a run. */
  lemma RunShape(i: nat, c: char, n: nat, rest: string)
    requires i <= 3 && c in {'`', '~'} && n >= 1 && (rest != "" ==> rest[0] != c)
    ensures var line := Fill(' ', i) + (Fill(c, n) + rest);
            HasRun(line, n) && RunFence(line) == Fence(c, n) && AfterRun(line) == rest
  {
    var line := Fill(' ', i) + (Fill(c, n) + rest);
    CountIs(line, ' ', i);
    assert line[i..] == Fill(c, n) + rest;
    CountIs(line[i..], c, n);
    assert line[i + n..] == rest;
  }

  lemma InfoShape(lead: string, tail: string)
    requires AllBlank(lead) && AllBlank(tail)
    ensures var info := lead + "a2ui" + tail;
            A2uiInfo(info) && !HasLineEnd(info) && '`' !in info && info[0] !in {'`', '~'}
  {
    var info := lead + "a2ui" + tail;
    assert info[..|lead|] == lead;
    BlanksIs(info, |lead|);
    assert info[|lead|..] == "a2ui" + tail;
    assert forall k :: 0 <= k < |info| ==> IsBlank(info[k]) || info[k] in ['a', '2', 'u', 'i'];
  }

  lemma OpenerShape(i: nat, c: char, n: nat, lead: string, tail: string, line: string)
    requires i <= 3 && c in {'`', '~'} && n >= 3 && AllBlank(lead) && AllBlank(tail)
    requires line == Fill(' ', i) + (Fill(c, n) + (lead + "a2ui" + tail))
    ensures OpensA2ui(line)
  {
    hide A2uiInfo, HasLineEnd, AllBlank;
    InfoShape(lead, tail);
    RunShape(i, c, n, lead + "a2ui" + tail);
  }

  /** Held text taken apart: the spaces, the run, and what follows it. */
  lemma HeldShape(p: string)
    requires HasRun(p, 1)
    ensures p == Fill(' ', Count(p, ' ')) + (Fill(RunFence(p).mark, RunFence(p).size) + AfterRun(p))
  {
  }

  lemma ShortRunCanOpen(i: nat, c: char, n: nat, p: string) returns (more: string)
    requires i <= 3 && c in {'`', '~'} && p == Fill(' ', i) + Fill(c, n)
    ensures OpensA2ui(p + more)
  {
    var m := if n >= 3 then 0 else 3 - n;
    more := Fill(c, m) + "a2ui";
    assert Fill(c, n + m) == Fill(c, n) + Fill(c, m);
    assert p + more == Fill(' ', i) + (Fill(c, n + m) + ("" + "a2ui" + ""));
    OpenerShape(i, c, n + m, "", "", p + more);
  }

  /** The rest of an info string that has begun. */
  lemma WordCompletes(word: string) returns (more: string, tail: string)
    requires word <= "a2ui" || ("a2ui" <= word && AllBlank(word[4..]))
    ensures word + more == "a2ui" + tail && AllBlank(tail)
  {
    if word <= "a2ui" {
      more, tail := "a2ui"[|word|..], "";
    } else {
      more, tail := "", word[4..];
    }
  }

  lemma InfoCompletes(info: string) returns (more: string, lead: string, tail: string)
    requires InfoPrefix(info)
    ensures info + more == lead + "a2ui" + tail && AllBlank(lead) && AllBlank(tail)
  {
    hide AllBlank;
    lead := info[..Blanks(info)];
    var word := info[Blanks(info)..];
    more, tail := WordCompletes(word);
    assert info == lead + word;
    Assoc(lead, word, more);
    Assoc(lead, "a2ui", tail);
  }

  lemma InfoCanOpen(i: nat, c: char, n: nat, info: string, p: string) returns (more: string)
    requires i <= 3 && c in {'`', '~'} && n >= 3 && p == Fill(' ', i) + (Fill(c, n) + info)
    requires InfoPrefix(info)
    ensures OpensA2ui(p + more)
  {
    hide Blanks, InfoPrefix, AllBlank, OpensA2ui, Fill;
    var lead, tail;
    more, lead, tail := InfoCompletes(info);
    assert p + more == Fill(' ', i) + (Fill(c, n) + (info + more));
    OpenerShape(i, c, n, lead, tail, p + more);
  }

  /** Nothing is held longer than it must be: held text can still become an opener. */
  lemma HeldCanOpen(p: string) returns (more: string)
    requires Held(p)
    ensures OpensA2ui(p + more)
  {
    var i := Count(p, ' ');
    if i == |p| {
      assert p == Fill(' ', i) + Fill('`', 0);
      more := ShortRunCanOpen(i, '`', 0, p);
    } else {
      HeldShape(p);
      var c, n, info := RunFence(p).mark, RunFence(p).size, AfterRun(p);
      if info == "" {
        assert p == Fill(' ', i) + Fill(c, n);
        more := ShortRunCanOpen(i, c, n, p);
      } else {
        more := InfoCanOpen(i, c, n, info, p);
      }
    }
  }

  /** Held back exactly while it may still become an a2ui opener. */
  lemma HeldExactly(p: string)
    ensures Held(p) <==> exists more :: OpensA2ui(p + more)
  {
    if Held(p) {
      var more := HeldCanOpen(p);
    }
    forall more | OpensA2ui(p + more)
      ensures Held(p)
    {
      OpenerPrefixHeld(p + more, p);
    }
  }

  // ---- The reference: the reply line by line ----

  datatype Mode = Plain | Code | A2ui

  /** A reply read so far: the line under way, a block under way, what is printed, a newline owed. */
  datatype Reply = Reply(mode: Mode, fence: Fence, line: string, block: string, shown: Shown)

  datatype Shown = Shown(out: string, owed: bool)

  const NO_FENCE := Fence('`', 0)
  const START := Reply(Plain, NO_FENCE, "", "", Shown("", false))

  /** A newline is owed to whatever follows a block. */
  function Emit(s: Shown, text: string): Shown {
    if text == "" then s else Shown(s.out + (if s.owed then "\n" else "") + text, false)
  }

  function TrimNewlines(s: string): string {
    if s != "" && s[|s| - 1] == '\n' then TrimNewlines(s[..|s| - 1]) else s
  }

  /** A line has ended; `r.line` is all of it but its LF. */
  function EndLine(r: Reply, fallback: string -> string): Reply {
    var whole, content := r.line + "\n", StripCr(r.line);
    match r.mode
    case A2ui =>
      var block := r.block + whole;
      if Closes(content, r.fence) then
        Reply(Plain, NO_FENCE, "", "", Emit(r.shown, TrimNewlines(fallback(block))).(owed := true))
      else Reply(A2ui, r.fence, "", block, r.shown)
    case Code =>
      Reply(if Closes(content, r.fence) then Plain else Code, if Closes(content, r.fence) then NO_FENCE else r.fence,
            "", r.block, Emit(r.shown, whole))
    case Plain =>
      if OpensA2ui(content) then Reply(A2ui, RunFence(content), "", whole, r.shown)
      else if OpensFence(content) then Reply(Code, RunFence(content), "", r.block, Emit(r.shown, whole))
      else Reply(Plain, r.fence, "", r.block, Emit(r.shown, whole))
  }

  function Read(r: Reply, text: string, fallback: string -> string): Reply {
    if text == "" then r
    else
      var before, c := Read(r, text[..|text| - 1], fallback), text[|text| - 1];
      if c == '\n' then EndLine(before, fallback) else before.(line := before.line + [c])
  }

  /** The reply as printed once it has ended. */
  function Printed(r: Reply, fallback: string -> string): string {
    (if r.mode == A2ui then Emit(r.shown, TrimNewlines(fallback(r.block + r.line))) else Emit(r.shown, r.line)).out
  }

  function Filtered(text: string, fallback: string -> string): string {
    Printed(Read(START, text, fallback), fallback)
  }

  lemma {:induction false} ReadAppend(r: Reply, a: string, b: string, fallback: string -> string)
    ensures Read(r, a + b, fallback) == Read(Read(r, a, fallback), b, fallback)
  {
    hide EndLine;
    if b == "" {
      assert a + b == a;
    } else {
      ReadAppend(r, a, b[..|b| - 1], fallback);
      assert (a + b)[..|a + b| - 1] == a + b[..|b| - 1];
    }
  }

  lemma {:induction false} ReadPlain(r: Reply, text: string, fallback: string -> string)
    requires '\n' !in text
    ensures Read(r, text, fallback) == r.(line := r.line + text)
  {
    if text != "" {
      var init := text[..|text| - 1];
      assert text == init + [text[|text| - 1]];
      ReadPlain(r, init, fallback);
    }
  }

  lemma ReadOn(text: string, piece: string, fallback: string -> string)
    requires '\n' !in piece
    ensures var r := Read(START, text, fallback); Read(START, text + piece, fallback) == r.(line := r.line + piece)
  {
    ReadAppend(START, text, piece, fallback);
    ReadPlain(Read(START, text, fallback), piece, fallback);
  }

  lemma ReadLine(r: Reply, text: string, fallback: string -> string)
    requires '\n' !in text
    ensures Read(r, text + "\n", fallback) == EndLine(r.(line := r.line + text), fallback)
  {
    assert (text + "\n")[..|text|] == text;
    ReadPlain(r, text, fallback);
  }

  lemma EmitTwice(s: Shown, a: string, b: string)
    ensures Emit(Emit(s, a), b) == Emit(s, a + b)
  {
    if a == "" {
      assert a + b == b;
    } else if b == "" {
      assert a + b == a;
    } else {
      assert s.out + (if s.owed then "\n" else "") + a + "" + b == s.out + (if s.owed then "\n" else "") + (a + b);
    }
  }

  /** Some prefix of the line was not held, so the line is no a2ui opener, however it ends. */
  ghost predicate RuledOut(line: string) {
    exists k :: 0 < k <= |line| && !Held(StripCr(line[..k]))
  }

  lemma RuledOutIsNoOpener(line: string)
    requires RuledOut(line)
    ensures !OpensA2ui(StripCr(line))
  {
    var k :| 0 < k <= |line| && !Held(StripCr(line[..k]));
    if OpensA2ui(StripCr(line)) {
      PrefixHeld(line, k);
      assert false;
    }
  }

  /** The CR of a CRLF aside, a prefix of an opener line is held. */
  lemma PrefixHeld(line: string, k: nat)
    requires OpensA2ui(StripCr(line)) && k <= |line|
    ensures Held(StripCr(line[..k]))
  {
    hide OpensA2ui, Held;
    var content, p := StripCr(line), line[..k];
    NoCrInOpener(content);
    if k == |line| {
      assert p == line;
    } else {
      assert p <= content && (p != "" ==> p[k - 1] in content);
    }
    OpenerPrefixHeld(content, StripCr(p));
  }

  lemma NoCrInOpener(line: string)
    requires OpensA2ui(line)
    ensures '\r' !in line
  {
    HeldShape(line);
    assert forall c :: c in line ==> c in Fill(' ', Count(line, ' ')) || c in Fill(RunFence(line).mark, RunFence(line).size) || c in AfterRun(line);
  }

  lemma RuledOutGrows(line: string, more: string)
    requires RuledOut(line)
    ensures RuledOut(line + more)
  {
    var k :| 0 < k <= |line| && !Held(StripCr(line[..k]));
    assert (line + more)[..k] == line[..k];
  }

  lemma LineGrows(line: string, piece: string, passed: nat)
    requires passed <= |line|
    ensures line + (piece + "\n") == (line + piece) + "\n"
    ensures (line + (piece + "\n"))[..passed] == line[..passed]
    ensures (line + piece)[..passed] == line[..passed]
  {
  }

  // ---- The filter ----

  class A2uiStreamFilter {
    var mode: Mode
    var fence: Fence
    var line: string
    var passed: nat
    var block: string
    var newlineOwed: bool
    var out: string

    const fallback: string -> string
    /** The reply so far, and what earlier calls released of it. */
    ghost var text: string
    ghost var released: string

    /** The fields against the reference's reading of the same text. */
    ghost predicate Tracks(r: Reply)
      reads this
    {
      && mode == r.mode && fence == r.fence && line == r.line && block == r.block
      && passed <= |line| && (mode == A2ui ==> passed == 0)
      && Shown(released + out, newlineOwed) == Emit(r.shown, line[..passed])
    }

    /** What is already on the screen can only belong to a line that is no opener. */
    ghost predicate Safe(soFar: string)
      reads this
    {
      mode == Plain && passed > 0 ==> RuledOut(soFar)
    }

    /** Only a partial line that may still open an a2ui block is withheld, and the block itself. */
    ghost predicate Prompt()
      reads this
    {
      && (mode == Code ==> passed == |line|)
      && (mode == Plain && passed < |line| ==> passed == 0 && Held(StripCr(line)))
    }

    ghost predicate Valid()
      reads this
    {
      Tracks(Read(START, text, fallback)) && Safe(line) && Prompt() && out == ""
    }

    constructor (fallback: string -> string)
      ensures Valid() && text == "" && released == "" && this.fallback == fallback
    {
      this.fallback := fallback;
      mode, fence, line, passed, block, newlineOwed, out := Plain, NO_FENCE, "", 0, "", false, "";
      text, released := "", "";
    }

    method EmitText(s: string)
      modifies `out, `newlineOwed
      ensures Shown(released + out, newlineOwed) == Emit(old(Shown(released + out, newlineOwed)), s)
    {
      if s == "" {
        return;
      }
      if newlineOwed {
        out := out + "\n";
        newlineOwed := false;
      }
      out := out + s;
    }

    method PassThrough(ghost r: Reply)
      requires Tracks(r) && mode != A2ui
      modifies `passed, `out, `newlineOwed
      ensures Tracks(r) && passed == |line|
    {
      EmitTwice(r.shown, line[..passed], line[passed..]);
      assert line[..passed] + line[passed..] == line == line[..|line|];
      EmitText(line[passed..]);
      passed := |line|;
    }

    method PartialLine(ghost r: Reply)
      requires Tracks(r) && line != ""
      requires Safe(line)
      modifies `passed, `out, `newlineOwed
      ensures Tracks(r) && Safe(line) && Prompt()
    {
      if mode == A2ui {
        return;
      }
      // A CRLF reply's carriage return arrives before its newline and must not rule an opener out.
      if mode == Plain && passed == 0 && Held(StripCr(line)) {
        return;
      }
      assert mode == Plain ==> RuledOut(line) by {
        assert line[..|line|] == line;
      }
      PassThrough(r);
    }

    /** `line` has got its LF; the reference has read all but that. */
    method CompleteLine(ghost r: Reply)
      requires line == r.line + "\n" && Tracks(r.(line := line)) && Safe(r.line)
      modifies this
      ensures Tracks(EndLine(r, fallback)) && line == "" && passed == 0
      ensures text == old(text) && released == old(released)
    {
      hide Held, A2uiInfo, Closes, RunFence, AfterRun, TrimNewlines, HasLineEnd;
      var content := StripCr(line[..|line| - 1]);
      assert line[..|line| - 1] == r.line && line[..0] == "";
      if mode == A2ui {
        block := block + line;
        if Closes(content, fence) {
          EmitText(TrimNewlines(fallback(block)));
          newlineOwed := true;
          block, mode, fence := "", Plain, NO_FENCE;
        }
      } else if mode == Code {
        PassThrough(r.(line := line));
        assert line[..|line|] == line;
        if Closes(content, fence) {
          mode, fence := Plain, NO_FENCE;
        }
      } else {
        if passed > 0 {
          RuledOutIsNoOpener(r.line);
        }
        if passed == 0 && OpensA2ui(content) {
          mode, fence, block := A2ui, RunFence(content), line;
        } else {
          PassThrough(r.(line := line));
          assert line[..|line|] == line;
          if OpensFence(content) {
            mode, fence := Code, RunFence(content);
          }
        }
      }
      line, passed := "", 0;
    }

    /** The end of a delta: part of a line. */
    method TakePart(piece: string)
      requires Tracks(Read(START, text, fallback)) && Safe(line) && piece != "" && '\n' !in piece
      modifies this
      ensures Tracks(Read(START, text, fallback)) && Safe(line) && Prompt() && line != ""
      ensures text == old(text) + piece && released == old(released)
    {
      hide Read, Held, RuledOut, Emit;
      ghost var r := Read(START, text, fallback);
      ReadOn(text, piece, fallback);
      if mode == Plain && passed > 0 {
        RuledOutGrows(line, piece);
      }
      LineGrows(line, piece, passed);
      line := line + piece;
      text := text + piece;
      PartialLine(r.(line := line));
    }

    /** The rest of a line, and its LF. */
    method TakeLine(piece: string)
      requires Tracks(Read(START, text, fallback)) && Safe(line) && '\n' !in piece
      modifies this
      ensures Tracks(Read(START, text, fallback)) && line == "" && passed == 0
      ensures text == old(text) + (piece + "\n") && released == old(released)
    {
      hide Read, Held, RuledOut, Emit, EndLine;
      ghost var r := Read(START, text, fallback);
      var whole := piece + "\n";
      LineGrows(line, piece, passed);
      if mode == Plain && passed > 0 {
        RuledOutGrows(line, piece);
      }
      line := line + whole;
      ghost var end := r.(line := r.line + piece);
      assert Tracks(end.(line := line));
      CompleteLine(end);
      ReadAppend(START, text, whole, fallback);
      ReadLine(r, piece, fallback);
      text := text + whole;
    }

    /** Takes one delta of the reply; returns what to print now. */
    method Push(delta: string) returns (shown: string)
      requires Valid()
      modifies this
      ensures Valid() && text == old(text) + delta && released == old(released) + shown
    {
      hide Read, Held, RuledOut, Emit;
      var rest := delta;
      while rest != ""
        invariant text + rest == old(text) + delta && released == old(released)
        invariant Tracks(Read(START, text, fallback)) && Safe(line)
        invariant rest == "" ==> Prompt()
        decreases |rest|
      {
        var nl := Find(rest, '\n');
        if nl == |rest| {
          assert rest[..nl] == rest;
          TakePart(rest);
          rest := "";
        } else {
          MoveAcross(text, rest, nl);
          assert text + rest[..nl] + "\n" == text + (rest[..nl] + "\n");
          TakeLine(rest[..nl]);
          rest := rest[nl + 1..];
        }
      }
      shown := out;
      released := released + out;
      out := "";
    }

    /** All that is still held: the block under way, or the rest of the line. */
    method EmitRest(ghost r: Reply)
      requires Tracks(r)
      modifies `out, `newlineOwed
      ensures released + out == Printed(r, fallback)
    {
      hide TrimNewlines;
      if mode == A2ui {
        assert line[..0] == "";
        EmitText(TrimNewlines(fallback(block + line)));
      } else {
        EmitTwice(r.shown, line[..passed], line[passed..]);
        assert line[..passed] + line[passed..] == line;
        EmitText(line[passed..]);
      }
    }

    /** The reply ended or was cut off: everything still held; then ready for the next reply. */
    method Flush() returns (shown: string)
      requires Valid()
      modifies this
      ensures old(released) + shown == Filtered(old(text), fallback)
      ensures Valid() && text == "" && released == ""
    {
      assert Read(START, "", fallback) == START;
      hide Read, Held, RuledOut, Printed;
      EmitRest(Read(START, text, fallback));
      shown := out;
      out := "";
      mode, fence, line, passed, block, newlineOwed := Plain, NO_FENCE, "", 0, "", false;
      text, released := "", "";
    }
  }

  /** A whole reply in deltas: what is printed is what the whole text prints, however it is cut. */
  method FilterReply(deltas: seq<string>, fallback: string -> string) returns (printed: string)
    ensures printed == Filtered(Concat(deltas), fallback)
  {
    var filter := new A2uiStreamFilter(fallback);
    printed := "";
    for i := 0 to |deltas|
      invariant filter.Valid() && filter.fallback == fallback
      invariant filter.text == Concat(deltas[..i]) && filter.released == printed
    {
      var shown := filter.Push(deltas[i]);
      printed := printed + shown;
      assert deltas[..i + 1][..i] == deltas[..i];
    }
    assert deltas[..|deltas|] == deltas;
    var shown := filter.Flush();
    printed := printed + shown;
  }
}
