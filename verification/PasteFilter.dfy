/**
 * `PasteFilter`: takes bracketed pastes out of the terminal's input (packages/cli/src/input.ts).
 * A marker may straddle chunks, so what could still be its beginning is held back.
 */
module PasteFilters {
  import opened Text

  const PASTE_START: string := "\U{1b}[200~"
  const PASTE_END: string := "\U{1b}[201~"

  predicate IsMarker(m: string) {
    m == PASTE_START || m == PASTE_END
  }

  lemma StandsShift(s: string, m: string, n: nat, k: nat)
    requires n <= |s|
    ensures Stands(s[n..], m, k) <==> Stands(s, m, n + k)
  {
    if k + |m| <= |s| - n {
      assert s[n..][k..k + |m|] == s[n + k..n + k + |m|];
    }
  }

  /** The first index of `m` in `s`, or `|s|` when there is none. */
  function IndexOf(s: string, m: string): (i: nat)
    requires m != ""
    ensures i <= |s| && (i < |s| ==> i + |m| <= |s| && Stands(s, m, i))
    ensures forall k :: 0 <= k < i ==> !Stands(s, m, k)
  {
    if s == "" || Stands(s, m, 0) then 0
    else
      var i := IndexOf(s[1..], m);
      assert forall k :: 0 <= k < 1 + i ==> !Stands(s, m, k) by {
        forall k | 0 < k < 1 + i
          ensures !Stands(s, m, k)
        {
          StandsShift(s, m, 1, k - 1);
        }
      }
      assert 1 + i < |s| ==> Stands(s, m, 1 + i) by {
        StandsShift(s, m, 1, i);
      }
      1 + i
  }

  /** `s` ends with the first `k` characters of the marker. */
  predicate EndsWith(s: string, m: string, k: nat) {
    k <= |s| && k <= |m| && s[|s| - k..] == m[..k]
  }

  /** How much of the end of `s` may be the beginning of a marker. */
  ghost predicate IsHold(s: string, m: string, k: nat) {
    && k < |m| && EndsWith(s, m, k)
    && forall j :: k < j < |m| ==> !EndsWith(s, m, j)
  }

  method SplitTrailingPartial(data: string, marker: string) returns (emit: string, hold: string)
    requires marker != ""
    ensures data == emit + hold && IsHold(data, marker, |hold|)
  {
    var max := if |marker| - 1 <= |data| then |marker| - 1 else |data|;
    var k := max;
    while k > 0
      invariant 0 <= k <= max
      invariant forall j :: k < j < |marker| ==> !EndsWith(data, marker, j)
    {
      if EndsWith(data, marker, k) {
        return data[..|data| - k], data[|data| - k..];
      }
      k := k - 1;
    }
    return data, "";
  }

  // ---- The whole input at once ----

  /** The pastes so far, each with what was typed before it; then what came since, and what is held. */
  datatype Input = Input(closed: seq<(string, string)>, typed: string, inPaste: bool, buffer: string, held: string)

  const START := Input([], "", false, "", "")

  function Marker(inPaste: bool): string {
    if inPaste then PASTE_END else PASTE_START
  }

  function Pass(p: Input, text: string): Input {
    if p.inPaste then p.(buffer := p.buffer + text, held := "") else p.(typed := p.typed + text, held := "")
  }

  /** At a marker: a paste begins, or ends and is delivered. */
  function Switch(p: Input): Input {
    if p.inPaste then Input(p.closed + [(p.typed, p.buffer)], "", false, "", "") else p.(inPaste := true, buffer := "")
  }

  function LongestHold(s: string, m: string, k: nat): (n: nat)
    requires k <= |s| && k <= |m|
    ensures n <= k && EndsWith(s, m, n) && forall j :: n < j <= k ==> !EndsWith(s, m, j)
  {
    if k == 0 || EndsWith(s, m, k) then k else LongestHold(s, m, k - 1)
  }

  function HoldOf(s: string, m: string): (n: nat)
    requires m != ""
    ensures n <= |s| && n < |m| && IsHold(s, m, n)
  {
    LongestHold(s, m, if |m| - 1 <= |s| then |m| - 1 else |s|)
  }

  /** All of `data` in one chunk. */
  function Process(p: Input, data: string): Input
    decreases |data|
  {
    var m := Marker(p.inPaste);
    var i := IndexOf(data, m);
    if i < |data| then Process(Switch(Pass(p, data[..i])), data[i + |m|..])
    else
      var cut := |data| - HoldOf(data, m);
      Pass(p, data[..cut]).(held := data[cut..])
  }

  function Whole(text: string): Input {
    Process(START, text)
  }

  // ---- Cutting the input anywhere ----

  lemma HoldUnique(s: string, m: string, j: nat, k: nat)
    requires IsHold(s, m, j) && IsHold(s, m, k)
    ensures j == k
  {
  }

  /** A marker that begins in `a` stands in it, or its beginning ends it. */
  lemma StandsOrBegins(a: string, b: string, m: string, i: nat)
    requires i < |a| && Stands(a + b, m, i)
    ensures Stands(a, m, i) || (|a| - i < |m| && EndsWith(a, m, |a| - i))
  {
    var s := a + b;
    if i + |m| <= |a| {
      assert a[i..i + |m|] == s[i..i + |m|];
    } else {
      assert a[i..] == s[i..|a|] == s[i..i + |m|][..|a| - i];
    }
  }

  /** No marker begins in the part of `a` that is let through, whatever follows. */
  lemma NoneBeforeHold(a: string, b: string, m: string, i: nat)
    requires m != "" && IndexOf(a, m) == |a| && i < |a| - HoldOf(a, m)
    ensures !Stands(a + b, m, i)
  {
    if Stands(a + b, m, i) {
      StandsOrBegins(a, b, m, i);
    }
  }

  lemma {:induction false} IndexIs(s: string, m: string, i: nat)
    requires m != "" && i < |s| && Stands(s, m, i) && forall k :: 0 <= k < i ==> !Stands(s, m, k)
    ensures IndexOf(s, m) == i
  {
    var j := IndexOf(s, m);
    assert j <= i;
    assert j < |s| ==> Stands(s, m, j);
  }

  /** The search after the held tail finds what the search through all of it does. */
  lemma SearchAppend(a: string, b: string, m: string)
    requires m != "" && IndexOf(a, m) == |a|
    ensures var cut := |a| - HoldOf(a, m);
            IndexOf(a + b, m) == cut + IndexOf(a[cut..] + b, m)
  {
    var s, cut := a + b, |a| - HoldOf(a, m);
    var rest := a[cut..] + b;
    assert rest == s[cut..];
    var i, j := IndexOf(s, m), IndexOf(rest, m);
    forall k | 0 <= k < cut + j
      ensures !Stands(s, m, k)
    {
      if k < cut {
        NoneBeforeHold(a, b, m, k);
      } else {
        StandsShift(s, m, cut, k - cut);
      }
    }
    StandsShift(s, m, cut, j);
  }

  lemma EndsAppend(a: string, b: string, m: string, cut: nat, k: nat)
    requires cut <= |a| && k < |m| && IsHold(a, m, |a| - cut)
    ensures EndsWith(a + b, m, k) <==> EndsWith(a[cut..] + b, m, k)
  {
    var s, rest := a + b, a[cut..] + b;
    assert rest == s[cut..];
    if k <= |rest| {
      assert s[|s| - k..] == rest[|rest| - k..];
    } else {
      EndsBefore(a, b, m, k);
    }
  }

  /** A marker's beginning that ends `a + b` and starts in `a` is begun by one that ends `a`. */
  lemma EndsBefore(a: string, b: string, m: string, k: nat)
    requires |b| <= k
    ensures EndsWith(a + b, m, k) ==> EndsWith(a, m, k - |b|)
  {
    if EndsWith(a + b, m, k) {
      var n := k - |b|;
      assert a[|a| - n..] == (a + b)[|a + b| - k..][..n] == m[..n];
    }
  }

  /** Nor does the end of it hold more. */
  lemma HoldAppend(a: string, b: string, m: string)
    requires m != "" && IndexOf(a, m) == |a|
    ensures var cut := |a| - HoldOf(a, m);
            HoldOf(a + b, m) == HoldOf(a[cut..] + b, m)
  {
    hide EndsWith, HoldOf;
    var cut := |a| - HoldOf(a, m);
    forall k | 0 <= k < |m|
      ensures EndsWith(a + b, m, k) <==> EndsWith(a[cut..] + b, m, k)
    {
      EndsAppend(a, b, m, cut, k);
    }
    HoldUnique(a + b, m, HoldOf(a + b, m), HoldOf(a[cut..] + b, m));
  }

  lemma FoundAppend(a: string, b: string, m: string)
    requires m != "" && IndexOf(a, m) < |a|
    ensures IndexOf(a + b, m) == IndexOf(a, m)
  {
    var i := IndexOf(a, m);
    forall k | 0 <= k <= i
      ensures Stands(a + b, m, k) == Stands(a, m, k)
    {
      assert i + |m| <= |a|;
      assert (a + b)[k..k + |m|] == a[k..k + |m|];
    }
    IndexIs(a + b, m, i);
  }

  lemma HeldIgnored(p: Input, held: string, data: string)
    ensures Process(p.(held := held), data) == Process(p, data)
  {
    hide IndexOf, HoldOf, Stands, IsHold;
  }

  /** The next chunk, after what was held, leads where both chunks at once do. */
  lemma {:induction false} ProcessAppend(p: Input, a: string, b: string)
    ensures Process(p, a + b) == Process(Process(p, a), Process(p, a).held + b)
    decreases |a|
  {
    hide IndexOf, HoldOf, Stands, IsHold, Pass, Switch;
    var m, i := Marker(p.inPaste), IndexOf(a, Marker(p.inPaste));
    if i < |a| {
      FoundAppend(a, b, m);
      assert (a + b)[..i] == a[..i] && (a + b)[i + |m|..] == a[i + |m|..] + b;
      ProcessAppend(Switch(Pass(p, a[..i])), a[i + |m|..], b);
    } else {
      var cut := |a| - HoldOf(a, m);
      SearchAppend(a, b, m);
      HoldAppend(a, b, m);
      var rest := a[cut..] + b;
      assert a + b == a[..cut] + rest;
      PassTwice(p, a[..cut], rest);
      HeldIgnored(Pass(p, a[..cut]), a[cut..], rest);
    }
  }

  lemma PassPass(p: Input, a: string, b: string)
    ensures Pass(Pass(p, a), b) == Pass(p, a + b)
  {
    Assoc(if p.inPaste then p.buffer else p.typed, a, b);
  }

  /** A marker in the data, between `head` and `tail`. */
  lemma ProcessFound(p: Input, data: string, head: string, tail: string)
    requires var m := Marker(p.inPaste); data == head + m + tail && IndexOf(data, m) == |head|
    ensures Process(p, data) == Process(Switch(Pass(p, head)), tail)
  {
    hide IndexOf, Stands, IsHold, Pass, Switch;
    var m := Marker(p.inPaste);
    assert data[..|head|] == head && data[|head| + |m|..] == tail;
  }

  /** No marker in the data, of which `hold` may be the beginning of one. */
  lemma ProcessHeld(p: Input, data: string, head: string, hold: string)
    requires var m := Marker(p.inPaste);
             data == head + hold && IndexOf(data, m) == |data| && |hold| == HoldOf(data, m)
    ensures Process(p, data) == Pass(p, head).(held := hold)
  {
    hide IndexOf, Stands, IsHold, Pass, Switch;
    assert data[..|head|] == head && data[|head|..] == hold;
  }

  lemma FoundTwice(p: Input, front: string, rest: string, head: string, tail: string)
    requires var m := Marker(p.inPaste);
             && rest == head + m + tail && IndexOf(rest, m) == |head|
             && IndexOf(front + rest, m) == |front| + |head|
    ensures Process(p, front + rest) == Process(Pass(p, front), rest)
  {
    var q := Pass(p, front);
    assert Marker(q.inPaste) == Marker(p.inPaste);
    assert front + rest == (front + head) + Marker(p.inPaste) + tail;
    hide IndexOf, HoldOf, Stands, IsHold, Pass, Switch, Process, Marker;
    ProcessFound(p, front + rest, front + head, tail);
    ProcessFound(q, rest, head, tail);
    PassPass(p, front, head);
  }

  lemma HeldTwice(p: Input, front: string, rest: string, head: string, hold: string)
    requires var m := Marker(p.inPaste);
             && rest == head + hold && IndexOf(rest, m) == |rest| && |hold| == HoldOf(rest, m)
             && IndexOf(front + rest, m) == |front + rest| && |hold| == HoldOf(front + rest, m)
    ensures Process(p, front + rest) == Process(Pass(p, front), rest)
  {
    var q := Pass(p, front);
    assert Marker(q.inPaste) == Marker(p.inPaste);
    hide IndexOf, HoldOf, Stands, IsHold, Pass, Switch, Process, Marker;
    Assoc(front, head, hold);
    ProcessHeld(p, front + rest, front + head, hold);
    ProcessHeld(q, rest, head, hold);
    PassPass(p, front, head);
  }

  /** Text let through ahead of the rest. */
  lemma PassTwice(p: Input, front: string, rest: string)
    requires var m := Marker(p.inPaste);
             && IndexOf(front + rest, m) == |front| + IndexOf(rest, m)
             && HoldOf(front + rest, m) == HoldOf(rest, m)
    ensures Process(p, front + rest) == Process(Pass(p, front), rest)
  {
    hide IndexOf, Stands, HoldOf, IsHold, Pass, Switch, Process;
    var m := Marker(p.inPaste);
    var i, cut := IndexOf(rest, m), |rest| - HoldOf(rest, m);
    if i < |rest| {
      CutAtMarker(rest, m);
      FoundTwice(p, front, rest, rest[..i], rest[i + |m|..]);
    } else {
      assert rest == rest[..cut] + rest[cut..];
      HeldTwice(p, front, rest, rest[..cut], rest[cut..]);
    }
  }

  lemma CutAtMarker(s: string, m: string)
    requires m != "" && IndexOf(s, m) < |s|
    ensures var i := IndexOf(s, m); s == s[..i] + m + s[i + |m|..]
  {
    var i := IndexOf(s, m);
    assert s[i..i + |m|] == m;
    hide *;
    CutInThree(s, i, i + |m|);
  }

  lemma CutInThree(s: string, i: nat, j: nat)
    requires i <= j <= |s|
    ensures s == s[..i] + s[i..j] + s[j..]
  {
  }

  // ---- What the one-chunk reading means ----

  /** The pastes with their markers put back. */
  function Wrapped(closed: seq<(string, string)>): string {
    if closed == [] then ""
    else
      var n := |closed| - 1;
      Wrapped(closed[..n]) + closed[n].0 + PASTE_START + closed[n].1 + PASTE_END
  }

  function Rebuilt(p: Input): string {
    Wrapped(p.closed) + p.typed + (if p.inPaste then PASTE_START else "") + p.buffer + p.held
  }

  ghost predicate Fresh(p: Input) {
    p.held == "" && (if p.inPaste then p.buffer == "" else p.typed == "" && p.buffer == "")
  }

  lemma RebuiltPass(p: Input, text: string)
    requires p.held == "" && (!p.inPaste ==> p.buffer == "")
    ensures Rebuilt(Pass(p, text)) == Rebuilt(p) + text
  {
    var front := Wrapped(p.closed) + p.typed;
    if p.inPaste {
      assert front + PASTE_START + (p.buffer + text) + "" == (front + PASTE_START + p.buffer + "") + text;
    } else {
      assert Wrapped(p.closed) + (p.typed + text) + "" + "" + "" == (front + "" + "" + "") + text;
    }
  }

  lemma RebuiltSwitch(p: Input)
    requires p.held == "" && (!p.inPaste ==> p.buffer == "")
    ensures Rebuilt(Switch(p)) == Rebuilt(p) + Marker(p.inPaste)
  {
    if p.inPaste {
      var closed := p.closed + [(p.typed, p.buffer)];
      assert closed[..|closed| - 1] == p.closed;
      assert Wrapped(closed) == Wrapped(p.closed) + p.typed + PASTE_START + p.buffer + PASTE_END;
    }
  }

  /** Nothing is lost: putting the markers back and adding what is held rebuilds the input. */
  lemma {:induction false} NothingLost(p: Input, data: string)
    requires p.held == "" && (!p.inPaste ==> p.buffer == "")
    ensures Rebuilt(Process(p, data)) == Rebuilt(p) + data
    decreases |data|
  {
    hide IndexOf, Stands, IsHold, HoldOf, Rebuilt, Process;
    var m := Marker(p.inPaste);
    var i := IndexOf(data, m);
    if i < |data| {
      var head, tail := data[..i], data[i + |m|..];
      CutAtMarker(data, m);
      ProcessFound(p, data, head, tail);
      RebuiltPass(p, head);
      RebuiltSwitch(Pass(p, head));
      NothingLost(Switch(Pass(p, head)), tail);
    } else {
      var cut := |data| - HoldOf(data, m);
      var head, hold := data[..cut], data[cut..];
      assert data == head + hold;
      ProcessHeld(p, data, head, hold);
      RebuiltPass(p, head);
      RebuiltHeld(Pass(p, head), hold);
      Assoc(Rebuilt(p), head, hold);
    }
  }

  lemma RebuiltHeld(p: Input, held: string)
    requires p.held == ""
    ensures Rebuilt(p.(held := held)) == Rebuilt(p) + held
  {
    var front := Wrapped(p.closed) + p.typed + (if p.inPaste then PASTE_START else "") + p.buffer;
    assert front + "" == front;
  }

  lemma WholeRebuilds(text: string)
    ensures Rebuilt(Whole(text)) == text
  {
    NothingLost(START, text);
    assert Rebuilt(START) == "";
  }

  /** No marker is left in what was delivered: no start in a typed segment, no end in a paste. */
  ghost predicate Clean(closed: seq<(string, string)>) {
    forall k :: 0 <= k < |closed| ==>
      IndexOf(closed[k].0, PASTE_START) == |closed[k].0| && IndexOf(closed[k].1, PASTE_END) == |closed[k].1|
  }

  lemma NoneInFront(s: string, m: string, n: nat)
    requires m != "" && n <= IndexOf(s, m)
    ensures IndexOf(s[..n], m) == n
  {
    var k := IndexOf(s[..n], m);
    if k < n {
      assert s[..n][k..k + |m|] == s[k..k + |m|];
      assert Stands(s, m, k);
      assert false;
    }
  }

  /** What a one-chunk reading delivers is clean, and it holds back five characters at most. */
  lemma {:induction false} DeliversClean(p: Input, data: string)
    requires Clean(p.closed) && p.held == ""
    requires if p.inPaste then p.buffer == "" && IndexOf(p.typed, PASTE_START) == |p.typed| else p.typed == "" && p.buffer == ""
    ensures var q := Process(p, data);
            && Clean(q.closed) && IndexOf(q.typed, PASTE_START) == |q.typed|
            && (q.inPaste ==> IndexOf(q.buffer, PASTE_END) == |q.buffer|)
            && |q.held| <= 5 && q.held == Marker(q.inPaste)[..|q.held|]
    decreases |data|
  {
    hide IndexOf, Stands, IsHold;
    var m := Marker(p.inPaste);
    var i := IndexOf(data, m);
    if i < |data| {
      NoneInFront(data, m, i);
      assert "" + data[..i] == data[..i];
      DeliversClean(Switch(Pass(p, data[..i])), data[i + |m|..]);
    } else {
      var cut := |data| - HoldOf(data, m);
      NoneInFront(data, m, cut);
      assert "" + data[..cut] == data[..cut];
      HoldIsBeginning(data, m);
    }
  }

  lemma HoldIsBeginning(data: string, m: string)
    requires m != ""
    ensures var k := HoldOf(data, m); data[|data| - k..] == m[..k]
  {
  }

  lemma WrappedOne(closed: seq<(string, string)>, typed: string, pasted: string)
    ensures Wrapped(closed + [(typed, pasted)]) == Wrapped(closed) + (typed + PASTE_START + pasted + PASTE_END)
  {
    assert (closed + [(typed, pasted)])[..|closed|] == closed;
    var front := Wrapped(closed);
    assert front + typed + PASTE_START + pasted + PASTE_END == front + (typed + PASTE_START + pasted + PASTE_END);
  }

  /** Exactly what a terminal wraps is delivered, segment by segment. */
  lemma {:induction false} DeliversWhatWasWrapped(closed: seq<(string, string)>)
    requires Clean(closed)
    ensures Whole(Wrapped(closed)) == Input(closed, "", false, "", "")
  {
    if closed == [] {
      ProcessNothing(START);
    } else {
      var n := |closed| - 1;
      var init, typed, pasted := closed[..n], closed[n].0, closed[n].1;
      assert closed == init + [(typed, pasted)] && Clean(init);
      DeliversWhatWasWrapped(init);
      hide Process, IndexOf, Clean, Wrapped;
      var last := typed + PASTE_START + pasted + PASTE_END;
      WrappedOne(init, typed, pasted);
      ProcessAppend(START, Wrapped(init), last);
      assert "" + last == last;
      OnePaste(init, typed, pasted);
    }
  }

  /** The first character of a marker occurs in it only once, so markers do not overlap. */
  lemma FirstAfterText(text: string, m: string, rest: string)
    requires IsMarker(m) && IndexOf(text, m) == |text|
    ensures IndexOf(text + m + rest, m) == |text|
  {
    var s := text + m + rest;
    assert Stands(s, m, |text|);
    forall k | 0 <= k < |text|
      ensures !Stands(s, m, k)
    {
      assert s == text + (m + rest);
      if Stands(text + (m + rest), m, k) {
        StandsOrBegins(text, m + rest, m, k);
        NoOverlap(text, m, rest, k);
      }
    }
    IndexIs(s, m, |text|);
  }

  lemma NoOverlap(text: string, m: string, rest: string, k: nat)
    requires IsMarker(m) && k < |text| < k + |m|
    ensures !Stands(text + (m + rest), m, k)
  {
    var s := text + (m + rest);
    if k + |m| <= |s| {
      assert s[k..k + |m|][|text| - k] == s[|text|] == m[0];
      assert m[|text| - k] != m[0];
    }
  }

  lemma OnePaste(done: seq<(string, string)>, typed: string, pasted: string)
    requires IndexOf(typed, PASTE_START) == |typed| && IndexOf(pasted, PASTE_END) == |pasted|
    ensures Process(Input(done, "", false, "", ""), typed + PASTE_START + pasted + PASTE_END)
         == Input(done + [(typed, pasted)], "", false, "", "")
  {
    hide IndexOf, Stands, IsHold, HoldOf, Process;
    var p := Input(done, "", false, "", "");
    var rest := pasted + PASTE_END;
    assert typed + PASTE_START + pasted + PASTE_END == typed + PASTE_START + rest;
    FirstAfterText(typed, PASTE_START, rest);
    ProcessFound(p, typed + PASTE_START + rest, typed, rest);
    var q := Input(done, typed, true, "", "");
    assert "" + typed == typed && "" + pasted == pasted;
    assert Switch(Pass(p, typed)) == q;
    assert rest == pasted + PASTE_END + "";
    FirstAfterText(pasted, PASTE_END, "");
    ProcessFound(q, rest, pasted, "");
    ProcessNothing(Switch(Pass(q, pasted)));
  }

  // ---- The filter ----

  /** What one chunk makes the filter do, in order. */
  datatype Output = Typed(text: string) | Pasted(text: string)

  /** The outputs so far: each paste with what was typed before it, and what was typed since. */
  datatype Delivered = Delivered(closed: seq<(string, string)>, typed: string)

  function Deliver(d: Delivered, out: Output): Delivered {
    match out
    case Typed(text) => d.(typed := d.typed + text)
    case Pasted(text) => Delivered(d.closed + [(d.typed, text)], "")
  }

  function DeliverAll(d: Delivered, outs: seq<Output>): Delivered {
    if outs == [] then d else Deliver(DeliverAll(d, outs[..|outs| - 1]), outs[|outs| - 1])
  }

  class PasteFilter {
    var inPaste: bool
    var pasteBuf: string
    var leftover: string
    /** The input so far, and what came of it. */
    ghost var input: string
    ghost var delivered: Delivered

    ghost function State(): Input
      reads this
    {
      Input(delivered.closed, delivered.typed, inPaste, pasteBuf, leftover)
    }

    /** The state one chunk would have led to. */
    ghost predicate Valid()
      reads this
    {
      State() == Whole(input)
    }

    constructor ()
      ensures Valid() && input == "" && delivered == Delivered([], "")
    {
      inPaste, pasteBuf, leftover := false, "", "";
      input, delivered := "", Delivered([], "");
      hide Process;
      ProcessNothing(START);
    }

    /** No marker in `data`: all but the possible beginning of one is let through. */
    method TakeText(data: string, marker: string) returns (outs: seq<Output>)
      requires marker == Marker(inPaste) && IndexOf(data, marker) == |data|
      modifies this
      ensures State() == Process(old(State()), data)
      ensures input == old(input) && delivered == DeliverAll(old(delivered), outs)
    {
      var emit, hold := SplitTrailingPartial(data, marker);
      HoldUnique(data, marker, |hold|, HoldOf(data, marker));
      hide IsHold, HoldOf, IndexOf, Stands, Process;
      ProcessHeld(State(), data, emit, hold);
      outs := [];
      if inPaste {
        pasteBuf := pasteBuf + emit;
      } else if emit != "" {
        outs := [Typed(emit)];
        delivered := Deliver(delivered, Typed(emit));
        DeliverOne(old(delivered), Typed(emit));
      } else {
        assert delivered.typed + "" == delivered.typed;
      }
      leftover := hold;
    }

    /** A marker after `head`: a paste begins, or ends and is delivered. */
    method TakeMarker(ghost data: string, head: string, tail: string) returns (outs: seq<Output>)
      requires data == head + Marker(inPaste) + tail && IndexOf(data, Marker(inPaste)) == |head| && leftover == ""
      modifies this
      ensures Process(State(), tail) == Process(old(State()), data)
      ensures input == old(input) && delivered == DeliverAll(old(delivered), outs) && leftover == ""
    {
      hide IsHold, HoldOf, IndexOf, Stands, Process;
      ProcessFound(State(), data, head, tail);
      outs := [];
      if inPaste {
        var text := pasteBuf + head;
        outs := [Pasted(text)];
        delivered := Deliver(delivered, Pasted(text));
        DeliverOne(old(delivered), Pasted(text));
        inPaste, pasteBuf := false, "";
      } else {
        if head != "" {
          outs := [Typed(head)];
          delivered := Deliver(delivered, Typed(head));
          DeliverOne(old(delivered), Typed(head));
        } else {
          assert delivered.typed + "" == delivered.typed;
        }
        inPaste, pasteBuf := true, "";
      }
    }

    method Transform(chunk: string) returns (outs: seq<Output>)
      requires Valid()
      modifies this
      ensures Valid() && input == old(input) + chunk && delivered == DeliverAll(old(delivered), outs)
    {
      ProcessAppend(START, input, chunk);
      HeldIgnored(State(), "", leftover + chunk);
      hide IsHold, Stands, Process, Marker, DeliverAll;
      input := input + chunk;
      var data := leftover + chunk;
      leftover := "";
      outs := [];
      DeliverNone(delivered);
      while data != ""
        invariant input == old(input) + chunk && delivered == DeliverAll(old(delivered), outs) && leftover == ""
        invariant Whole(input) == Process(State(), data)
        decreases |data|
      {
        var marker := if inPaste then PASTE_END else PASTE_START;
        assert marker == Marker(inPaste) by {
          WhichMarker(inPaste);
        }
        var i := IndexOf(data, marker);
        ghost var before := outs;
        if i == |data| {
          var more := TakeText(data, marker);
          DeliverAppend(old(delivered), outs, more);
          outs := outs + more;
          return;
        }
        CutAtMarker(data, marker);
        var tail := data[i + |marker|..];
        var more := TakeMarker(data, data[..i], tail);
        DeliverAppend(old(delivered), outs, more);
        outs := outs + more;
        data := tail;
      }
      ProcessNothing(State());
    }
  }

  lemma ProcessNothing(p: Input)
    requires p.held == ""
    ensures Process(p, "") == p
  {
    assert p.buffer + "" == p.buffer && p.typed + "" == p.typed;
  }

  lemma WhichMarker(inPaste: bool)
    ensures Marker(inPaste) == if inPaste then PASTE_END else PASTE_START
  {
  }

  lemma DeliverNone(d: Delivered)
    ensures DeliverAll(d, []) == d
  {
  }

  lemma DeliverOne(d: Delivered, out: Output)
    ensures DeliverAll(d, [out]) == Deliver(d, out)
  {
    assert DeliverAll(d, [out]) == Deliver(DeliverAll(d, [out][..0]), [out][0]);
  }

  lemma {:induction false} DeliverAppend(d: Delivered, a: seq<Output>, b: seq<Output>)
    ensures DeliverAll(d, a + b) == DeliverAll(DeliverAll(d, a), b)
  {
    if b == [] {
      assert a + b == a;
    } else {
      DeliverAppend(d, a, b[..|b| - 1]);
      assert (a + b)[..|a + b| - 1] == a + b[..|b| - 1];
    }
  }
}
