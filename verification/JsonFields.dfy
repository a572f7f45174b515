/**
 * What `extractField` reads from a JSON text that has arrived: the strings of the text encoded as
 * section 7 of RFC 8259 allows, and the exact condition under which the right one is found.
 */
module JsonFields {
  import opened CodeUnits
  import opened Text
  import opened ToolRender
  import opened Wrappers

  /** One code unit of a JSON string, as it may be spelled. */
  datatype Piece = Raw(u: Unit) | Short(letter: Unit) | Hex(digits: Str)

  ghost predicate IsPiece(p: Piece) {
    match p
    case Raw(u) => u >= 32 && u != QUOTE && u != BACKSLASH
    case Short(e) => e in {QUOTE, BACKSLASH, 47, 98, 102, 110, 114, 116}
    case Hex(digits) => IsFourHex(digits)
  }

  ghost function UnitOf(p: Piece): Unit
    requires IsPiece(p)
  {
    match p
    case Raw(u) => u
    case Short(e) => ShortEscape(e)
    case Hex(digits) => FourHex(digits)
  }

  function Spell(p: Piece): Str {
    match p
    case Raw(u) => [u]
    case Short(e) => [BACKSLASH, e]
    case Hex(digits) => [BACKSLASH, LETTER_U] + digits
  }

  ghost predicate ArePieces(ps: seq<Piece>) {
    forall k :: 0 <= k < |ps| ==> IsPiece(ps[k])
  }

  function SpellAll(ps: seq<Piece>): Str {
    if ps == [] then [] else Spell(ps[0]) + SpellAll(ps[1..])
  }

  ghost function ValueOf(ps: seq<Piece>): Str
    requires ArePieces(ps)
  {
    if ps == [] then [] else [UnitOf(ps[0])] + ValueOf(ps[1..])
  }

  /** However a string is spelled, its value is read back, up to the closing quote. */
  lemma {:induction false} DecodesSpelling(ps: seq<Piece>, rest: Str)
    requires ArePieces(ps)
    ensures Decode(SpellAll(ps) + [QUOTE] + rest) == PartialField(ValueOf(ps), true)
  {
    var text := SpellAll(ps) + [QUOTE] + rest;
    if ps != [] {
      var p, more := ps[0], SpellAll(ps[1..]) + [QUOTE] + rest;
      assert IsPiece(p);
      assert text == Spell(p) + more;
      DecodesSpelling(ps[1..], rest);
      match p {
        case Raw(u) =>
          assert text[1..] == more;
        case Short(e) =>
          assert text[2..] == more;
        case Hex(digits) =>
          assert text[2..6] == digits && text[6..] == more;
      }
    }
  }

  // ---- The text before the field: strings, and what stands between them ----

  const COMMA: Unit := 44

  /** A string and the text up to the next one: no quote, and a colon or a comma at least. */
  datatype Segment = Segment(pieces: seq<Piece>, gap: Str)

  ghost predicate IsSegment(g: Segment) {
    ArePieces(g.pieces) && QUOTE !in g.gap && (COLON in g.gap || COMMA in g.gap)
  }

  function Quoted(ps: seq<Piece>): Str {
    [QUOTE] + SpellAll(ps) + [QUOTE]
  }

  function TextOf(segments: seq<Segment>): Str {
    if segments == [] then [] else Quoted(segments[0].pieces) + segments[0].gap + TextOf(segments[1..])
  }

  /** A field name is spelled as it is, and says nothing of JSON's punctuation. */
  predicate IsName(name: Str) {
    QUOTE !in name && BACKSLASH !in name && COLON !in name && COMMA !in name
  }

  /** The string ends, after its opening quote or after a quote in it, with exactly the name. */
  predicate Collides(ps: seq<Piece>, name: Str) {
    var s := [QUOTE] + SpellAll(ps);
    |s| > |name| && s[|s| - |name| - 1..] == [QUOTE] + name
  }

  // ---- A string need not be the name to collide with it ----

  function Raws(s: Str): seq<Piece> {
    seq(|s|, i requires 0 <= i < |s| => Raw(s[i]))
  }

  lemma {:induction false} SpellAppend(ps: seq<Piece>, qs: seq<Piece>)
    ensures SpellAll(ps + qs) == SpellAll(ps) + SpellAll(qs)
  {
    if ps == [] {
      assert ps + qs == qs;
    } else {
      SpellAppend(ps[1..], qs);
      assert (ps + qs)[1..] == ps[1..] + qs && (ps + qs)[0] == ps[0];
      assert SpellAll(ps + qs) == Spell(ps[0]) + SpellAll(ps[1..] + qs);
      assert SpellAll(ps) == Spell(ps[0]) + SpellAll(ps[1..]);
      hide *;
      Regroup(Spell(ps[0]), SpellAll(ps[1..]), SpellAll(qs));
    }
  }

  lemma {:induction false} RawsSpell(s: Str)
    ensures SpellAll(Raws(s)) == s
  {
    if s != [] {
      RawsSpell(s[1..]);
      assert Raws(s)[1..] == Raws(s[1..]);
    }
  }

  lemma {:induction false} OneUnitEach(ps: seq<Piece>)
    requires ArePieces(ps)
    ensures |ValueOf(ps)| == |ps|
  {
    if ps != [] {
      OneUnitEach(ps[1..]);
    }
  }

  lemma EndingSpells(front: seq<Piece>, name: Str)
    ensures SpellAll(front + ([Short(QUOTE)] + Raws(name))) == SpellAll(front) + ([BACKSLASH, QUOTE] + name)
  {
    RawsSpell(name);
    assert ([Short(QUOTE)] + Raws(name))[1..] == Raws(name);
    assert SpellAll([Short(QUOTE)] + Raws(name)) == [BACKSLASH, QUOTE] + name;
    hide SpellAll, Raws;
    SpellAppend(front, [Short(QUOTE)] + Raws(name));
  }

  /** One that ends with an escaped quote and the name collides too, whatever comes before. */
  lemma EndingCollides(front: seq<Piece>, name: Str)
    requires ArePieces(front) && ArePieces(Raws(name))
    ensures var ps := front + ([Short(QUOTE)] + Raws(name)); ArePieces(ps) && ValueOf(ps) != name && Collides(ps, name)
  {
    var ps := front + ([Short(QUOTE)] + Raws(name));
    assert |ps| > |name| && ArePieces(ps);
    OneUnitEach(ps);
    hide ValueOf, ArePieces, Raws, SpellAll;
    EndingSpells(front, name);
    EndsWithName(SpellAll(front), name);
  }

  lemma EndsWithName(front: Str, name: Str)
    ensures var s := [QUOTE] + (front + ([BACKSLASH, QUOTE] + name)); s[|s| - |name| - 1..] == [QUOTE] + name
  {
  }

  ghost predicate Clear(s: Str, key: Str, n: nat) {
    forall k :: 0 <= k < n ==> !Stands(s, key, k)
  }

  lemma StandsShift(front: Str, s: Str, key: Str, k: nat)
    ensures Stands(front + s, key, |front| + k) <==> Stands(s, key, k)
  {
    if k + |key| <= |s| {
      assert (front + s)[|front| + k..|front| + k + |key|] == s[k..k + |key|];
    }
  }

  /** A quote inside a string is escaped. */
  lemma {:induction false} QuotesAreEscaped(ps: seq<Piece>, k: nat)
    requires ArePieces(ps) && k < |SpellAll(ps)| && SpellAll(ps)[k] == QUOTE
    ensures k > 0 && SpellAll(ps)[k - 1] == BACKSLASH
  {
    var p, s, more := ps[0], SpellAll(ps), SpellAll(ps[1..]);
    assert IsPiece(p);
    var n := |Spell(p)|;
    assert s == Spell(p) + more;
    if k >= n {
      QuotesAreEscaped(ps[1..], k - n);
      assert s[k - 1] == more[k - n - 1];
    } else {
      assert s[k] == Spell(p)[k];
      QuoteInPiece(p, k);
    }
  }

  lemma QuoteInPiece(p: Piece, k: nat)
    requires IsPiece(p) && k < |Spell(p)| && Spell(p)[k] == QUOTE
    ensures p.Short? && k == 1
  {
  }

  /** Inside a string the key stands only where the string collides with it. */
  lemma InString(ps: seq<Piece>, name: Str, tail: Str, i: nat)
    requires ArePieces(ps) && IsName(name) && i <= |SpellAll(ps)|
    ensures Stands(Quoted(ps) + tail, Key(name), i) <==> Collides(ps, name) && i == |SpellAll(ps)| - |name|
  {
    var s, text, n := [QUOTE] + SpellAll(ps), Quoted(ps) + tail, |name|;
    var key := Key(name);
    assert text == s + [QUOTE] + tail;
    if |s| - i == n + 1 {
      assert i + |key| <= |text|;
      assert text[i..i + |key|] == s[i..] + [QUOTE];
      assert key == ([QUOTE] + name) + [QUOTE];
      if text[i..i + |key|] == key {
        assert s[i..] == key[..n + 1] == [QUOTE] + name;
      }
    } else if Stands(text, key, i) {
      NotInString(ps, name, tail, i);
      assert false;
    }
  }

  lemma NotInString(ps: seq<Piece>, name: Str, tail: Str, i: nat)
    requires ArePieces(ps) && IsName(name) && i <= |SpellAll(ps)| && |SpellAll(ps)| - i != |name|
    ensures !Stands(Quoted(ps) + tail, Key(name), i)
  {
    if |SpellAll(ps)| - i < |name| {
      TooCloseToTheEnd(SpellAll(ps), name, tail, i);
    } else {
      hide Stands, Key, Quoted, SpellAll, ArePieces;
      TooFarFromTheEnd(ps, name, tail, i);
    }
  }

  /** The string's closing quote would stand in the name. */
  lemma TooCloseToTheEnd(s: Str, name: Str, tail: Str, i: nat)
    requires IsName(name) && i <= |s| && |s| - i < |name|
    ensures !Stands([QUOTE] + s + [QUOTE] + tail, Key(name), i)
  {
    var text, key, r := [QUOTE] + s + [QUOTE] + tail, Key(name), |s| + 1 - i;
    if i + |key| <= |text| {
      assert text[i..i + |key|][r] == text[|s| + 1] == QUOTE;
      assert key[r] == name[r - 1];
    }
  }

  /** The key's own closing quote would have to be one inside the string. */
  lemma TooFarFromTheEnd(ps: seq<Piece>, name: Str, tail: Str, i: nat)
    requires ArePieces(ps) && IsName(name) && i + |name| < |SpellAll(ps)|
    ensures !Stands(Quoted(ps) + tail, Key(name), i)
  {
    var s := SpellAll(ps);
    if s[i + |name|] == QUOTE {
      QuotesAreEscaped(ps, i + |name|);
    }
    hide SpellAll, ArePieces, Stands, IsName;
    QuoteIsEscaped(s, name, tail, i);
  }

  lemma QuoteIsEscaped(s: Str, name: Str, tail: Str, i: nat)
    requires IsName(name) && i + |name| < |s|
    requires s[i + |name|] == QUOTE ==> i + |name| > 0 && s[i + |name| - 1] == BACKSLASH
    ensures !Stands([QUOTE] + s + [QUOTE] + tail, Key(name), i)
  {
    var text, key, n := [QUOTE] + s + [QUOTE] + tail, Key(name), |name|;
    assert text[i + n + 1] == s[i + n] && key[n + 1] == QUOTE;
    assert i + n > 0 ==> text[i + n] == s[i + n - 1];
    assert key[n] != BACKSLASH;
    StandsAt(text, key, i, n);
    StandsAt(text, key, i, n + 1);
  }

  /** Between strings it does not stand either. */
  lemma InGap(ps: seq<Piece>, gap: Str, name: Str, tail: Str, i: nat)
    requires IsSegment(Segment(ps, gap)) && IsName(name) && |SpellAll(ps)| < i < |Quoted(ps) + gap|
    ensures !Stands(Quoted(ps) + (gap + tail), Key(name), i)
  {
    var front := Quoted(ps);
    hide SpellAll, Stands, Key, ArePieces;
    assert |front| == |SpellAll(ps)| + 2;
    if i >= |front| {
      InsideGap(front, gap, name, tail, i - |front|);
    } else {
      BeforeGap(front, gap, name, tail);
    }
  }

  /** A key starts with a quote, and a gap holds none. */
  lemma InsideGap(front: Str, gap: Str, name: Str, tail: Str, k: nat)
    requires QUOTE !in gap && k < |gap|
    ensures !Stands(front + (gap + tail), Key(name), |front| + k)
  {
    var text, i := front + (gap + tail), |front| + k;
    if i + |Key(name)| <= |text| {
      assert text[i..i + |Key(name)|][0] == gap[k];
      assert gap[k] in gap;
    }
  }

  /** From the closing quote on, a colon or a comma of the gap would stand in the name, or no quote after it. */
  lemma BeforeGap(front: Str, gap: Str, name: Str, tail: Str)
    requires front != [] && QUOTE !in gap && (COLON in gap || COMMA in gap) && IsName(name)
    ensures !Stands(front + (gap + tail), Key(name), |front| - 1)
  {
    var text, key, i, n := front + (gap + tail), Key(name), |front| - 1, |name|;
    if i + |key| <= |text| {
      var g :| 0 <= g < |gap| && gap[g] in {COLON, COMMA};
      if g < n {
        assert text[i..i + |key|][1 + g] == gap[g] && key[1 + g] == name[g];
      } else {
        assert text[i..i + |key|][n + 1] == gap[n] && key[n + 1] == QUOTE;
        assert gap[n] in gap;
      }
    }
  }

  lemma SegmentClear(g: Segment, name: Str, tail: Str)
    requires IsSegment(g) && IsName(name)
    ensures var first := Quoted(g.pieces) + g.gap;
            Clear(first + tail, Key(name), |first|) <==> !Collides(g.pieces, name)
  {
    hide Stands, Key, Collides, IsSegment, IsName, ArePieces, SpellAll, Quoted;
    var text, n := Quoted(g.pieces) + (g.gap + tail), |Quoted(g.pieces) + g.gap|;
    assert (Quoted(g.pieces) + g.gap) + tail == text;
    assert ArePieces(g.pieces) by {
      SegmentPieces(g);
    }
    assert |SpellAll(g.pieces)| < n by {
      QuotedLength(g.pieces);
    }
    forall k | 0 <= k < n
      ensures Stands(text, Key(name), k) <==> Collides(g.pieces, name) && k == |SpellAll(g.pieces)| - |name|
    {
      if k <= |SpellAll(g.pieces)| {
        InString(g.pieces, name, g.gap + tail, k);
      } else {
        InGap(g.pieces, g.gap, name, tail, k);
      }
    }
    if Collides(g.pieces, name) {
      CollidesLength(g.pieces, name);
      assert Stands(text, Key(name), |SpellAll(g.pieces)| - |name|);
    }
  }

  lemma SegmentPieces(g: Segment)
    requires IsSegment(g)
    ensures ArePieces(g.pieces)
  {
  }

  lemma QuotedLength(ps: seq<Piece>)
    ensures |Quoted(ps)| == |SpellAll(ps)| + 2
  {
  }

  lemma CollidesLength(ps: seq<Piece>, name: Str)
    requires Collides(ps, name)
    ensures |SpellAll(ps)| >= |name|
  {
  }

  ghost predicate NoneCollides(segments: seq<Segment>, name: Str) {
    forall k :: 0 <= k < |segments| ==> !Collides(segments[k].pieces, name)
  }

  lemma NoneCollidesStep(segments: seq<Segment>, name: Str)
    requires segments != []
    ensures NoneCollides(segments, name) <==> !Collides(segments[0].pieces, name) && NoneCollides(segments[1..], name)
  {
    hide Collides;
    assert forall k :: 0 < k < |segments| ==> segments[k] == segments[1..][k - 1];
  }

  lemma TextStep(segments: seq<Segment>, tail: Str)
    requires segments != []
    ensures var first, more := Quoted(segments[0].pieces) + segments[0].gap, TextOf(segments[1..]);
            && |TextOf(segments)| == |first| + |more|
            && TextOf(segments) + tail == first + (more + tail)
  {
    var first, more := Quoted(segments[0].pieces) + segments[0].gap, TextOf(segments[1..]);
    assert TextOf(segments) == first + more;
    hide *;
    Regroup(first, more, tail);
  }

  lemma Regroup(a: Str, b: Str, c: Str)
    ensures (a + b) + c == a + (b + c)
  {
  }

  lemma {:induction false} SegmentsClear(segments: seq<Segment>, name: Str, tail: Str)
    requires IsName(name) && forall k :: 0 <= k < |segments| ==> IsSegment(segments[k])
    ensures Clear(TextOf(segments) + tail, Key(name), |TextOf(segments)|) <==> NoneCollides(segments, name)
  {
    if segments == [] {
      assert TextOf(segments) == [];
    } else {
      var g, more := segments[0], TextOf(segments[1..]);
      assert IsSegment(g);
      SegmentsClear(segments[1..], name, tail);
      hide Clear, Collides, NoneCollides, IsSegment, IsName, Key, Quoted, TextOf;
      TextStep(segments, tail);
      SegmentClear(g, name, more + tail);
      ClearBoth(Quoted(g.pieces) + g.gap, more + tail, Key(name), |more|);
      NoneCollidesStep(segments, name);
    }
  }

  lemma ClearBoth(front: Str, s: Str, key: Str, n: nat)
    ensures Clear(front + s, key, |front| + n) <==> Clear(front + s, key, |front|) && Clear(s, key, n)
  {
    forall k | 0 <= k < n
      ensures Stands(front + s, key, |front| + k) <==> Stands(s, key, k)
    {
      StandsShift(front, s, key, k);
    }
    if Clear(front + s, key, |front|) && Clear(s, key, n) {
      forall k | 0 <= k < |front| + n
        ensures !Stands(front + s, key, k)
      {
        if k >= |front| {
          assert !Stands(s, key, k - |front|);
        }
      }
    }
    if Clear(front + s, key, |front| + n) {
      forall k | 0 <= k < n
        ensures !Stands(s, key, k)
      {
        assert !Stands(front + s, key, |front| + k);
      }
    }
  }

  // ---- Finding the field ----

  /** A text that has arrived: up to the field, the field with its value, and anything after it. */
  datatype Arrived = Arrived(lead: Str, before: seq<Segment>, name: Str, space1: Str, space2: Str,
                             value: seq<Piece>, after: Str)

  ghost predicate IsArrived(a: Arrived) {
    && QUOTE !in a.lead && (forall k :: 0 <= k < |a.before| ==> IsSegment(a.before[k]))
    && IsName(a.name) && AllSpace(a.space1) && AllSpace(a.space2) && ArePieces(a.value)
  }

  function FieldText(a: Arrived): Str {
    Key(a.name) + (a.space1 + ([COLON] + (a.space2 + ([QUOTE] + (SpellAll(a.value) + [QUOTE] + a.after)))))
  }

  function Front(a: Arrived): Str {
    a.lead + TextOf(a.before)
  }

  function ArrivedText(a: Arrived): Str {
    Front(a) + FieldText(a)
  }

  /** Where the field's value starts in the text. */
  function TrueStart(a: Arrived): nat {
    |Front(a)| + |Key(a.name)| + |a.space1| + 1 + |a.space2| + 1
  }

  lemma LeadClear(lead: Str, s: Str, key: Str)
    requires QUOTE !in lead && key != [] && key[0] == QUOTE
    ensures Clear(lead + s, key, |lead|)
  {
    forall k | 0 <= k < |lead|
      ensures !Stands(lead + s, key, k)
    {
      assert lead[k] in lead;
      if k + |key| <= |lead + s| {
        assert (lead + s)[k..k + |key|][0] == lead[k];
      }
    }
  }

  lemma FrontClear(a: Arrived)
    requires IsArrived(a)
    ensures Clear(ArrivedText(a), Key(a.name), |Front(a)|) <==> NoneCollides(a.before, a.name)
  {
    hide Clear, NoneCollides, IsSegment, FieldText;
    SegmentsClear(a.before, a.name, FieldText(a));
    LeadClear(a.lead, TextOf(a.before) + FieldText(a), Key(a.name));
    assert ArrivedText(a) == a.lead + (TextOf(a.before) + FieldText(a));
    ClearBoth(a.lead, TextOf(a.before) + FieldText(a), Key(a.name), |TextOf(a.before)|);
  }

  lemma {:induction false} SkipIs(s: Str, i: nat, j: nat)
    requires i <= j <= |s| && AllSpace(s[i..j]) && (j < |s| ==> !IsSpace(s[j]))
    ensures SkipSpace(s, i) == j
    decreases j - i
  {
    if i < j {
      assert IsSpace(s[i..j][0]);
      assert s[i + 1..j] == s[i..j][1..];
      SkipIs(s, i + 1, j);
    }
  }

  lemma {:induction false} IndexIs(s: Str, key: Str, from: nat, i: nat)
    requires from <= i <= |s| && Stands(s, key, i) && forall k :: from <= k < i ==> !Stands(s, key, k)
    ensures IndexOf(s, key, from) == Some(i)
    decreases i - from
  {
    if from < i {
      IndexIs(s, key, from + 1, i);
    }
  }

  lemma SliceOf(front: Str, mid: Str, rest: Str)
    ensures (front + (mid + rest))[|front|..|front| + |mid|] == mid
    ensures rest != [] ==> (front + (mid + rest))[|front| + |mid|] == rest[0]
  {
  }

  lemma SkipPast(front: Str, space: Str, rest: Str)
    requires AllSpace(space) && rest != [] && !IsSpace(rest[0])
    ensures SkipSpace(front + (space + rest), |front|) == |front| + |space|
    ensures (front + (space + rest))[|front| + |space|] == rest[0]
  {
    hide IsSpace, AllSpace;
    SliceOf(front, space, rest);
    SkipIs(front + (space + rest), |front|, |front| + |space|);
  }

  lemma StartIs(s: Str, name: Str, k: nat, colon: nat, quote: nat)
    requires IndexOf(s, Key(name), 0) == Some(k)
    requires SkipSpace(s, k + |Key(name)|) == colon < |s| && s[colon] == COLON
    requires SkipSpace(s, colon + 1) == quote < |s| && s[quote] == QUOTE
    ensures ValueStart(s, name) == Some(quote + 1)
  {
    hide IndexOf, Key, Stands, SkipSpace, AllSpace, IsSpace;
  }

  lemma SpaceBeforeColon(a: Arrived)
    requires AllSpace(a.space1)
    ensures var i := |Front(a)| + |Key(a.name)|; var colon := i + |a.space1|;
            colon < |ArrivedText(a)| && SkipSpace(ArrivedText(a), i) == colon && ArrivedText(a)[colon] == COLON
  {
    hide Front, Key, SpellAll, AllSpace, SkipSpace;
    var rest := [COLON] + (a.space2 + ([QUOTE] + (SpellAll(a.value) + [QUOTE] + a.after)));
    assert ArrivedText(a) == (Front(a) + Key(a.name)) + (a.space1 + rest);
    SkipPast(Front(a) + Key(a.name), a.space1, rest);
  }

  lemma SpaceBeforeQuote(a: Arrived)
    requires AllSpace(a.space2)
    ensures var i := |Front(a)| + |Key(a.name)| + |a.space1| + 1; var quote := i + |a.space2|;
            quote < |ArrivedText(a)| && SkipSpace(ArrivedText(a), i) == quote && ArrivedText(a)[quote] == QUOTE
  {
    hide Front, Key, SpellAll, AllSpace, SkipSpace;
    var front := Front(a) + Key(a.name) + a.space1 + [COLON];
    var rest := [QUOTE] + (SpellAll(a.value) + [QUOTE] + a.after);
    assert ArrivedText(a) == front + (a.space2 + rest);
    SkipPast(front, a.space2, rest);
  }

  lemma ValueAfterQuote(a: Arrived)
    ensures TrueStart(a) <= |ArrivedText(a)|
    ensures ArrivedText(a)[TrueStart(a)..] == SpellAll(a.value) + [QUOTE] + a.after
  {
    hide Front, Key, SpellAll;
    var front := Front(a) + Key(a.name) + a.space1 + [COLON] + a.space2 + [QUOTE];
    var tail := SpellAll(a.value) + [QUOTE] + a.after;
    assert ArrivedText(a) == front + tail;
    assert (front + tail)[|front|..] == tail;
  }

  lemma StartsThere(a: Arrived)
    requires IsArrived(a) && IndexOf(ArrivedText(a), Key(a.name), 0) == Some(|Front(a)|)
    ensures ValueStart(ArrivedText(a), a.name) == Some(TrueStart(a))
  {
    hide Front, Key, IndexOf, ArrivedText, AllSpace, SkipSpace, ValueStart;
    SpaceBeforeColon(a);
    SpaceBeforeQuote(a);
    var f := |Front(a)|;
    var colon := f + |Key(a.name)| + |a.space1|;
    StartIs(ArrivedText(a), a.name, f, colon, colon + 1 + |a.space2|);
  }

  lemma KeyStands(a: Arrived)
    ensures Stands(ArrivedText(a), Key(a.name), |Front(a)|)
  {
    hide Front, SpellAll, Key;
    var text, f := ArrivedText(a), |Front(a)|;
    assert text[f..f + |Key(a.name)|] == Key(a.name);
  }

  /** A key found earlier leads to a quote before the field's own value. */
  lemma StartsEarlier(s: Str, i: nat, b: nat)
    requires i <= b < |s| && s[b] == QUOTE
    ensures AfterKey(s, i).Some? ==> AfterKey(s, i).value <= b + 1
  {
    assert !IsSpace(s[b]);
    hide SkipSpace, AllSpace, IsSpace;
    SkipStops(s, i, b);
    var colon := SkipSpace(s, i);
    if colon < b {
      SkipStops(s, colon + 1, b);
    }
  }

  lemma {:induction false} SkipStops(s: Str, i: nat, b: nat)
    requires i <= b < |s| && !IsSpace(s[b])
    ensures SkipSpace(s, i) <= b
    decreases b - i
  {
    hide AllSpace;
    if i < b {
      SkipStops(s, i + 1, b);
    }
  }

  /**
   * `extractField` starts reading at the field's own value exactly when no string before it ends,
   * from its opening quote or from an escaped quote in it, with the field's name.
   */
  lemma FindsTheField(a: Arrived)
    requires IsArrived(a)
    ensures ValueStart(ArrivedText(a), a.name) == Some(TrueStart(a)) <==> NoneCollides(a.before, a.name)
  {
    var text, key, f := ArrivedText(a), Key(a.name), |Front(a)|;
    FrontClear(a);
    KeyStands(a);
    hide NoneCollides, IndexOf, ValueStart, Front, FieldText, SpellAll, IsArrived;
    if Clear(text, key, f) {
      IndexIs(text, key, 0, f);
      StartsThere(a);
    } else {
      var k :| 0 <= k < f && Stands(text, key, k);
      FoundEarlier(a, k);
    }
  }

  lemma FoundEarlier(a: Arrived, k: nat)
    requires IsArrived(a) && k < |Front(a)| && Stands(ArrivedText(a), Key(a.name), k)
    ensures ValueStart(ArrivedText(a), a.name) != Some(TrueStart(a))
  {
    var text, key, f := ArrivedText(a), Key(a.name), |Front(a)|;
    QuoteAtField(a);
    hide Stands, Key, Front, FieldText, IsArrived, ArrivedText, AfterKey;
    var i := IndexOf(text, key, 0);
    assert i.Some? && i.value <= k;
    EndsBefore(a, i.value);
    StartsEarlier(text, i.value + |key|, f);
  }

  lemma QuoteAtField(a: Arrived)
    ensures |Front(a)| < |ArrivedText(a)| && ArrivedText(a)[|Front(a)|] == QUOTE
  {
    hide Front;
    assert FieldText(a)[0] == QUOTE;
  }

  /** A key found in the text before the field ends there. */
  lemma EndsBefore(a: Arrived, k: nat)
    requires IsArrived(a) && k < |Front(a)| && Stands(ArrivedText(a), Key(a.name), k)
    ensures k + |Key(a.name)| <= |Front(a)|
  {
    hide Stands, Key, FieldText, IsSegment, TextOf;
    var rest := TextOf(a.before) + FieldText(a);
    assert ArrivedText(a) == a.lead + rest;
    assert |a.lead| <= k by {
      assert Key(a.name) != [] && Key(a.name)[0] == QUOTE by {
        KeyBegins(a.name);
      }
      LeadClear(a.lead, rest, Key(a.name));
    }
    StandsShift(a.lead, rest, Key(a.name), k - |a.lead|);
    EndsInSegments(a.before, a.name, FieldText(a), k - |a.lead|);
  }

  lemma KeyBegins(name: Str)
    ensures Key(name) != [] && Key(name)[0] == QUOTE
  {
  }

  lemma {:induction false} EndsInSegments(segments: seq<Segment>, name: Str, tail: Str, k: nat)
    requires IsName(name) && forall j :: 0 <= j < |segments| ==> IsSegment(segments[j])
    requires k < |TextOf(segments)| && Stands(TextOf(segments) + tail, Key(name), k)
    ensures k + |Key(name)| <= |TextOf(segments)|
  {
    hide Stands, SpellAll, IsName;
    var g, more := segments[0], TextOf(segments[1..]);
    var first := Quoted(g.pieces) + g.gap;
    assert IsSegment(g);
    assert TextOf(segments) + tail == first + (more + tail) == Quoted(g.pieces) + (g.gap + (more + tail));
    if k <= |SpellAll(g.pieces)| {
      InString(g.pieces, name, g.gap + (more + tail), k);
    } else if k < |first| {
      InGap(g.pieces, g.gap, name, more + tail, k);
    } else {
      StandsShift(first, more + tail, Key(name), k - |first|);
      EndsInSegments(segments[1..], name, tail, k - |first|);
    }
  }

  /** The round trip: the value comes back whole, whatever the spelling and whatever follows. */
  lemma ExtractsTheField(a: Arrived)
    requires IsArrived(a) && NoneCollides(a.before, a.name)
    ensures Field(ArrivedText(a), a.name) == Some(PartialField(ValueOf(a.value), true))
  {
    FrontClear(a);
    KeyStands(a);
    IndexIs(ArrivedText(a), Key(a.name), 0, |Front(a)|);
    StartsThere(a);
    ValueAfterQuote(a);
    DecodesSpelling(a.value, a.after);
  }
}
