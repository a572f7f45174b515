/**
 * `canonical`: the text that stands for a JSON value in digests and sealed headers
 * (scripts/activity-bench/vault.ts). It must identify the value, whatever the order of its keys.
 */
module Canonical {
  import opened CodeUnits
  import opened Text
  import opened ToolRender
  import opened JsonFields

  /**
   * A value as JavaScript holds it: a number by the shortest text that denotes it, an object by
   * its keys in insertion order. `Undefined` and `NonFinite` have no text of their own in JSON.
   */
  datatype Json =
    | Null
    | Undefined
    | NonFinite
    | Bool(b: bool)
    | Num(digits: Str)
    | Text(s: Str)
    | Arr(items: seq<Json>)
    | Obj(fields: seq<(Str, Json)>)

  predicate IsNumberUnit(u: Unit) {
    48 <= u <= 57 || u in {43, 45, 46, 101}
  }

  predicate IsStr(s: Str) {
    forall k :: 0 <= k < |s| ==> 0 <= s[k] < 0x10000
  }

  ghost predicate IsJson(j: Json) {
    match j
    case Text(s) => IsStr(s)
    case Num(digits) => digits != [] && forall k :: 0 <= k < |digits| ==> IsNumberUnit(digits[k])
    case Arr(items) => forall k :: 0 <= k < |items| ==> IsJson(items[k])
    case Obj(fields) =>
      && (forall k :: 0 <= k < |fields| ==> IsStr(fields[k].0) && IsJson(fields[k].1))
      && DistinctKeys(fields)
    case _ => true
  }

  ghost predicate DistinctKeys<T(!new)>(fields: seq<(Str, T)>) {
    forall i, k :: 0 <= i < k < |fields| ==> fields[i].0 != fields[k].0
  }

  // ---- Sorting keys by code units ----

  predicate Less(a: Str, b: Str) {
    b != [] && (a == [] || a[0] < b[0] || (a[0] == b[0] && Less(a[1..], b[1..])))
  }

  lemma {:induction false} LessTotal(a: Str, b: Str)
    ensures Less(a, b) || a == b || Less(b, a)
    ensures !(Less(a, b) && Less(b, a)) && !Less(a, a)
  {
    if a != [] && b != [] && a[0] == b[0] {
      LessTotal(a[1..], b[1..]);
      assert a == [a[0]] + a[1..] && b == [b[0]] + b[1..];
    }
    if a != [] {
      LessTotal(a[1..], a[1..]);
    }
  }

  lemma {:induction false} LessTransitive(a: Str, b: Str, c: Str)
    requires Less(a, b) && Less(b, c)
    ensures Less(a, c)
  {
    if a != [] && a[0] == b[0] == c[0] {
      LessTransitive(a[1..], b[1..], c[1..]);
    }
  }

  function Insert<T(!new)>(p: (Str, T), sorted: seq<(Str, T)>): (r: seq<(Str, T)>)
    ensures |r| == |sorted| + 1 && p in r && forall q :: q in r ==> q == p || q in sorted
    ensures forall q :: q in sorted ==> q in r
  {
    if sorted == [] || Less(p.0, sorted[0].0) then [p] + sorted
    else
      assert sorted == [sorted[0]] + sorted[1..];
      [sorted[0]] + Insert(p, sorted[1..])
  }

  /** `Object.keys(value).sort()`, each key with its value. */
  function SortFields<T(!new)>(fields: seq<(Str, T)>): (r: seq<(Str, T)>)
    ensures |r| == |fields| && forall p :: p in r <==> p in fields
  {
    if fields == [] then []
    else
      assert fields == [fields[0]] + fields[1..];
      Insert(fields[0], SortFields(fields[1..]))
  }

  ghost predicate Sorted<T(!new)>(fields: seq<(Str, T)>) {
    forall i, k :: 0 <= i < k < |fields| ==> Less(fields[i].0, fields[k].0)
  }

  lemma {:induction false} InsertSorted<T(!new)>(p: (Str, T), sorted: seq<(Str, T)>)
    requires Sorted(sorted) && forall q :: q in sorted ==> q.0 != p.0
    ensures Sorted(Insert(p, sorted))
  {
    if sorted != [] {
      var first := sorted[0];
      LessTotal(p.0, first.0);
      if Less(p.0, first.0) {
        forall k | 0 <= k < |sorted|
          ensures Less(p.0, sorted[k].0)
        {
          if k > 0 {
            LessTransitive(p.0, first.0, sorted[k].0);
          }
        }
      } else {
        assert Sorted(sorted[1..]);
        InsertSorted(p, sorted[1..]);
        var rest := Insert(p, sorted[1..]);
        forall k | 0 <= k < |rest|
          ensures Less(first.0, rest[k].0)
        {
          assert rest[k] in rest;
        }
      }
    }
  }

  lemma {:induction false} SortFieldsSorted<T(!new)>(fields: seq<(Str, T)>)
    requires DistinctKeys(fields)
    ensures Sorted(SortFields(fields))
  {
    if fields != [] {
      assert DistinctKeys(fields[1..]);
      SortFieldsSorted(fields[1..]);
      InsertSorted(fields[0], SortFields(fields[1..]));
    }
  }

  // ---- The spelling of a string ----

  predicate IsHigh(u: Unit) {
    0xD800 <= u < 0xDC00
  }

  predicate IsLow(u: Unit) {
    0xDC00 <= u < 0xE000
  }

  /** A lower-case hexadecimal digit. */
  function Digit(v: nat): Unit
    requires v < 16
  {
    if v < 10 then 48 + v else 87 + v
  }

  function HexPiece(u: Unit): Piece
    requires 0 <= u < 0x10000
  {
    Hex([Digit(u / 0x1000), Digit(u / 0x100 % 0x10), Digit(u / 0x10 % 0x10), Digit(u % 0x10)])
  }

  /** How `JSON.stringify` writes one code unit that is not half of a surrogate pair. */
  function PieceOf(u: Unit): Piece
    requires 0 <= u < 0x10000
  {
    if u == QUOTE || u == BACKSLASH then Short(u)
    else if u == 8 then Short(98)
    else if u == 9 then Short(116)
    else if u == 10 then Short(110)
    else if u == 12 then Short(102)
    else if u == 13 then Short(114)
    else if u < 32 || IsHigh(u) || IsLow(u) then HexPiece(u)
    else Raw(u)
  }

  function Spelling(s: Str): seq<Piece>
    requires IsStr(s)
  {
    if s == [] then []
    else if |s| > 1 && IsHigh(s[0]) && IsLow(s[1]) then [Raw(s[0]), Raw(s[1])] + Spelling(s[2..])
    else [PieceOf(s[0])] + Spelling(s[1..])
  }

  lemma DigitValue(v: nat)
    requires v < 16
    ensures IsHex(Digit(v)) && HexValue(Digit(v)) == v
  {
  }

  lemma FourDigits(u: Unit)
    requires 0 <= u < 0x10000
    ensures 0 <= u / 0x1000 < 0x10
    ensures u / 0x1000 * 0x1000 + u / 0x100 % 0x10 * 0x100 + u / 0x10 % 0x10 * 0x10 + u % 0x10 == u
  {
    var a, b, c := u / 0x10, u / 0x100, u / 0x1000;
    assert b == a / 0x10 && c == b / 0x10;
  }

  lemma HexDigits(a: nat, b: nat, c: nat, d: nat)
    requires a < 16 && b < 16 && c < 16 && d < 16
    ensures var digits := [Digit(a), Digit(b), Digit(c), Digit(d)];
            IsFourHex(digits) && FourHex(digits) == a * 0x1000 + b * 0x100 + c * 0x10 + d
  {
    DigitValue(a);
    DigitValue(b);
    DigitValue(c);
    DigitValue(d);
    hide Digit, HexValue, IsHex;
  }

  lemma HexPieceValue(u: Unit)
    requires 0 <= u < 0x10000
    ensures IsPiece(HexPiece(u)) && UnitOf(HexPiece(u)) == u
  {
    hide Digit, FourHex, IsFourHex;
    FourDigits(u);
    HexDigits(u / 0x1000, u / 0x100 % 0x10, u / 0x10 % 0x10, u % 0x10);
  }

  lemma PieceValue(u: Unit)
    requires 0 <= u < 0x10000
    ensures IsPiece(PieceOf(u)) && UnitOf(PieceOf(u)) == u
  {
    HexPieceValue(u);
    hide HexPiece;
  }

  lemma ConsValue(p: Piece, ps: seq<Piece>)
    requires IsPiece(p) && ArePieces(ps)
    ensures ArePieces([p] + ps) && ValueOf([p] + ps) == [UnitOf(p)] + ValueOf(ps)
  {
    assert ([p] + ps)[1..] == ps;
  }

  lemma {:induction false} SpellingValue(s: Str)
    requires IsStr(s)
    ensures ArePieces(Spelling(s)) && ValueOf(Spelling(s)) == s
  {
    if s == [] {
      NoValue();
    } else if |s| > 1 && IsHigh(s[0]) && IsLow(s[1]) {
      SpellingValue(s[2..]);
      PairValue(s[0], s[1], Spelling(s[2..]));
      hide *;
      assert s == [s[0], s[1]] + s[2..];
    } else {
      SpellingValue(s[1..]);
      PieceValue(s[0]);
      ConsValue(PieceOf(s[0]), Spelling(s[1..]));
      hide *;
      assert s == [s[0]] + s[1..];
    }
  }

  lemma PairValue(u: Unit, v: Unit, ps: seq<Piece>)
    requires IsHigh(u) && IsLow(v) && ArePieces(ps)
    ensures ArePieces([Raw(u), Raw(v)] + ps) && ValueOf([Raw(u), Raw(v)] + ps) == [u, v] + ValueOf(ps)
  {
    RawValue(u);
    RawValue(v);
    hide IsPiece, UnitOf, ValueOf, ArePieces;
    ConsValue(Raw(v), ps);
    ConsValue(Raw(u), [Raw(v)] + ps);
    assert [Raw(u), Raw(v)] + ps == [Raw(u)] + ([Raw(v)] + ps);
  }

  lemma NoValue()
    ensures ArePieces([]) && ValueOf([]) == []
  {
  }

  lemma RawValue(u: Unit)
    requires IsHigh(u) || IsLow(u)
    ensures IsPiece(Raw(u)) && UnitOf(Raw(u)) == u
  {
  }

  /** `JSON.stringify` of a string. */
  function QuoteText(s: Str): Str
    requires IsStr(s)
  {
    Quoted(Spelling(s))
  }

  /** Wherever two quoted strings begin the same text, they are the same string. */
  lemma QuoteTextDelimits(a: Str, x: Str, b: Str, y: Str)
    requires IsStr(a) && IsStr(b) && QuoteText(a) + x == QuoteText(b) + y
    ensures a == b && x == y
  {
    hide Quoted, Spelling, IsStr, Decode;
    ReadsBack(a, x);
    ReadsBack(b, y);
    assert x == (QuoteText(a) + x)[|QuoteText(a)|..] == y;
  }

  /** What follows the opening quote is read back as the string. */
  lemma ReadsBack(s: Str, rest: Str)
    requires IsStr(s)
    ensures |QuoteText(s) + rest| > 0 && Decode((QuoteText(s) + rest)[1..]) == PartialField(s, true)
  {
    SpellingValue(s);
    DecodesSpelling(Spelling(s), rest);
    hide Spelling, SpellAll, IsStr, ArePieces, ValueOf, Decode;
    AfterQuote(SpellAll(Spelling(s)), rest);
  }

  lemma AfterQuote(s: Str, rest: Str)
    ensures ([QUOTE] + s + [QUOTE] + rest)[1..] == s + [QUOTE] + rest
  {
  }

  // ---- canonical ----

  const OPEN_ARRAY: Unit := 91
  const CLOSE_ARRAY: Unit := 93
  const OPEN_OBJECT: Unit := 123
  const CLOSE_OBJECT: Unit := 125

  function Canonical(j: Json): Str
    requires IsJson(j)
  {
    match j
    case Arr(items) =>
      [OPEN_ARRAY] + (Join(seq(|items|, i requires 0 <= i < |items| => Canonical(items[i])), [COMMA]) + [CLOSE_ARRAY])
    case Obj(fields) =>
      var sorted := SortFields(fields);
      [OPEN_OBJECT] + (Join(seq(|sorted|, i requires 0 <= i < |sorted| =>
        assert sorted[i] in fields;
        QuoteText(sorted[i].0) + ([COLON] + Canonical(sorted[i].1))), [COMMA]) + [CLOSE_OBJECT])
    case Text(s) => QuoteText(s)
    case Num(digits) => digits
    case Bool(b) => if b then Of("true") else Of("false")
    case _ => Of("null")
  }

  /** The values `canonical` cannot tell from null: what `JSON.stringify` writes as null or leaves out. */
  predicate Nullish(j: Json) {
    j.Null? || j.Undefined? || j.NonFinite?
  }

  ghost predicate HasKey<T(!new)>(fields: seq<(Str, T)>, key: Str) {
    exists k :: 0 <= k < |fields| && fields[k].0 == key
  }

  /** Equal as JSON values: whatever the order of the keys of an object. */
  ghost predicate SameJson(a: Json, b: Json) {
    match a
    case Arr(items) =>
      b.Arr? && |items| == |b.items| && forall k :: 0 <= k < |items| ==> SameJson(items[k], b.items[k])
    case Obj(fields) =>
      && b.Obj?
      && (forall k :: 0 <= k < |fields| ==> Matched(fields[k], b.fields))
      && forall m :: 0 <= m < |b.fields| ==> HasKey(fields, b.fields[m].0)
    case Bool(_) => a == b
    case Num(_) => a == b
    case Text(_) => a == b
    case _ => Nullish(b)
  }

  ghost predicate Matched(p: (Str, Json), fields: seq<(Str, Json)>) {
    exists m :: 0 <= m < |fields| && fields[m].0 == p.0 && SameJson(p.1, fields[m].1)
  }

  /** The units that follow a value inside a larger one. */
  predicate IsEnd(u: Unit) {
    u in {COMMA, CLOSE_ARRAY, CLOSE_OBJECT}
  }

  /** Neither text goes on where the other could end. */
  predicate Delimited(p: Str, q: Str) {
    && (|p| < |q| && p == q[..|p|] ==> !IsEnd(q[|p|]))
    && (|q| < |p| && q == p[..|q|] ==> !IsEnd(p[|q|]))
  }

  /** A text of a value or of a member: not empty, and not starting with what ends one. */
  predicate IsPart(p: Str) {
    p != [] && !IsEnd(p[0])
  }

  predicate Ended(x: Str) {
    x == [] || IsEnd(x[0])
  }

  lemma GoesOn(p: Str, x: Str, q: Str, y: Str)
    requires |p| < |q| && p + x == q + y
    ensures p == q[..|p|] && x != [] && q[|p|] == x[0]
  {
    var text := p + x;
    assert p == text[..|p|] == q[..|p|] && q[|p|] == text[|p|];
  }

  lemma DelimitedCut(p: Str, x: Str, q: Str, y: Str)
    requires Delimited(p, q) && Ended(x) && Ended(y) && p + x == q + y
    ensures p == q && x == y
  {
    hide IsEnd;
    if |p| < |q| {
      GoesOn(p, x, q, y);
    } else if |q| < |p| {
      GoesOn(q, y, p, x);
    } else {
      var text := p + x;
      assert p == text[..|p|] == q && x == text[|p|..] == y;
    }
  }

  ghost predicate AllDelimited(ps: seq<Str>, qs: seq<Str>) {
    forall k :: 0 <= k < |ps| && k < |qs| ==> Delimited(ps[k], qs[k])
  }

  ghost predicate AreParts(ps: seq<Str>) {
    forall k :: 0 <= k < |ps| ==> IsPart(ps[k])
  }

  /** A joined list and what follows it: the first part, and then the rest. */
  function Tail(ps: seq<Str>, x: Str): Str
    requires ps != []
  {
    if |ps| == 1 then x else [COMMA] + (Join(ps[1..], [COMMA]) + x)
  }

  lemma JoinTail(ps: seq<Str>, x: Str)
    requires ps != []
    ensures Join(ps, [COMMA]) + x == ps[0] + Tail(ps, x)
  {
    if |ps| > 1 {
      var rest := Join(ps[1..], [COMMA]);
      assert Join(ps, [COMMA]) + x == ps[0] + ([COMMA] + (rest + x));
    }
  }

  /** The rest begins with a comma unless the list is at its end. */
  lemma SameTails(ps: seq<Str>, x: Str, qs: seq<Str>, y: Str)
    requires ps != [] && qs != [] && x != [] && y != [] && x[0] != COMMA && y[0] != COMMA
    requires Tail(ps, x) == Tail(qs, y)
    ensures |ps| == 1 <==> |qs| == 1
    ensures |ps| == 1 ==> x == y
    ensures |ps| > 1 ==> Join(ps[1..], [COMMA]) + x == Join(qs[1..], [COMMA]) + y
  {
    hide Join;
    if |ps| > 1 && |qs| > 1 {
      assert Join(ps[1..], [COMMA]) + x == Tail(ps, x)[1..];
      assert Join(qs[1..], [COMMA]) + y == Tail(qs, y)[1..];
    }
  }

  /** A joined list determines its parts, and where it ends. */
  lemma {:induction false} JoinCut(ps: seq<Str>, x: Str, qs: seq<Str>, y: Str, close: Unit)
    requires AllDelimited(ps, qs) && AreParts(ps) && AreParts(qs)
    requires x != [] && y != [] && x[0] == y[0] == close && close in {CLOSE_ARRAY, CLOSE_OBJECT}
    requires Join(ps, [COMMA]) + x == Join(qs, [COMMA]) + y
    ensures ps == qs && x == y
  {
    if ps == [] || qs == [] {
      EmptyJoin(ps, x, qs, y);
    } else {
      JoinTail(ps, x);
      JoinTail(qs, y);
      hide Delimited, IsPart, Join;
      assert Delimited(ps[0], qs[0]);
      DelimitedCut(ps[0], Tail(ps, x), qs[0], Tail(qs, y));
      SameTails(ps, x, qs, y);
      if |ps| > 1 {
        JoinCut(ps[1..], x, qs[1..], y, close);
      }
      assert ps == [ps[0]] + ps[1..] && qs == [qs[0]] + qs[1..];
    }
  }

  lemma EmptyJoin(ps: seq<Str>, x: Str, qs: seq<Str>, y: Str)
    requires ps == [] || qs == []
    requires AreParts(ps) && AreParts(qs) && x != [] && y != [] && IsEnd(x[0]) && IsEnd(y[0])
    requires Join(ps, [COMMA]) + x == Join(qs, [COMMA]) + y
    ensures ps == qs && x == y
  {
    hide IsEnd;
    StartsLikeAPart(ps, x);
    StartsLikeAPart(qs, y);
    assert Join([], [COMMA]) + x == x && Join([], [COMMA]) + y == y;
  }

  lemma StartsLikeAPart(ps: seq<Str>, x: Str)
    requires AreParts(ps)
    ensures ps != [] ==> IsPart(Join(ps, [COMMA]) + x)
  {
    if ps != [] {
      JoinTail(ps, x);
      assert IsPart(ps[0]);
    }
  }

  // ---- The texts of two values ----

  ghost function ItemTexts(items: seq<Json>): (r: seq<Str>)
    requires forall k :: 0 <= k < |items| ==> IsJson(items[k])
  {
    seq(|items|, i requires 0 <= i < |items| => Canonical(items[i]))
  }

  ghost predicate AreFields(fields: seq<(Str, Json)>) {
    forall k :: 0 <= k < |fields| ==> IsStr(fields[k].0) && IsJson(fields[k].1)
  }

  function MemberText(p: (Str, Json)): Str
    requires IsStr(p.0) && IsJson(p.1)
  {
    QuoteText(p.0) + ([COLON] + Canonical(p.1))
  }

  ghost function MemberTexts(fields: seq<(Str, Json)>): (r: seq<Str>)
    requires AreFields(fields)
  {
    seq(|fields|, i requires 0 <= i < |fields| => MemberText(fields[i]))
  }

  lemma ArrText(items: seq<Json>)
    requires IsJson(Arr(items))
    ensures Canonical(Arr(items)) == [OPEN_ARRAY] + (Join(ItemTexts(items), [COMMA]) + [CLOSE_ARRAY])
  {
    var texts := seq(|items|, i requires 0 <= i < |items| => Canonical(items[i]));
    assert texts == ItemTexts(items);
  }

  lemma SortedFields(fields: seq<(Str, Json)>)
    requires IsJson(Obj(fields))
    ensures AreFields(SortFields(fields)) && Sorted(SortFields(fields))
  {
    SortFieldsSorted(fields);
    forall k | 0 <= k < |SortFields(fields)|
      ensures IsStr(SortFields(fields)[k].0) && IsJson(SortFields(fields)[k].1)
    {
      assert SortFields(fields)[k] in fields;
    }
  }

  lemma ObjText(fields: seq<(Str, Json)>)
    requires IsJson(Obj(fields)) && AreFields(SortFields(fields))
    ensures Canonical(Obj(fields)) == [OPEN_OBJECT] + (Join(MemberTexts(SortFields(fields)), [COMMA]) + [CLOSE_OBJECT])
  {
    var sorted := SortFields(fields);
    var texts := seq(|sorted|, i requires 0 <= i < |sorted| =>
      assert sorted[i] in fields; QuoteText(sorted[i].0) + ([COLON] + Canonical(sorted[i].1)));
    assert texts == MemberTexts(sorted);
    assert Canonical(Obj(fields)) == [OPEN_OBJECT] + (Join(texts, [COMMA]) + [CLOSE_OBJECT]);
  }

  // ---- Nothing else has the same text ----

  /** A bracketed list that starts another one is that one. */
  lemma BracketPrefix(open: Unit, ps: seq<Str>, qs: seq<Str>, close: Unit, rest: Str)
    requires AllDelimited(ps, qs) && AreParts(ps) && AreParts(qs) && close in {CLOSE_ARRAY, CLOSE_OBJECT}
    requires [open] + (Join(ps, [COMMA]) + [close]) + rest == [open] + (Join(qs, [COMMA]) + [close])
    ensures ps == qs && rest == []
  {
    hide AllDelimited, AreParts, Join;
    var text := [open] + (Join(qs, [COMMA]) + [close]);
    assert ([open] + (Join(ps, [COMMA]) + [close]) + rest)[1..] == Join(ps, [COMMA]) + ([close] + rest);
    assert text[1..] == Join(qs, [COMMA]) + [close];
    JoinCut(ps, [close] + rest, qs, [close], close);
  }

  lemma AllDelimitedSymmetric(ps: seq<Str>, qs: seq<Str>)
    requires AllDelimited(ps, qs)
    ensures AllDelimited(qs, ps)
  {
    hide Delimited;
    forall k | 0 <= k < |ps| && k < |qs|
      ensures Delimited(qs[k], ps[k])
    {
      assert Delimited(ps[k], qs[k]);
      DelimitedSymmetric(ps[k], qs[k]);
    }
  }

  lemma DelimitedSymmetric(p: Str, q: Str)
    requires Delimited(p, q)
    ensures Delimited(q, p)
  {
  }

  lemma PrefixRest(p: Str, q: Str)
    requires |p| <= |q| && p == q[..|p|]
    ensures p + q[|p|..] == q
  {
  }

  lemma Bracketed(open: Unit, ps: seq<Str>, qs: seq<Str>, close: Unit)
    requires AllDelimited(ps, qs) && AreParts(ps) && AreParts(qs) && close in {CLOSE_ARRAY, CLOSE_OBJECT}
    ensures var p, q := [open] + (Join(ps, [COMMA]) + [close]), [open] + (Join(qs, [COMMA]) + [close]);
            Delimited(p, q) && (p == q ==> ps == qs)
  {
    hide AllDelimited, AreParts, Join, IsEnd;
    var p, q := [open] + (Join(ps, [COMMA]) + [close]), [open] + (Join(qs, [COMMA]) + [close]);
    if |p| <= |q| && p == q[..|p|] {
      PrefixRest(p, q);
      BracketPrefix(open, ps, qs, close, q[|p|..]);
    } else if |q| < |p| && q == p[..|q|] {
      PrefixRest(q, p);
      AllDelimitedSymmetric(ps, qs);
      BracketPrefix(open, qs, ps, close, p[|q|..]);
    }
  }

  lemma TextsDelimited(a: Str, b: Str)
    requires IsStr(a) && IsStr(b)
    ensures Delimited(QuoteText(a), QuoteText(b)) && (QuoteText(a) == QuoteText(b) ==> a == b)
  {
    hide QuoteText, IsEnd;
    var p, q := QuoteText(a), QuoteText(b);
    if |p| <= |q| && p == q[..|p|] {
      assert p + q[|p|..] == q + [];
      QuoteTextDelimits(a, q[|p|..], b, []);
    } else if |q| < |p| && q == p[..|q|] {
      assert q + p[|q|..] == p + [];
      QuoteTextDelimits(b, p[|q|..], a, []);
    }
  }

  /** A member's text starting another one's has its key, and its value's text starts the other's. */
  lemma MemberPrefix(p: (Str, Json), q: (Str, Json))
    requires IsStr(p.0) && IsJson(p.1) && IsStr(q.0) && IsJson(q.1)
    requires var s, t := MemberText(p), MemberText(q); |s| <= |t| && s == t[..|s|]
    ensures p.0 == q.0 && |Canonical(p.1)| <= |Canonical(q.1)|
    ensures Canonical(p.1) == Canonical(q.1)[..|Canonical(p.1)|]
    ensures var s, t := MemberText(p), MemberText(q);
            |s| < |t| ==> |Canonical(p.1)| < |Canonical(q.1)| && t[|s|] == Canonical(q.1)[|Canonical(p.1)|]
  {
    hide QuoteText, Canonical, IsJson, IsStr;
    var s, t := MemberText(p), MemberText(q);
    var rest := t[|s|..];
    var x, y := [COLON] + Canonical(p.1) + rest, [COLON] + Canonical(q.1);
    assert QuoteText(p.0) + x == s + rest == t == QuoteText(q.0) + y;
    QuoteTextDelimits(p.0, x, q.0, y);
    assert Canonical(p.1) + rest == x[1..] == y[1..] == Canonical(q.1);
  }

  lemma MembersDelimited(p: (Str, Json), q: (Str, Json))
    requires IsStr(p.0) && IsJson(p.1) && IsStr(q.0) && IsJson(q.1)
    requires Delimited(Canonical(p.1), Canonical(q.1))
    ensures Delimited(MemberText(p), MemberText(q))
    ensures MemberText(p) == MemberText(q) ==> p.0 == q.0 && Canonical(p.1) == Canonical(q.1)
  {
    var s, t := MemberText(p), MemberText(q);
    hide MemberText, Canonical, IsJson, IsStr, IsEnd;
    if |s| <= |t| && s == t[..|s|] {
      MemberPrefix(p, q);
    } else if |t| < |s| && t == s[..|t|] {
      MemberPrefix(q, p);
    }
    if s == t {
      MemberPrefix(q, p);
    }
  }

  /** What the first unit of a value's text tells about it. */
  function Kind(u: Unit): nat {
    if u == 110 then 0 else if u == 116 then 1 else if u == 102 then 2
    else if u == QUOTE then 4 else if u == OPEN_ARRAY then 5 else if u == OPEN_OBJECT then 6 else 3
  }

  lemma FirstUnit(j: Json)
    requires IsJson(j)
    ensures IsPart(Canonical(j))
    ensures Kind(Canonical(j)[0]) == match j
              case Bool(b) => if b then 1 else 2
              case Num(_) => 3
              case Text(_) => 4
              case Arr(_) => 5
              case Obj(_) => 6
              case _ => 0
  {
    hide Join, SortFields, SpellAll;
    if j.Num? {
      assert IsNumberUnit(j.digits[0]);
    }
  }

  lemma MemberPart(p: (Str, Json))
    requires IsStr(p.0) && IsJson(p.1)
    ensures IsPart(MemberText(p))
  {
    hide Canonical, SpellAll;
  }

  lemma OtherKind(p: Str, q: Str)
    requires p != [] && q != [] && Kind(p[0]) != Kind(q[0])
    ensures Delimited(p, q) && p != q
  {
    hide Kind;
  }

  lemma NumbersDelimited(p: Str, q: Str)
    requires forall k :: 0 <= k < |p| ==> IsNumberUnit(p[k])
    requires forall k :: 0 <= k < |q| ==> IsNumberUnit(q[k])
    ensures Delimited(p, q)
  {
  }

  lemma ArraysDelimited(xs: seq<Json>, ys: seq<Json>)
    requires IsJson(Arr(xs)) && IsJson(Arr(ys))
    requires forall k :: 0 <= k < |xs| && k < |ys| ==> Delimited(Canonical(xs[k]), Canonical(ys[k]))
    ensures Delimited(Canonical(Arr(xs)), Canonical(Arr(ys)))
    ensures Canonical(Arr(xs)) == Canonical(Arr(ys)) ==>
              |xs| == |ys| && forall k :: 0 <= k < |xs| ==> Canonical(xs[k]) == Canonical(ys[k])
  {
    ArrText(xs);
    ArrText(ys);
    ItemParts(xs);
    ItemParts(ys);
    hide Canonical, Delimited, AreParts, IsJson;
    Bracketed(OPEN_ARRAY, ItemTexts(xs), ItemTexts(ys), CLOSE_ARRAY);
    if ItemTexts(xs) == ItemTexts(ys) {
      assert |xs| == |ItemTexts(xs)| == |ys|;
      assert forall k :: 0 <= k < |xs| ==> Canonical(xs[k]) == ItemTexts(xs)[k] == ItemTexts(ys)[k];
    }
  }

  lemma ItemParts(items: seq<Json>)
    requires forall k :: 0 <= k < |items| ==> IsJson(items[k])
    ensures AreParts(ItemTexts(items))
  {
    hide Canonical, IsPart, IsJson;
    forall k | 0 <= k < |items|
      ensures IsPart(ItemTexts(items)[k])
    {
      FirstUnit(items[k]);
    }
  }

  lemma MemberParts(fields: seq<(Str, Json)>)
    requires AreFields(fields)
    ensures AreParts(MemberTexts(fields))
  {
    hide MemberText, IsPart, IsJson, IsStr;
    forall k | 0 <= k < |fields|
      ensures IsPart(MemberTexts(fields)[k])
    {
      MemberPart(fields[k]);
    }
  }

  ghost predicate ValuesDelimited(fs: seq<(Str, Json)>, gs: seq<(Str, Json)>)
    requires AreFields(fs) && AreFields(gs)
  {
    forall k :: 0 <= k < |fs| && k < |gs| ==> Delimited(Canonical(fs[k].1), Canonical(gs[k].1))
  }

  lemma MembersAllDelimited(fs: seq<(Str, Json)>, gs: seq<(Str, Json)>)
    requires AreFields(fs) && AreFields(gs) && ValuesDelimited(fs, gs)
    ensures AllDelimited(MemberTexts(fs), MemberTexts(gs))
    ensures MemberTexts(fs) == MemberTexts(gs) ==>
              |fs| == |gs| && forall k :: 0 <= k < |fs| ==> fs[k].0 == gs[k].0 && Canonical(fs[k].1) == Canonical(gs[k].1)
  {
    hide MemberText, Canonical, Delimited, IsJson, IsStr;
    var ps, qs := MemberTexts(fs), MemberTexts(gs);
    forall k | 0 <= k < |fs| && k < |gs|
      ensures Delimited(ps[k], qs[k])
      ensures ps[k] == qs[k] ==> fs[k].0 == gs[k].0 && Canonical(fs[k].1) == Canonical(gs[k].1)
    {
      MembersDelimited(fs[k], gs[k]);
    }
    if ps == qs {
      assert |fs| == |ps| == |gs|;
    }
  }

  lemma ObjectsDelimited(fs: seq<(Str, Json)>, gs: seq<(Str, Json)>)
    requires IsJson(Obj(fs)) && IsJson(Obj(gs))
    requires AreFields(SortFields(fs)) && AreFields(SortFields(gs))
    requires ValuesDelimited(SortFields(fs), SortFields(gs))
    ensures Delimited(Canonical(Obj(fs)), Canonical(Obj(gs)))
    ensures Canonical(Obj(fs)) == Canonical(Obj(gs)) ==>
              |fs| == |gs| && forall k :: 0 <= k < |fs| ==>
                && SortFields(fs)[k].0 == SortFields(gs)[k].0
                && Canonical(SortFields(fs)[k].1) == Canonical(SortFields(gs)[k].1)
  {
    ObjText(fs);
    ObjText(gs);
    MemberParts(SortFields(fs));
    MemberParts(SortFields(gs));
    hide Canonical, Delimited, AreParts, IsJson, SortFields, ValuesDelimited, AllDelimited, AreFields;
    MembersAllDelimited(SortFields(fs), SortFields(gs));
    Bracketed(OPEN_OBJECT, MemberTexts(SortFields(fs)), MemberTexts(SortFields(gs)), CLOSE_OBJECT);
  }

  ghost predicate SortedAlike(fs: seq<(Str, Json)>, gs: seq<(Str, Json)>) {
    |fs| == |gs| && forall k :: 0 <= k < |fs| ==>
      SortFields(fs)[k].0 == SortFields(gs)[k].0 && SameJson(SortFields(fs)[k].1, SortFields(gs)[k].1)
  }

  lemma MatchOf(fs: seq<(Str, Json)>, gs: seq<(Str, Json)>, k: nat)
    requires SortedAlike(fs, gs) && k < |fs|
    ensures Matched(fs[k], gs)
  {
    var sa, sb := SortFields(fs), SortFields(gs);
    hide SortFields, SameJson;
    assert fs[k] in sa;
    var i :| 0 <= i < |sa| && sa[i] == fs[k];
    assert sb[i] in gs;
  }

  lemma KeyOf(fs: seq<(Str, Json)>, gs: seq<(Str, Json)>, m: nat)
    requires SortedAlike(fs, gs) && m < |gs|
    ensures HasKey(fs, gs[m].0)
  {
    var sa, sb := SortFields(fs), SortFields(gs);
    hide SortFields, SameJson;
    assert gs[m] in sb;
    var i :| 0 <= i < |sb| && sb[i] == gs[m];
    assert sa[i] in fs;
  }

  /** Matching sorted fields make the same object. */
  lemma SortedMatch(fs: seq<(Str, Json)>, gs: seq<(Str, Json)>)
    requires SortedAlike(fs, gs)
    ensures SameJson(Obj(fs), Obj(gs))
  {
    forall k | 0 <= k < |fs|
      ensures Matched(fs[k], gs)
    {
      MatchOf(fs, gs, k);
    }
    forall m | 0 <= m < |gs|
      ensures HasKey(fs, gs[m].0)
    {
      KeyOf(fs, gs, m);
    }
    hide SortedAlike, HasKey, Matched;
  }

  /** Values with the same text are the same, and no value's text goes on where another's could end. */
  lemma {:induction false} TextDetermines(a: Json, b: Json)
    requires IsJson(a) && IsJson(b)
    ensures Delimited(Canonical(a), Canonical(b))
    ensures Canonical(a) == Canonical(b) ==> SameJson(a, b)
    decreases a
  {
    FirstUnit(a);
    FirstUnit(b);
    if a.Arr? && b.Arr? {
      ArraysDetermined(a, b);
    } else if a.Obj? && b.Obj? {
      ObjectsDetermined(a, b);
    } else if a.Text? && b.Text? {
      TextsDelimited(a.s, b.s);
    } else if a.Num? && b.Num? {
      NumbersDelimited(a.digits, b.digits);
    } else if Kind(Canonical(a)[0]) != Kind(Canonical(b)[0]) {
      hide Canonical;
      OtherKind(Canonical(a), Canonical(b));
    }
  }

  lemma {:induction false} ArraysDetermined(a: Json, b: Json)
    requires IsJson(a) && IsJson(b) && a.Arr? && b.Arr?
    ensures Delimited(Canonical(a), Canonical(b))
    ensures Canonical(a) == Canonical(b) ==> SameJson(a, b)
    decreases a, 0
  {
    forall k | 0 <= k < |a.items| && k < |b.items|
      ensures Delimited(Canonical(a.items[k]), Canonical(b.items[k]))
      ensures Canonical(a.items[k]) == Canonical(b.items[k]) ==> SameJson(a.items[k], b.items[k])
    {
      TextDetermines(a.items[k], b.items[k]);
    }
    hide Canonical, Delimited;
    ArraysDelimited(a.items, b.items);
  }

  lemma {:induction false} ObjectsDetermined(a: Json, b: Json)
    requires IsJson(a) && IsJson(b) && a.Obj? && b.Obj?
    ensures Delimited(Canonical(a), Canonical(b))
    ensures Canonical(a) == Canonical(b) ==> SameJson(a, b)
    decreases a, 0
  {
    var sa, sb := SortFields(a.fields), SortFields(b.fields);
    SortedFields(a.fields);
    SortedFields(b.fields);
    hide SortFields, Canonical, Delimited, SameJson, IsStr, Sorted;
    forall k | 0 <= k < |sa| && k < |sb|
      ensures Delimited(Canonical(sa[k].1), Canonical(sb[k].1))
      ensures Canonical(sa[k].1) == Canonical(sb[k].1) ==> SameJson(sa[k].1, sb[k].1)
    {
      assert sa[k] in a.fields;
      TextDetermines(sa[k].1, sb[k].1);
    }
    ObjectsDelimited(a.fields, b.fields);
    if Canonical(a) == Canonical(b) {
      SortedMatch(a.fields, b.fields);
    }
  }

  // ---- Equal values have one text ----

  /** Two strictly sorted lists with the same keys list them alike. */
  lemma {:induction false} SortedKeys(fs: seq<(Str, Json)>, gs: seq<(Str, Json)>)
    requires Sorted(fs) && Sorted(gs)
    requires forall k :: 0 <= k < |fs| ==> HasKey(gs, fs[k].0)
    requires forall k :: 0 <= k < |gs| ==> HasKey(fs, gs[k].0)
    ensures |fs| == |gs| && forall k :: 0 <= k < |fs| ==> fs[k].0 == gs[k].0
  {
    if fs == [] || gs == [] {
      assert |fs| > 0 ==> HasKey(gs, fs[0].0);
      assert |gs| > 0 ==> HasKey(fs, gs[0].0);
    } else {
      hide Less;
      FirstIsLeast(fs, gs);
      FirstIsLeast(gs, fs);
      LessTotal(fs[0].0, gs[0].0);
      RestKeys(fs, gs);
      RestKeys(gs, fs);
      SortedKeys(fs[1..], gs[1..]);
      assert forall k :: 0 < k < |fs| ==> fs[k] == fs[1..][k - 1];
      assert forall k :: 0 < k < |gs| ==> gs[k] == gs[1..][k - 1];
    }
  }

  lemma FirstIsLeast(fs: seq<(Str, Json)>, gs: seq<(Str, Json)>)
    requires Sorted(gs) && fs != [] && gs != [] && HasKey(gs, fs[0].0)
    ensures !Less(fs[0].0, gs[0].0)
  {
    hide Less;
    var k :| 0 <= k < |gs| && gs[k].0 == fs[0].0;
    LessTotal(gs[0].0, gs[k].0);
    if k > 0 {
      assert Less(gs[0].0, gs[k].0);
    }
  }

  lemma RestKeys(fs: seq<(Str, Json)>, gs: seq<(Str, Json)>)
    requires Sorted(fs) && fs != [] && gs != [] && fs[0].0 == gs[0].0
    requires forall k :: 0 <= k < |fs| ==> HasKey(gs, fs[k].0)
    ensures Sorted(fs[1..]) && forall k :: 0 <= k < |fs[1..]| ==> HasKey(gs[1..], fs[1..][k].0)
  {
    hide Less;
    forall k | 0 <= k < |fs[1..]|
      ensures HasKey(gs[1..], fs[1..][k].0)
    {
      assert HasKey(gs, fs[k + 1].0);
      var m :| 0 <= m < |gs| && gs[m].0 == fs[k + 1].0;
      LessTotal(fs[0].0, fs[k + 1].0);
      assert Less(fs[0].0, fs[k + 1].0);
      assert gs[1..][m - 1].0 == fs[1..][k].0;
    }
  }

  lemma SameKeys(fs: seq<(Str, Json)>, gs: seq<(Str, Json)>)
    requires SameJson(Obj(fs), Obj(gs))
    ensures forall k :: 0 <= k < |SortFields(fs)| ==> HasKey(SortFields(gs), SortFields(fs)[k].0)
    ensures forall k :: 0 <= k < |SortFields(gs)| ==> HasKey(SortFields(fs), SortFields(gs)[k].0)
  {
    var sa, sb := SortFields(fs), SortFields(gs);
    hide SortFields;
    forall k | 0 <= k < |sa|
      ensures HasKey(sb, sa[k].0)
    {
      assert sa[k] in fs;
      var i :| 0 <= i < |fs| && fs[i] == sa[k];
      assert Matched(fs[i], gs);
      var m :| 0 <= m < |gs| && gs[m].0 == fs[i].0 && SameJson(fs[i].1, gs[m].1);
      assert gs[m] in sb;
    }
    forall k | 0 <= k < |sb|
      ensures HasKey(sa, sb[k].0)
    {
      assert sb[k] in gs;
      var m :| 0 <= m < |gs| && gs[m] == sb[k];
      assert HasKey(fs, gs[m].0);
      var i :| 0 <= i < |fs| && fs[i].0 == gs[m].0;
      assert fs[i] in sa;
    }
  }

  /** Sorted fields in the same place hold the same value. */
  lemma SameAt(fs: seq<(Str, Json)>, gs: seq<(Str, Json)>, k: nat)
    requires SameJson(Obj(fs), Obj(gs)) && DistinctKeys(gs)
    requires k < |fs| == |gs| && SortFields(fs)[k].0 == SortFields(gs)[k].0
    ensures SameJson(SortFields(fs)[k].1, SortFields(gs)[k].1)
  {
    var p, q := SortFields(fs)[k], SortFields(gs)[k];
    hide SortFields;
    assert p in fs && q in gs;
    var i :| 0 <= i < |fs| && fs[i] == p;
    assert Matched(fs[i], gs);
    var m :| 0 <= m < |gs| && gs[m].0 == fs[i].0 && SameJson(fs[i].1, gs[m].1);
    var n :| 0 <= n < |gs| && gs[n] == q;
    assert m == n;
  }

  lemma {:induction false} SameText(a: Json, b: Json)
    requires IsJson(a) && IsJson(b) && SameJson(a, b)
    ensures Canonical(a) == Canonical(b)
    decreases a
  {
    if a.Arr? {
      forall k | 0 <= k < |a.items|
        ensures Canonical(a.items[k]) == Canonical(b.items[k])
      {
        SameText(a.items[k], b.items[k]);
      }
      ArrText(a.items);
      ArrText(b.items);
      hide Canonical;
      assert ItemTexts(a.items) == ItemTexts(b.items);
    } else if a.Obj? {
      SameObjects(a, b);
    }
  }

  lemma {:induction false} SameObjects(a: Json, b: Json)
    requires IsJson(a) && IsJson(b) && a.Obj? && SameJson(a, b)
    ensures Canonical(a) == Canonical(b)
    decreases a, 0
  {
    var sa, sb := SortFields(a.fields), SortFields(b.fields);
    SortedFields(a.fields);
    SortedFields(b.fields);
    SameKeys(a.fields, b.fields);
    ObjText(a.fields);
    ObjText(b.fields);
    assert a == Obj(a.fields) && b == Obj(b.fields);
    hide SortFields, Canonical, Sorted, HasKey, IsStr, MemberText, SameJson, Matched, Join;
    SortedKeys(sa, sb);
    forall k | 0 <= k < |sa|
      ensures MemberText(sa[k]) == MemberText(sb[k])
    {
      assert sa[k] in a.fields;
      SameAt(a.fields, b.fields, k);
      SameText(sa[k].1, sb[k].1);
      MemberOf(sa[k], sb[k]);
    }
    assert MemberTexts(sa) == MemberTexts(sb);
  }

  lemma MemberOf(p: (Str, Json), q: (Str, Json))
    requires IsStr(p.0) && IsJson(p.1) && IsStr(q.0) && IsJson(q.1)
    requires p.0 == q.0 && Canonical(p.1) == Canonical(q.1)
    ensures MemberText(p) == MemberText(q)
  {
    hide QuoteText, Canonical;
  }

  /** `canonical` identifies a JSON value: two values have one text exactly when they are equal. */
  lemma Identifies(a: Json, b: Json)
    requires IsJson(a) && IsJson(b)
    ensures Canonical(a) == Canonical(b) <==> SameJson(a, b)
  {
    hide Canonical, SameJson;
    TextDetermines(a, b);
    if SameJson(a, b) {
      SameText(a, b);
    }
  }

  // ---- The sealed header ----

  /** What the public header says of a vault file, and of one part in it. */
  datatype Header = Header(format: Json, bench: Json, revision: Json, kdf: Json, cases: Json, part: Json)

  function HeaderFields(h: Header): seq<(Str, Json)> {
    [(Of("format"), h.format), (Of("bench"), h.bench), (Of("revision"), h.revision),
     (Of("kdf"), h.kdf), (Of("cases"), h.cases), (Of("part"), h.part)]
  }

  ghost predicate IsHeader(h: Header) {
    IsJson(h.format) && IsJson(h.bench) && IsJson(h.revision) && IsJson(h.kdf) && IsJson(h.cases) && IsJson(h.part)
  }

  ghost predicate SameHeader(h: Header, g: Header) {
    && SameJson(h.format, g.format) && SameJson(h.bench, g.bench) && SameJson(h.revision, g.revision)
    && SameJson(h.kdf, g.kdf) && SameJson(h.cases, g.cases) && SameJson(h.part, g.part)
  }

  lemma HeaderKeys(h: Header)
    ensures DistinctKeys(HeaderFields(h))
    ensures forall k :: 0 <= k < 6 ==> IsStr(HeaderFields(h)[k].0)
  {
    var keys := [Of("format"), Of("bench"), Of("revision"), Of("kdf"), Of("cases"), Of("part")];
    assert keys[0][0] == 102 && keys[1][0] == 98 && keys[2][0] == 114 && keys[3][0] == 107
        && keys[4][0] == 99 && keys[5][0] == 112;
    assert forall k :: 0 <= k < 6 ==> HeaderFields(h)[k].0 == keys[k];
  }

  lemma HeaderIsJson(h: Header)
    requires IsHeader(h)
    ensures IsJson(Obj(HeaderFields(h)))
  {
    HeaderKeys(h);
    hide Of, IsStr, DistinctKeys;
  }

  /** The text every sealed part is bound to. */
  ghost function HeaderText(h: Header): Str
    requires IsHeader(h)
  {
    HeaderIsJson(h);
    Canonical(Obj(HeaderFields(h)))
  }

  ghost predicate Aligned(fs: seq<(Str, Json)>, gs: seq<(Str, Json)>) {
    |fs| == |gs| && forall k :: 0 <= k < |fs| ==> fs[k].0 == gs[k].0
  }

  lemma AlignedSame(fs: seq<(Str, Json)>, gs: seq<(Str, Json)>, k: nat)
    requires Aligned(fs, gs) && DistinctKeys(gs) && SameJson(Obj(fs), Obj(gs)) && k < |fs|
    ensures SameJson(fs[k].1, gs[k].1)
  {
    assert Matched(fs[k], gs);
    var m :| 0 <= m < |gs| && gs[m].0 == fs[k].0 && SameJson(fs[k].1, gs[m].1);
    assert m == k;
  }

  lemma SameAligned(fs: seq<(Str, Json)>, gs: seq<(Str, Json)>)
    requires Aligned(fs, gs) && forall k :: 0 <= k < |fs| ==> SameJson(fs[k].1, gs[k].1)
    ensures SameJson(Obj(fs), Obj(gs))
  {
    forall k | 0 <= k < |fs|
      ensures Matched(fs[k], gs) && HasKey(fs, gs[k].0)
    {
      assert fs[k].0 == gs[k].0 && SameJson(fs[k].1, gs[k].1);
    }
    hide HasKey, Matched;
  }

  lemma HeadersMatch(h: Header, g: Header)
    ensures SameJson(Obj(HeaderFields(h)), Obj(HeaderFields(g))) <==> SameHeader(h, g)
  {
    var fs, gs := HeaderFields(h), HeaderFields(g);
    HeaderKeys(g);
    hide Of, IsStr, SameJson, DistinctKeys, Matched;
    if SameHeader(h, g) {
      SameAligned(fs, gs);
    }
    if SameJson(Obj(fs), Obj(gs)) {
      forall k | 0 <= k < 6
        ensures SameJson(fs[k].1, gs[k].1)
      {
        AlignedSame(fs, gs, k);
      }
      assert SameJson(fs[0].1, gs[0].1) && SameJson(fs[1].1, gs[1].1) && SameJson(fs[2].1, gs[2].1);
      assert SameJson(fs[3].1, gs[3].1) && SameJson(fs[4].1, gs[4].1) && SameJson(fs[5].1, gs[5].1);
    }
  }

  /** The text determines the vault's public facts and the part's name. */
  lemma HeaderIdentifies(h: Header, g: Header)
    requires IsHeader(h) && IsHeader(g)
    ensures HeaderText(h) == HeaderText(g) <==> SameHeader(h, g)
  {
    HeaderIsJson(h);
    HeaderIsJson(g);
    hide HeaderFields, Canonical, SameJson, IsJson;
    Identifies(Obj(HeaderFields(h)), Obj(HeaderFields(g)));
    HeadersMatch(h, g);
  }
}
