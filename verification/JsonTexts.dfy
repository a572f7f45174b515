/**
 * JSON texts (sections 2 to 7 of RFC 8259), and what cutting one short means for the previews of
 * streamed arguments: no proper prefix of an object's text is a JSON text.
 */
module JsonTexts {
  import opened CodeUnits
  import opened ToolRender
  import opened JsonFields

  /**
   * A value as it is written: a number or a literal name, a string by its pieces, and lists with the
   * white space around their items.
   */
  datatype Value =
    | Scalar(units: Str)
    | Chars(pieces: seq<Piece>)
    | Array(blank: Str, items: seq<Item>)
    | Object(blank: Str, members: seq<Member>)

  datatype Item = Item(before: Str, value: Value, after: Str)

  datatype Member = Member(before: Str, key: seq<Piece>, between: Str, item: Item)

  const OPEN_ARRAY: Unit := 91
  const CLOSE_ARRAY: Unit := 93
  const OPEN_OBJECT: Unit := 123
  const CLOSE_OBJECT: Unit := 125

  predicate IsBlank(s: Str) {
    forall k :: 0 <= k < |s| ==> s[k] in {32, 9, 10, 13}
  }

  /** The units of numbers and of `true`, `false` and `null`; more than is a scalar passes here. */
  predicate IsScalar(s: Str) {
    s != [] && forall k :: 0 <= k < |s| ==>
      48 <= s[k] <= 57 || 97 <= s[k] <= 122 || s[k] in {43, 45, 46, 69}
  }

  ghost predicate IsValue(v: Value) {
    match v
    case Scalar(units) => IsScalar(units)
    case Chars(pieces) => ArePieces(pieces)
    case Array(blank, items) => IsBlank(blank) && forall k :: 0 <= k < |items| ==> IsItem(items[k])
    case Object(blank, members) => IsBlank(blank) && forall k :: 0 <= k < |members| ==> IsMember(members[k])
  }

  ghost predicate IsItem(item: Item) {
    IsBlank(item.before) && IsValue(item.value) && IsBlank(item.after)
  }

  ghost predicate IsMember(m: Member) {
    IsBlank(m.before) && ArePieces(m.key) && IsBlank(m.between) && IsItem(m.item)
  }

  function TextOfValue(v: Value): Str {
    match v
    case Scalar(units) => units
    case Chars(pieces) => Quoted(pieces)
    case Array(blank, items) => [OPEN_ARRAY] + (if items == [] then blank else ItemsText(items)) + [CLOSE_ARRAY]
    case Object(blank, members) => [OPEN_OBJECT] + (if members == [] then blank else MembersText(members)) + [CLOSE_OBJECT]
  }

  function ItemText(item: Item): Str {
    item.before + TextOfValue(item.value) + item.after
  }

  function MemberText(m: Member): Str {
    m.before + Quoted(m.key) + (m.between + [COLON]) + ItemText(m.item)
  }

  function ItemsText(items: seq<Item>): Str {
    if items == [] then []
    else if |items| == 1 then ItemText(items[0])
    else ItemText(items[0]) + [COMMA] + ItemsText(items[1..])
  }

  function MembersText(members: seq<Member>): Str {
    if members == [] then []
    else if |members| == 1 then MemberText(members[0])
    else MemberText(members[0]) + [COMMA] + MembersText(members[1..])
  }

  // ---- Counting brackets ----

  /** Outside strings, inside one, or after a backslash in one; and the open brackets. */
  datatype Scan = Outside(depth: int) | Inside(depth: int) | Escaped(depth: int)

  function Step(s: Scan, u: Unit): Scan {
    match s
    case Outside(d) =>
      if u == QUOTE then Inside(d)
      else if u == OPEN_ARRAY || u == OPEN_OBJECT then Outside(d + 1)
      else if u == CLOSE_ARRAY || u == CLOSE_OBJECT then Outside(d - 1)
      else s
    case Inside(d) => if u == BACKSLASH then Escaped(d) else if u == QUOTE then Outside(d) else s
    case Escaped(d) => Inside(d)
  }

  function ScanAll(s: Scan, text: Str): Scan {
    if text == [] then s else Step(ScanAll(s, text[..|text| - 1]), text[|text| - 1])
  }

  lemma {:induction false} ScanAppend(s: Scan, a: Str, b: Str)
    ensures ScanAll(s, a + b) == ScanAll(ScanAll(s, a), b)
  {
    if b == [] {
      assert a + b == a;
    } else {
      ScanAppend(s, a, b[..|b| - 1]);
      assert (a + b)[..|a + b| - 1] == a + b[..|b| - 1];
    }
  }

  /** No prefix of the text closes more than it opens, and the whole leaves nothing open. */
  ghost predicate Balanced(text: Str, d: int) {
    && ScanAll(Outside(d), text) == Outside(d)
    && forall k :: 0 <= k <= |text| ==> ScanAll(Outside(d), text[..k]).depth >= d
  }

  lemma BalancedBoth(a: Str, b: Str, d: int)
    requires Balanced(a, d) && Balanced(b, d)
    ensures Balanced(a + b, d)
  {
    ScanAppend(Outside(d), a, b);
    hide ScanAll;
    forall k | 0 <= k <= |a + b|
      ensures ScanAll(Outside(d), (a + b)[..k]).depth >= d
    {
      if k <= |a| {
        assert (a + b)[..k] == a[..k];
      } else {
        assert (a + b)[..k] == a + b[..k - |a|];
        ScanAppend(Outside(d), a, b[..k - |a|]);
      }
    }
  }

  predicate IsPlain(text: Str) {
    forall k :: 0 <= k < |text| ==> text[k] !in {QUOTE, OPEN_ARRAY, CLOSE_ARRAY, OPEN_OBJECT, CLOSE_OBJECT}
  }

  lemma {:induction false} PlainStays(text: Str, d: int)
    requires IsPlain(text)
    ensures ScanAll(Outside(d), text) == Outside(d)
  {
    if text != [] {
      PlainStays(text[..|text| - 1], d);
    }
  }

  lemma PlainBalanced(text: Str, d: int)
    requires IsPlain(text)
    ensures Balanced(text, d)
  {
    hide ScanAll;
    PlainStays(text, d);
    forall k | 0 <= k <= |text|
      ensures ScanAll(Outside(d), text[..k]).depth >= d
    {
      PlainStays(text[..k], d);
    }
  }

  // ---- Strings ----

  /** A piece leaves the scan inside the string, and never outside on its way. */
  ghost predicate StaysInside(text: Str, d: int) {
    && ScanAll(Inside(d), text) == Inside(d)
    && forall k :: 0 <= k <= |text| ==> !ScanAll(Inside(d), text[..k]).Outside? && ScanAll(Inside(d), text[..k]).depth == d
  }

  lemma PieceInside(p: Piece, d: int)
    requires IsPiece(p)
    ensures StaysInside(Spell(p), d)
  {
    match p
    case Raw(u) => OneUnit(u, d);
    case Short(e) => TwoUnits(e, d);
    case Hex(digits) => HexUnits(digits, d);
  }

  lemma OneUnit(u: Unit, d: int)
    requires u != QUOTE && u != BACKSLASH
    ensures StaysInside([u], d)
  {
    assert [u][..0] == [] && [u][..1] == [u];
  }

  lemma TwoUnits(e: Unit, d: int)
    ensures StaysInside([BACKSLASH, e], d)
  {
    var text := [BACKSLASH, e];
    assert text[..0] == [] && text[..1] == [BACKSLASH] && [BACKSLASH][..0] == [] && text[..2] == text;
    assert ScanAll(Inside(d), []) == Inside(d);
    assert ScanAll(Inside(d), text[..1]) == Escaped(d);
    assert ScanAll(Inside(d), text) == Step(ScanAll(Inside(d), text[..1]), e);
  }

  lemma InsideBoth(a: Str, b: Str, d: int)
    requires StaysInside(a, d) && StaysInside(b, d)
    ensures StaysInside(a + b, d)
  {
    ScanAppend(Inside(d), a, b);
    hide ScanAll;
    forall k | 0 <= k <= |a + b|
      ensures !ScanAll(Inside(d), (a + b)[..k]).Outside? && ScanAll(Inside(d), (a + b)[..k]).depth == d
    {
      if k <= |a| {
        assert (a + b)[..k] == a[..k];
      } else {
        assert (a + b)[..k] == a + b[..k - |a|];
        ScanAppend(Inside(d), a, b[..k - |a|]);
      }
    }
  }

  lemma HexUnits(digits: Str, d: int)
    requires IsFourHex(digits)
    ensures StaysInside([BACKSLASH, LETTER_U] + digits, d)
  {
    var a, b, c, e := [digits[0]], [digits[1]], [digits[2]], [digits[3]];
    TwoUnits(LETTER_U, d);
    OneUnit(digits[0], d);
    OneUnit(digits[1], d);
    OneUnit(digits[2], d);
    OneUnit(digits[3], d);
    hide StaysInside;
    InsideBoth([BACKSLASH, LETTER_U], a, d);
    InsideBoth([BACKSLASH, LETTER_U] + a, b, d);
    InsideBoth([BACKSLASH, LETTER_U] + a + b, c, d);
    InsideBoth([BACKSLASH, LETTER_U] + a + b + c, e, d);
    assert [BACKSLASH, LETTER_U] + digits == [BACKSLASH, LETTER_U] + a + b + c + e;
  }

  lemma {:induction false} SpellingInside(ps: seq<Piece>, d: int)
    requires ArePieces(ps)
    ensures StaysInside(SpellAll(ps), d)
  {
    if ps == [] {
      assert SpellAll(ps)[..0] == [];
    } else {
      assert IsPiece(ps[0]);
      PieceInside(ps[0], d);
      SpellingInside(ps[1..], d);
      hide StaysInside, Spell;
      InsideBoth(Spell(ps[0]), SpellAll(ps[1..]), d);
    }
  }

  lemma QuotedBalanced(ps: seq<Piece>, d: int)
    requires ArePieces(ps)
    ensures Balanced(Quoted(ps), d)
  {
    var s := SpellAll(ps);
    SpellingInside(ps, d);
    hide SpellAll;
    assert [QUOTE][..0] == [] && ScanAll(Outside(d), [QUOTE]) == Inside(d);
    assert ScanAll(Inside(d), [QUOTE]) == Outside(d);
    hide ScanAll;
    forall k | 0 <= k <= |Quoted(ps)|
      ensures ScanAll(Outside(d), Quoted(ps)[..k]).depth >= d
    {
      QuotedPrefix(s, d, k);
    }
    ScanAppend(Outside(d), [QUOTE], s);
    ScanAppend(Outside(d), [QUOTE] + s, [QUOTE]);
  }

  lemma QuotedPrefix(s: Str, d: int, k: nat)
    requires StaysInside(s, d) && k <= |s| + 2
    ensures ScanAll(Outside(d), ([QUOTE] + s + [QUOTE])[..k]).depth == d
  {
    var text := [QUOTE] + s + [QUOTE];
    assert [QUOTE][..0] == [] && ScanAll(Outside(d), [QUOTE]) == Inside(d);
    assert ScanAll(Inside(d), [QUOTE]) == Outside(d);
    if k == 0 {
      assert text[..k] == [];
    } else if k <= |s| + 1 {
      assert text[..k] == [QUOTE] + s[..k - 1];
      ScanAppend(Outside(d), [QUOTE], s[..k - 1]);
    } else {
      assert text[..k] == [QUOTE] + s + [QUOTE];
      ScanAppend(Outside(d), [QUOTE], s);
      ScanAppend(Outside(d), [QUOTE] + s, [QUOTE]);
    }
  }

  // ---- Lists ----

  /** Between its brackets a list is one deeper. */
  lemma EnclosedPrefix(open: Unit, inner: Str, close: Unit, d: int, k: nat)
    requires open in {OPEN_ARRAY, OPEN_OBJECT} && Balanced(inner, d + 1) && 0 < k < |inner| + 2
    ensures ScanAll(Outside(d), ([open] + inner + [close])[..k]).depth >= d + 1
  {
    assert [open][..0] == [] && ScanAll(Outside(d), [open]) == Outside(d + 1);
    hide ScanAll;
    assert ([open] + inner + [close])[..k] == [open] + inner[..k - 1];
    ScanAppend(Outside(d), [open], inner[..k - 1]);
  }

  lemma Enclosed(open: Unit, inner: Str, close: Unit, d: int)
    requires open in {OPEN_ARRAY, OPEN_OBJECT} && close in {CLOSE_ARRAY, CLOSE_OBJECT} && Balanced(inner, d + 1)
    ensures Balanced([open] + inner + [close], d)
  {
    var text := [open] + inner + [close];
    assert [open][..0] == [] && ScanAll(Outside(d), [open]) == Outside(d + 1);
    assert [close][..0] == [] && ScanAll(Outside(d + 1), [close]) == Outside(d);
    assert text[..0] == [] && ScanAll(Outside(d), []) == Outside(d);
    hide ScanAll;
    ScanAppend(Outside(d), [open], inner);
    ScanAppend(Outside(d), [open] + inner, [close]);
    forall k | 0 <= k <= |text|
      ensures ScanAll(Outside(d), text[..k]).depth >= d
    {
      if 0 < k < |text| {
        EnclosedPrefix(open, inner, close, d, k);
      } else if k == |text| {
        assert text[..k] == text;
      }
    }
  }

  lemma {:induction false} ValueBalanced(v: Value, d: int)
    requires IsValue(v)
    ensures Balanced(TextOfValue(v), d)
    decreases v
  {
    hide Balanced;
    match v
    case Scalar(units) => PlainBalanced(units, d);
    case Chars(pieces) => QuotedBalanced(pieces, d);
    case Array(blank, items) =>
      InsideBalanced(v, d + 1);
      Enclosed(OPEN_ARRAY, InnerText(v), CLOSE_ARRAY, d);
    case Object(blank, members) =>
      InsideBalanced(v, d + 1);
      Enclosed(OPEN_OBJECT, InnerText(v), CLOSE_OBJECT, d);
  }

  /** What stands between the brackets of a list. */
  function InnerText(v: Value): Str
    requires v.Array? || v.Object?
  {
    if v.Array? then (if v.items == [] then v.blank else ItemsText(v.items))
    else if v.members == [] then v.blank else MembersText(v.members)
  }

  lemma {:induction false} InsideBalanced(v: Value, d: int)
    requires IsValue(v) && (v.Array? || v.Object?)
    ensures Balanced(InnerText(v), d)
    decreases v, 0
  {
    hide Balanced;
    PlainBalanced(v.blank, d);
    if v.Array? {
      ItemsBalanced(v.items, d);
    } else {
      MembersBalanced(v.members, d);
    }
  }

  lemma {:induction false} ItemBalanced(item: Item, d: int)
    requires IsItem(item)
    ensures Balanced(ItemText(item), d)
    decreases item
  {
    PlainBalanced(item.before, d);
    PlainBalanced(item.after, d);
    hide Balanced;
    ValueBalanced(item.value, d);
    BalancedBoth(item.before, TextOfValue(item.value), d);
    BalancedBoth(item.before + TextOfValue(item.value), item.after, d);
  }

  lemma {:induction false} ItemsBalanced(items: seq<Item>, d: int)
    requires forall k :: 0 <= k < |items| ==> IsItem(items[k])
    ensures Balanced(ItemsText(items), d)
    decreases items
  {
    PlainBalanced([], d);
    PlainBalanced([COMMA], d);
    hide Balanced, IsItem, ItemText;
    if items != [] {
      ItemBalanced(items[0], d);
      ItemsBalanced(items[1..], d);
      BalancedBoth(ItemText(items[0]), [COMMA], d);
      BalancedBoth(ItemText(items[0]) + [COMMA], ItemsText(items[1..]), d);
    }
  }

  lemma {:induction false} MemberBalanced(m: Member, d: int)
    requires IsMember(m)
    ensures Balanced(MemberText(m), d)
    decreases m
  {
    PlainBalanced(m.before, d);
    PlainBalanced(m.between + [COLON], d);
    QuotedBalanced(m.key, d);
    hide Balanced, Quoted, ItemText;
    ItemBalanced(m.item, d);
    BalancedBoth(m.before, Quoted(m.key), d);
    BalancedBoth(m.before + Quoted(m.key), m.between + [COLON], d);
    BalancedBoth(m.before + Quoted(m.key) + (m.between + [COLON]), ItemText(m.item), d);
  }

  lemma {:induction false} MembersBalanced(members: seq<Member>, d: int)
    requires forall k :: 0 <= k < |members| ==> IsMember(members[k])
    ensures Balanced(MembersText(members), d)
    decreases members
  {
    PlainBalanced([], d);
    PlainBalanced([COMMA], d);
    hide Balanced, IsMember, MemberText;
    if members != [] {
      MemberBalanced(members[0], d);
      MembersBalanced(members[1..], d);
      BalancedBoth(MemberText(members[0]), [COMMA], d);
      BalancedBoth(MemberText(members[0]) + [COMMA], MembersText(members[1..]), d);
    }
  }

  // ---- Cutting an object's text short ----

  /** What `JSON.parse` accepts at most: a value with white space around it. */
  ghost predicate Parses(text: Str) {
    exists before, v, after :: IsBlank(before) && IsValue(v) && IsBlank(after) && text == before + TextOfValue(v) + after
  }

  lemma ParsesToZero(text: Str)
    requires Parses(text)
    ensures ScanAll(Outside(0), text) == Outside(0) && !IsBlank(text)
  {
    var before, v, after :| IsBlank(before) && IsValue(v) && IsBlank(after) && text == before + TextOfValue(v) + after;
    ItemBalanced(Item(before, v, after), 0);
    NotBlank(v);
    hide TextOfValue, ScanAll;
    assert text[|before|..|before| + |TextOfValue(v)|] == TextOfValue(v);
    if IsBlank(text) {
      BlankPart(text, |before|, |before| + |TextOfValue(v)|);
    }
  }

  lemma BlankPart(s: Str, i: nat, j: nat)
    requires i <= j <= |s| && IsBlank(s)
    ensures IsBlank(s[i..j])
  {
  }

  lemma BlankStart(lead: Str, text: Str, p: Str)
    requires IsBlank(lead) && p <= lead + text && |p| <= |lead|
    ensures IsBlank(p)
  {
    assert forall k :: 0 <= k < |p| ==> p[k] == lead[k];
  }

  lemma NotBlank(v: Value)
    requires IsValue(v)
    ensures !IsBlank(TextOfValue(v))
  {
    hide ItemsText, MembersText, SpellAll;
    var first := TextOfValue(v)[0];
    assert first !in {32, 9, 10, 13};
  }

  /** Cut short, an object's text is blank or leaves its bracket open. */
  lemma CutIsOpen(lead: Str, inner: Str, p: Str)
    requires IsBlank(lead) && Balanced(inner, 1)
    requires var text := [OPEN_OBJECT] + inner + [CLOSE_OBJECT]; p < lead + text
    ensures IsBlank(p) || ScanAll(Outside(0), p).depth >= 1
  {
    var text, n := [OPEN_OBJECT] + inner + [CLOSE_OBJECT], |lead|;
    hide Balanced, ScanAll;
    if |p| <= n {
      BlankStart(lead, text, p);
    } else {
      PlainStays(lead, 0);
      assert p == lead + text[..|p| - n];
      ScanAppend(Outside(0), lead, text[..|p| - n]);
      EnclosedPrefix(OPEN_OBJECT, inner, CLOSE_OBJECT, 0, |p| - n);
    }
  }

  /** Of all prefixes of an object's text only the whole of it is a JSON text. */
  lemma OnlyTheWholeParses(lead: Str, v: Value, p: Str)
    requires IsBlank(lead) && IsValue(v) && v.Object? && p <= lead + TextOfValue(v) && Parses(p)
    ensures p == lead + TextOfValue(v)
  {
    ParsesToZero(p);
    InsideBalanced(v, 1);
    assert TextOfValue(v) == [OPEN_OBJECT] + InnerText(v) + [CLOSE_OBJECT];
    hide TextOfValue, InnerText, Parses, IsValue, ScanAll, Balanced, IsBlank;
    if p != lead + TextOfValue(v) {
      CutIsOpen(lead, InnerText(v), p);
    }
  }

  /**
   * The arguments of a call are the text of one JSON object, as much of it as has arrived: from `p`,
   * with some of the object still to come, to `q` the preview is extended, if a description is
   * expected, or none is there to show.
   */
  lemma StreamedPreviewExtends(tool: Tool, lead: Str, v: Value, trail: Str, p: Str, q: Str, po: Options, qo: Options,
                               complete: Str -> bool)
    requires IsBlank(lead) && IsValue(v) && v.Object?
    requires p <= q && q <= lead + TextOfValue(v) + trail && (p < lead + TextOfValue(v) || p == q)
    requires forall text :: complete(text) ==> Parses(text)
    requires po.expectDescription == qo.expectDescription && !po.final && OnePayload(tool, p, q)
    requires po.expectDescription || DescribedState(q, qo, complete) == NoDescription
    ensures AppendsTo(Preview(tool, p, po, complete), Preview(tool, q, qo, complete))
  {
    hide Preview, AppendsTo, DescribedState, OnePayload, TextOfValue, Parses;
    if p < lead + TextOfValue(v) && complete(p) {
      OnlyTheWholeParses(lead, v, p);
    }
    PreviewExtends(tool, p, q, po, qo, complete);
  }
}
