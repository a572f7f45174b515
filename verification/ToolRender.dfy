/**
 * Reading a string field out of JSON that is still arriving, and the one-line preview built from
 * it (packages/cli/src/tool-render.ts). What is on the screen must only ever be extended.
 */
module ToolRender {
  import opened CodeUnits
  import opened Text
  import opened Wrappers

  /** The value so far, and whether its closing quote was seen. */
  datatype PartialField = PartialField(value: Str, complete: bool)

  /** What `\s` matches, and `trim` removes. */
  predicate IsSpace(u: Unit) {
    9 <= u <= 13 || u in {32, 0xA0, 0x1680, 0x2028, 0x2029, 0x202F, 0x205F, 0x3000, 0xFEFF} || 0x2000 <= u <= 0x200A
  }

  predicate AllSpace(s: Str) {
    forall k :: 0 <= k < |s| ==> IsSpace(s[k])
  }

  // ---- Where the field's value starts ----

  /** The first index of `key` at or after `from`. */
  function IndexOf(s: Str, key: Str, from: nat): (i: Option<nat>)
    requires from <= |s|
    ensures i.Some? ==> from <= i.value && i.value + |key| <= |s| && Stands(s, key, i.value) && forall k :: from <= k < i.value ==> !Stands(s, key, k)
    ensures i.None? ==> forall k :: from <= k ==> !Stands(s, key, k)
    decreases |s| - from
  {
    if Stands(s, key, from) then Some(from)
    else if from == |s| then None
    else IndexOf(s, key, from + 1)
  }

  function SkipSpace(s: Str, i: nat): (j: nat)
    requires i <= |s|
    ensures i <= j <= |s| && AllSpace(s[i..j]) && (j < |s| ==> !IsSpace(s[j]))
    decreases |s| - i
  {
    if i < |s| && IsSpace(s[i]) then
      var j := SkipSpace(s, i + 1);
      assert forall k :: 0 <= k < j - i ==> s[i..j][k] == if k == 0 then s[i] else s[i + 1..j][k - 1];
      j
    else i
  }

  function Key(field: Str): Str {
    [QUOTE] + field + [QUOTE]
  }

  const COLON: Unit := 58

  /** From `i` on: a colon and the value's opening quote, with whitespace before each. */
  function AfterKey(s: Str, i: nat): (start: Option<nat>)
    requires i <= |s|
    ensures start.Some? ==> start.value <= |s|
  {
    var colon := SkipSpace(s, i);
    if colon == |s| || s[colon] != COLON then None
    else
      var quote := SkipSpace(s, colon + 1);
      if quote == |s| || s[quote] != QUOTE then None else Some(quote + 1)
  }

  /** Where the value starts that follows the first occurrence of the key. */
  function ValueStart(s: Str, field: Str): (start: Option<nat>)
    ensures start.Some? ==> start.value <= |s|
  {
    var k := IndexOf(s, Key(field), 0);
    if k.None? then None else AfterKey(s, k.value + |Key(field)|)
  }

  // ---- The value, decoded as far as it has arrived ----

  function ShortEscape(e: Unit): Unit {
    if e == 110 then 10       // n
    else if e == 114 then 13  // r
    else if e == 116 then 9   // t
    else if e == 98 then 8    // b
    else if e == 102 then 12  // f
    else e
  }

  const LETTER_U: Unit := 117

  predicate IsFourHex(s: Str) {
    |s| == 4 && IsHex(s[0]) && IsHex(s[1]) && IsHex(s[2]) && IsHex(s[3])
  }

  /** `s` is what follows the opening quote. */
  function Decode(s: Str): PartialField {
    if s == [] then PartialField([], false)
    else if s[0] == QUOTE then PartialField([], true)
    else if s[0] != BACKSLASH then Before([s[0]], Decode(s[1..]))
    else if |s| == 1 then PartialField([], false)
    else if s[1] != LETTER_U then Before([ShortEscape(s[1])], Decode(s[2..]))
    else if |s| < 6 then PartialField([], false)
    else if IsFourHex(s[2..6]) then Before([FourHex(s[2..6])], Decode(s[6..]))
    else Decode(s[2..])
  }

  function Before(units: Str, field: PartialField): PartialField {
    field.(value := units + field.value)
  }

  function Field(s: Str, field: Str): Option<PartialField> {
    var start := ValueStart(s, field);
    if start.None? then None else Some(Decode(s[start.value..]))
  }

  lemma BeforeTwice(a: Str, b: Str, f: PartialField)
    ensures Before(a, Before(b, f)) == Before(a + b, f)
  {
    assert a + (b + f.value) == (a + b) + f.value;
  }

  /** `extractField`: one pass over the value. */
  method ExtractField(argsJson: Str, field: Str) returns (r: Option<PartialField>)
    ensures r == Field(argsJson, field)
  {
    var key := Key(field);
    var keyIndex := IndexOf(argsJson, key, 0);
    if keyIndex.None? {
      return None;
    }
    var i := SkipSpace(argsJson, keyIndex.value + |key|);
    if i == |argsJson| || argsJson[i] != COLON {
      return None;
    }
    i := SkipSpace(argsJson, i + 1);
    if i == |argsJson| || argsJson[i] != QUOTE {
      return None;
    }
    i := i + 1;
    var value := DecodeFrom(argsJson, i);
    return Some(value);
  }

  method DecodeFrom(s: Str, start: nat) returns (r: PartialField)
    requires start <= |s|
    ensures r == Decode(s[start..])
  {
    var i, out, escaped: bool := start, [], false;
    while i < |s|
      invariant start <= i <= |s| && (escaped ==> start < i && s[i - 1] == BACKSLASH)
      invariant Decode(s[start..]) == Before(out, Decode(s[if escaped then i - 1 else i..]))
    {
      var ch := s[i];
      ghost var was := s[if escaped then i - 1 else i..];
      if escaped {
        assert was[0] == BACKSLASH && was[1] == ch;
        if ch == LETTER_U {
          if i + 5 > |s| {
            assert out + [] == out;
            return PartialField(out, false);
          }
          var hex := s[i + 1..i + 5];
          assert was[2..6] == hex && was[2..] == s[i + 1..] && was[6..] == s[i + 5..];
          if IsFourHex(hex) {
            BeforeTwice(out, [FourHex(hex)], Decode(s[i + 5..]));
            out := out + [FourHex(hex)];
            i := i + 4;
          }
        } else {
          assert was[2..] == s[i + 1..];
          BeforeTwice(out, [ShortEscape(ch)], Decode(s[i + 1..]));
          out := out + [ShortEscape(ch)];
        }
        escaped := false;
      } else if ch == BACKSLASH {
        escaped := true;
      } else if ch == QUOTE {
        assert out + [] == out;
        return PartialField(out, true);
      } else {
        assert was[1..] == s[i + 1..];
        BeforeTwice(out, [ch], Decode(s[i + 1..]));
        out := out + [ch];
      }
      i := i + 1;
    }
    assert out + [] == out;
    return PartialField(out, false);
  }

  // ---- More text only extends what was read ----

  /** The value goes on from `p` to `q`; a complete value stays as it is. */
  ghost predicate Extends(p: PartialField, q: PartialField) {
    p.value <= q.value && (p.complete ==> q == p)
  }

  lemma {:induction false} DecodeExtends(p: Str, q: Str)
    requires p <= q
    ensures Extends(Decode(p), Decode(q))
    decreases |p|
  {
    if p != [] && p[0] != QUOTE {
      if p[0] != BACKSLASH {
        DecodeExtends(p[1..], q[1..]);
      } else if |p| > 1 && p[1] != LETTER_U {
        DecodeExtends(p[2..], q[2..]);
      } else if |p| >= 6 {
        assert p[2..6] == q[2..6];
        if IsFourHex(p[2..6]) {
          DecodeExtends(p[6..], q[6..]);
        } else {
          DecodeExtends(p[2..], q[2..]);
        }
      }
    }
  }

  lemma {:induction false} IndexExtends(p: Str, q: Str, key: Str, from: nat)
    requires p <= q && from <= |p| && IndexOf(p, key, from).Some?
    ensures IndexOf(q, key, from) == IndexOf(p, key, from)
    decreases |p| - from
  {
    assert from + |key| <= |p| ==> p[from..from + |key|] == q[from..from + |key|];
    if !Stands(p, key, from) {
      assert !Stands(q, key, from) by {
        if from + |key| > |p| {
          NotLate(p, key, from);
        }
      }
      IndexExtends(p, q, key, from + 1);
    }
  }

  /** A key that is found is found before the text gets too short for it. */
  lemma NotLate(p: Str, key: Str, from: nat)
    requires from <= |p| && IndexOf(p, key, from).Some?
    ensures from + |key| <= IndexOf(p, key, from).value + |key| <= |p|
  {
  }

  lemma {:induction false} SkipExtends(p: Str, q: Str, i: nat)
    requires p <= q && i <= |p|
    ensures SkipSpace(p, i) < |p| ==> SkipSpace(q, i) == SkipSpace(p, i)
    ensures SkipSpace(p, i) == |p| ==> SkipSpace(q, i) >= |p|
    decreases |p| - i
  {
    if i < |p| && IsSpace(p[i]) {
      SkipExtends(p, q, i + 1);
    }
  }

  lemma StartExtends(p: Str, q: Str, field: Str)
    requires p <= q && ValueStart(p, field).Some?
    ensures ValueStart(q, field) == ValueStart(p, field)
  {
    hide IndexOf, SkipSpace, Stands, AllSpace, IsSpace;
    var key := Key(field);
    IndexExtends(p, q, key, 0);
    var i := IndexOf(p, key, 0).value + |key|;
    assert i <= |p| by {
      NotLate(p, key, 0);
    }
    SkipExtends(p, q, i);
    SkipExtends(p, q, SkipSpace(p, i) + 1);
  }

  /** Any two prefixes of one text, JSON or not: a field once seen only grows, and then stays. */
  lemma FieldExtends(p: Str, q: Str, field: Str)
    requires p <= q && Field(p, field).Some?
    ensures Field(q, field).Some? && Extends(Field(p, field).value, Field(q, field).value)
  {
    StartExtends(p, q, field);
    var start := ValueStart(p, field).value;
    DecodeExtends(p[start..], q[start..]);
  }

  // ---- Single-lining and capping ----

  /** Each run of whitespace becomes one space. */
  function Collapse(s: Str): Str {
    if s == [] then []
    else
      var n := |s| - 1;
      if !IsSpace(s[n]) then Collapse(s[..n]) + [s[n]]
      else if n > 0 && IsSpace(s[n - 1]) then Collapse(s[..n])
      else Collapse(s[..n]) + [32]
  }

  function TrimStart(s: Str): Str {
    if s != [] && IsSpace(s[0]) then TrimStart(s[1..]) else s
  }

  function TrimEnd(s: Str): (t: Str)
    ensures t <= s
  {
    if s != [] && IsSpace(s[|s| - 1]) then TrimEnd(s[..|s| - 1]) else s
  }

  function ToSingleLine(s: Str): Str {
    TrimEnd(TrimStart(Collapse(s)))
  }

  const MAX_PAYLOAD_PREVIEW := 120
  const ELLIPSIS: Unit := 0x2026

  function CapPreview(s: Str): Str {
    if |s| > MAX_PAYLOAD_PREVIEW then s[..MAX_PAYLOAD_PREVIEW] + [ELLIPSIS] else s
  }

  lemma {:induction false} TrimStartSnoc(s: Str, u: Unit)
    ensures TrimStart(s + [u]) == if TrimStart(s) == [] && IsSpace(u) then [] else TrimStart(s) + [u]
  {
    if s == [] {
      assert [] + [u] == [u] && [u][1..] == [];
    } else if IsSpace(s[0]) {
      assert (s + [u])[1..] == s[1..] + [u];
      TrimStartSnoc(s[1..], u);
    }
  }

  lemma TrimEndSnoc(s: Str, u: Unit)
    ensures TrimEnd(s + [u]) == if IsSpace(u) then TrimEnd(s) else s + [u]
  {
    assert (s + [u])[..|s|] == s;
  }

  /** One more character keeps a single line, or lengthens it. */
  lemma SingleLineSnoc(s: Str, u: Unit)
    ensures ToSingleLine(s) <= ToSingleLine(s + [u])
    ensures IsSpace(u) ==> ToSingleLine(s + [u]) == ToSingleLine(s)
  {
    assert (s + [u])[..|s|] == s;
    var line := Collapse(s);
    var more: Unit := if IsSpace(u) then 32 else u;
    TrimStartSnoc(line, more);
    TrimEndSnoc(TrimStart(line), more);
  }

  lemma {:induction false} SingleLineExtends(p: Str, q: Str)
    requires p <= q
    ensures ToSingleLine(p) <= ToSingleLine(q)
    ensures AllSpace(q[|p|..]) ==> ToSingleLine(q) == ToSingleLine(p)
    decreases |q|
  {
    if |p| < |q| {
      var n := |q| - 1;
      assert q == q[..n] + [q[n]];
      assert q[|p|..][n - |p|] == q[n] && q[..n][|p|..] == q[|p|..][..n - |p|];
      SingleLineExtends(p, q[..n]);
      SingleLineSnoc(q[..n], q[n]);
    } else {
      assert p == q;
    }
  }

  lemma CapExtends(p: Str, q: Str)
    requires p <= q
    ensures CapPreview(p) <= CapPreview(q)
  {
  }

  // ---- The previews of `exec_command` and `run_subagent` ----

  datatype Description = Pending | NoDescription | Described(text: Str, complete: bool)

  /** Whether the schema carries a description, and whether the call's stream has ended. */
  datatype Options = Options(expectDescription: bool, final: bool)

  /** `complete` is whether `JSON.parse` accepts the arguments. */
  function DescribedState(args: Str, opts: Options, complete: Str -> bool): Description {
    var settled := opts.final || complete(args);
    if !settled && !opts.expectDescription then NoDescription
    else
      var field := Field(args, Of("description"));
      var text := if field.None? then [] else ToSingleLine(field.value.value);
      if text == [] then (if settled then NoDescription else Pending)
      else Described(CapPreview(text), field.value.complete)
  }

  datatype Tool = ExecCommand | RunSubagent

  function Name(tool: Tool): Str {
    if tool == ExecCommand then Of("exec_command") else Of("run_subagent")
  }

  /** The payload field: `command` is the alias core accepts for `cmd`. */
  function Payload(tool: Tool, args: Str): Option<PartialField> {
    if tool == RunSubagent then Field(args, Of("prompt"))
    else
      var cmd := Field(args, Of("cmd"));
      if cmd.Some? then cmd else Field(args, Of("command"))
  }

  function PayloadText(tool: Tool, value: Str): Str {
    if tool == ExecCommand then Of("$ ") + ToSingleLine(value) else CapPreview(ToSingleLine(value))
  }

  function DescribedForm(name: Str, desc: Str, payload: Str, closed: bool): Str {
    name + Of(" <- ") + desc + Of(" (") + payload + (if closed then Of(")") else [])
  }

  /** A described call: the payload is appended once the description is complete. */
  function DescribedPreview(tool: Tool, args: Str, desc: Description): Str
    requires desc.Described?
  {
    var payload := Payload(tool, args);
    if !desc.complete || payload.None? then Name(tool) + Of(" <- ") + desc.text
    else DescribedForm(Name(tool), desc.text, PayloadText(tool, payload.value.value), payload.value.complete)
  }

  /** `renderPartialToolCall`; `None` while nothing presentable has arrived. */
  function Preview(tool: Tool, args: Str, opts: Options, complete: Str -> bool): Option<Str> {
    if args == [] then None
    else
      var desc, payload := DescribedState(args, opts, complete), Payload(tool, args);
      match desc
      case Pending => None
      case Described(_, _) => Some(DescribedPreview(tool, args, desc))
      case NoDescription =>
        if payload.None? then None else Some(Name(tool) + Of(" <- ") + PayloadText(tool, payload.value.value))
  }

  /** A preview is replaced by one that starts with it; nothing on the screen is superseded. */
  ghost predicate AppendsTo(p: Option<Str>, q: Option<Str>) {
    p.Some? ==> q.Some? && p.value <= q.value
  }

  lemma FrontExtends(front: Str, p: Str, q: Str)
    requires p <= q
    ensures front + p <= front + q
  {
  }

  lemma PayloadTextExtends(tool: Tool, p: Str, q: Str)
    requires p <= q
    ensures PayloadText(tool, p) <= PayloadText(tool, q)
  {
    SingleLineExtends(p, q);
    if tool == ExecCommand {
      FrontExtends(Of("$ "), ToSingleLine(p), ToSingleLine(q));
    } else {
      CapExtends(ToSingleLine(p), ToSingleLine(q));
    }
  }

  /** The payload stays in the field it was first seen in. */
  ghost predicate OnePayload(tool: Tool, p: Str, q: Str) {
    tool == ExecCommand && Field(p, Of("command")).Some? && Field(q, Of("cmd")).Some? ==> Field(p, Of("cmd")).Some?
  }

  lemma PayloadExtends(tool: Tool, p: Str, q: Str)
    requires p <= q && OnePayload(tool, p, q) && Payload(tool, p).Some?
    ensures Payload(tool, q).Some? && Extends(Payload(tool, p).value, Payload(tool, q).value)
  {
    hide Field;
    if tool == RunSubagent {
      FieldExtends(p, q, Of("prompt"));
    } else if Field(p, Of("cmd")).Some? {
      FieldExtends(p, q, Of("cmd"));
    } else {
      FieldExtends(p, q, Of("command"));
    }
  }

  /** A description that shows only grows; a complete one stays. */
  lemma DescriptionExtends(p: Str, q: Str, po: Options, qo: Options, complete: Str -> bool)
    requires p <= q && po.expectDescription == qo.expectDescription && (po.final ==> qo.final)
    requires complete(p) ==> q == p
    requires DescribedState(p, po, complete).Described?
    ensures var d, e := DescribedState(p, po, complete), DescribedState(q, qo, complete);
            e.Described? && d.text <= e.text && (d.complete ==> e == d)
  {
    var name := Of("description");
    assert Field(p, name).Some?;
    FieldExtends(p, q, name);
    hide Field, ToSingleLine, CapPreview;
    var a, b := Field(p, name).value.value, Field(q, name).value.value;
    SingleLineExtends(a, b);
    CapExtends(ToSingleLine(a), ToSingleLine(b));
  }

  /**
   * The arguments grew from `p` to `q`. With a description to expect, or none there to show, the
   * preview is extended. No proper prefix of an object's text parses, so `p` parses only as `q`.
   */
  lemma PreviewExtends(tool: Tool, p: Str, q: Str, po: Options, qo: Options, complete: Str -> bool)
    requires p <= q && po.expectDescription == qo.expectDescription && !po.final
    requires complete(p) ==> q == p
    requires OnePayload(tool, p, q)
    requires po.expectDescription || DescribedState(q, qo, complete) == NoDescription
    ensures AppendsTo(Preview(tool, p, po, complete), Preview(tool, q, qo, complete))
  {
    hide Field, ToSingleLine, CapPreview, PayloadText, Payload, OnePayload;
    var d, e := DescribedState(p, po, complete), DescribedState(q, qo, complete);
    var name := Name(tool) + Of(" <- ");
    if d.Described? {
      DescriptionExtends(p, q, po, qo, complete);
      DescribedExtends(tool, p, q, d, e);
    } else if d == NoDescription && Payload(tool, p).Some? && p != [] {
      PayloadExtends(tool, p, q);
      PayloadTextExtends(tool, Payload(tool, p).value.value, Payload(tool, q).value.value);
      assert e == NoDescription;
    }
  }

  lemma DescribedExtends(tool: Tool, p: Str, q: Str, d: Description, e: Description)
    requires p <= q && OnePayload(tool, p, q)
    requires d.Described? && e.Described? && d.text <= e.text && (d.complete ==> e == d)
    ensures DescribedPreview(tool, p, d) <= DescribedPreview(tool, q, e)
  {
    hide PayloadText, Payload, OnePayload, Of;
    if d.complete && Payload(tool, p).Some? {
      PayloadExtends(tool, p, q);
      PayloadTextExtends(tool, Payload(tool, p).value.value, Payload(tool, q).value.value);
    }
  }

  /**
   * Why the schema is asked first: a plain preview on the screen is superseded when the arguments
   * turn out to carry a description (one that does not itself begin like the plain form).
   */
  lemma StrayDescriptionSupersedes(tool: Tool, p: Str, q: Str, opts: Options, complete: Str -> bool)
    requires !opts.expectDescription && !opts.final && !complete(p) && p != [] && Payload(tool, p).Some?
    requires DescribedState(q, opts, complete).Described?
    ensures var plain, d := PayloadText(tool, Payload(tool, p).value.value), DescribedState(q, opts, complete);
            plain != [] && d.text[0] != plain[0] ==>
              !AppendsTo(Preview(tool, p, opts, complete), Preview(tool, q, opts, complete))
  {
    hide Field, ToSingleLine, Payload, PayloadText, Of;
    var front := Name(tool) + Of(" <- ");
    var plain, d := PayloadText(tool, Payload(tool, p).value.value), DescribedState(q, opts, complete);
    var before, after := Preview(tool, p, opts, complete), Preview(tool, q, opts, complete);
    if plain != [] && after.Some? {
      assert before.value[|front|] == plain[0];
      assert after.value[|front|] == d.text[0];
    }
  }

  /** An `exec_command` call does this whose description comes last: `$ ` was shown, and then `x`. */
  lemma StrayDescriptionSeen(p: Str, q: Str, opts: Options, complete: Str -> bool)
    requires p == Of("{\"cmd\":\"\"") && q == Of("{\"cmd\":\"\",\"description\":\"x\"}")
    requires !opts.expectDescription && !opts.final && !complete(p) && complete(q)
    ensures p <= q && !AppendsTo(Preview(ExecCommand, p, opts, complete), Preview(ExecCommand, q, opts, complete))
  {
    FirstCommand(p);
    OnlyDescription(q);
    LetterStays(120);
    hide Field, ToSingleLine, DescribedForm, Preview, AppendsTo;
    assert DescribedState(q, opts, complete) == Described([120], true);
    assert PayloadText(ExecCommand, Payload(ExecCommand, p).value.value)[0] == Of("$ ")[0];
    StrayDescriptionSupersedes(ExecCommand, p, q, opts, complete);
  }

  lemma LetterStays(u: Unit)
    requires !IsSpace(u)
    ensures ToSingleLine([u]) == [u]
  {
    assert Collapse([u]) == Collapse([]) + [u];
  }

  lemma FirstCommand(p: Str)
    requires p == Of("{\"cmd\":\"\"")
    ensures Field(p, Of("cmd")).Some?
  {
    var key := Key(Of("cmd"));
    StandsAt(p, key, 0, 0);
    assert IndexOf(p, key, 0) == Some(1);
    assert p[6] == COLON && p[7] == QUOTE;
  }

  lemma DescriptionIndex(q: Str)
    requires q == Of("{\"cmd\":\"\",\"description\":\"x\"}")
    ensures IndexOf(q, Key(Of("description")), 0) == Some(10)
  {
    var key := Key(Of("description"));
    forall k | 0 <= k < 10
      ensures !Stands(q, key, k)
    {
      StandsAt(q, key, k, 0);
      StandsAt(q, key, k, 1);
    }
    assert forall k :: 0 <= k < 13 ==> q[10 + k] == key[k];
    hide *;
    StandsFrom(q, key, 10);
  }

  lemma OnlyDescription(q: Str)
    requires q == Of("{\"cmd\":\"\",\"description\":\"x\"}")
    ensures Field(q, Of("description")) == Some(PartialField([120], true))
  {
    DescriptionIndex(q);
    assert |q| == 28 && q[23] == COLON && q[24] == QUOTE && q[25] == 120 && q[26] == QUOTE;
    DescriptionValue(q, Of("description"));
  }

  lemma DescriptionValue(q: Str, name: Str)
    requires |q| == 28 && q[23] == COLON && q[24] == QUOTE && q[25] == 120 && q[26] == QUOTE
    requires |name| == 11 && IndexOf(q, Key(name), 0) == Some(10)
    ensures Field(q, name) == Some(PartialField([120], true))
  {
    hide IndexOf;
    assert ValueStart(q, name) == Some(25);
    assert q[25..][0] == 120 && q[25..][1..] == q[26..] && q[26..][0] == QUOTE;
    assert Decode(q[26..]) == PartialField([], true);
    assert Decode(q[25..]) == Before([120], Decode(q[26..]));
    assert Decode(q[25..]).value == [120] + [] == [120];
  }
}
