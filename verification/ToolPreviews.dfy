/**
 * What the one-line previews of tool calls show (packages/cli/src/tool-render.ts): the words of a text
 * on one line, and a call's description and payload as its JSON spells them.
 */
module ToolPreviews {
  import opened CodeUnits
  import opened Text
  import opened Wrappers
  import opened ToolRender
  import opened JsonFields

  // ---- A text on one line ----

  /** A word and the white space after it. */
  datatype Word = Word(units: Str, gap: Str)

  function Spread(lead: Str, words: seq<Word>): Str {
    if words == [] then lead
    else
      var last := words[|words| - 1];
      Spread(lead, words[..|words| - 1]) + last.units + last.gap
  }

  /** Words hold no white space, and some stands between any two of them. */
  ghost predicate AreWords(lead: Str, words: seq<Word>) {
    && AllSpace(lead)
    && forall k :: 0 <= k < |words| ==>
         && words[k].units != [] && (forall i :: 0 <= i < |words[k].units| ==> !IsSpace(words[k].units[i]))
         && AllSpace(words[k].gap) && (k < |words| - 1 ==> words[k].gap != [])
  }

  /** The words with one space between them. */
  function OneLine(words: seq<Word>): Str {
    if words == [] then []
    else if |words| == 1 then words[0].units
    else OneLine(words[..|words| - 1]) + [32] + words[|words| - 1].units
  }

  predicate EndsInSpace(s: Str) {
    s != [] && IsSpace(s[|s| - 1])
  }

  /** What collapsing leaves before the trailing space is trimmed. */
  lemma {:induction false} TrimmedIs(s: Str)
    ensures TrimStart(Collapse(s)) == ToSingleLine(s) + if EndsInSpace(s) && ToSingleLine(s) != [] then [32] else []
  {
    if s != [] {
      var a, u := s[..|s| - 1], s[|s| - 1];
      assert s == a + [u];
      TrimmedIs(a);
      SingleLineSnoc(a, u);
      TrimStartSnoc(Collapse(a), if IsSpace(u) then 32 else u);
      TrimEndSnoc(TrimStart(Collapse(a)), if IsSpace(u) then 32 else u);
      if IsSpace(u) && EndsInSpace(a) {
        assert Collapse(s) == Collapse(a);
      } else {
        assert Collapse(s) == Collapse(a) + [if IsSpace(u) then 32 else u];
      }
    }
  }

  /** A unit of a word follows the line, after a space if white space came before. */
  lemma UnitFollows(s: Str, u: Unit)
    requires !IsSpace(u)
    ensures ToSingleLine(s + [u]) == ToSingleLine(s) + (if EndsInSpace(s) && ToSingleLine(s) != [] then [32] else []) + [u]
  {
    TrimmedIs(s);
    assert (s + [u])[..|s|] == s;
    assert Collapse(s + [u]) == Collapse(s) + [u];
    TrimStartSnoc(Collapse(s), u);
    TrimEndSnoc(TrimStart(Collapse(s)), u);
  }

  lemma {:induction false} WordFollows(s: Str, w: Str)
    requires w != [] && forall i :: 0 <= i < |w| ==> !IsSpace(w[i])
    ensures ToSingleLine(s + w) == ToSingleLine(s) + (if EndsInSpace(s) && ToSingleLine(s) != [] then [32] else []) + w
    ensures !EndsInSpace(s + w) && ToSingleLine(s + w) != []
  {
    var n := |w| - 1;
    if n == 0 {
      assert w == [w[0]];
      UnitFollows(s, w[0]);
    } else {
      WordFollows(s, w[..n]);
      assert s + w == (s + w[..n]) + [w[n]] && w == w[..n] + [w[n]];
      UnitFollows(s + w[..n], w[n]);
    }
  }

  lemma GapFollows(s: Str, gap: Str)
    requires AllSpace(gap)
    ensures ToSingleLine(s + gap) == ToSingleLine(s)
  {
    assert (s + gap)[|s|..] == gap;
    SingleLineExtends(s, s + gap);
  }

  /** On one line a text keeps its words, in order, with exactly one space between any two. */
  lemma {:induction false} WordsAreKept(lead: Str, words: seq<Word>)
    requires AreWords(lead, words)
    ensures ToSingleLine(Spread(lead, words)) == OneLine(words)
  {
    if words == [] {
      GapFollows([], lead);
      assert [] + lead == lead;
    } else {
      var n := |words| - 1;
      var front, last, before := words[..n], words[n], Spread(lead, words[..n]);
      assert words == front + [last];
      assert AreWords(lead, front);
      WordsAreKept(lead, front);
      WordFollows(before, last.units);
      GapFollows(before + last.units, last.gap);
      hide ToSingleLine;
      if n == 0 {
        assert OneLine(front) == [] && [] + last.units == last.units;
      } else {
        SpreadEnds(lead, front);
      }
    }
  }

  /** Words are not nothing, and the last one's gap ends the text. */
  lemma SpreadEnds(lead: Str, words: seq<Word>)
    requires AreWords(lead, words) && words != []
    ensures OneLine(words) != []
    ensures words[|words| - 1].gap != [] ==> EndsInSpace(Spread(lead, words))
  {
    var last := words[|words| - 1];
    var s := Spread(lead, words);
    if last.gap != [] {
      assert s[|s| - 1] == last.gap[|last.gap| - 1];
    }
  }

  /** Every text is words and white space. */
  lemma {:induction false} HasWords(s: Str) returns (lead: Str, words: seq<Word>)
    ensures AreWords(lead, words) && Spread(lead, words) == s
  {
    if s == [] {
      lead, words := [], [];
    } else {
      var a, u := s[..|s| - 1], s[|s| - 1];
      assert s == a + [u];
      lead, words := HasWords(a);
      hide AreWords, Spread;
      if words == [] && IsSpace(u) {
        LeadGrows(lead, u);
        lead := lead + [u];
      } else if words == [] || (!IsSpace(u) && words[|words| - 1].gap != []) {
        words := WordBegins(lead, words, u);
      } else {
        words := LastGrows(lead, words, u);
      }
    }
  }

  lemma LeadGrows(lead: Str, u: Unit)
    requires AreWords(lead, []) && IsSpace(u)
    ensures AreWords(lead + [u], []) && Spread(lead + [u], []) == Spread(lead, []) + [u]
  {
  }

  lemma WordBegins(lead: Str, words: seq<Word>, u: Unit) returns (more: seq<Word>)
    requires AreWords(lead, words) && !IsSpace(u) && (words != [] ==> words[|words| - 1].gap != [])
    ensures AreWords(lead, more) && Spread(lead, more) == Spread(lead, words) + [u]
  {
    more := words + [Word([u], [])];
    assert more[..|words|] == words;
    hide IsSpace, AllSpace;
    assert Spread(lead, words) + [u] + [] == Spread(lead, words) + [u];
  }

  /** The last word, or the white space after it, goes on. */
  lemma LastGrows(lead: Str, words: seq<Word>, u: Unit) returns (more: seq<Word>)
    requires AreWords(lead, words) && words != [] && (IsSpace(u) || words[|words| - 1].gap == [])
    ensures AreWords(lead, more) && Spread(lead, more) == Spread(lead, words) + [u]
  {
    var n := |words| - 1;
    var front, last := words[..n], words[n];
    var next := if IsSpace(u) then last.(gap := last.gap + [u]) else last.(units := last.units + [u]);
    more := front + [next];
    assert more[..n] == front && more[n] == next;
    assert Spread(lead, more) == Spread(lead, front) + next.units + next.gap;
    hide Spread, IsSpace;
    LastUnit(Spread(lead, front), last.units, last.gap, u);
  }

  lemma LastUnit(a: Str, b: Str, c: Str, u: Unit)
    ensures a + b + (c + [u]) == a + b + c + [u]
    ensures c == [] ==> a + (b + [u]) + c == a + b + c + [u]
  {
  }

  /** `toSingleLine` of any text. */
  lemma SingleLineIsWords(s: Str) returns (lead: Str, words: seq<Word>)
    ensures AreWords(lead, words) && Spread(lead, words) == s && ToSingleLine(s) == OneLine(words)
  {
    lead, words := HasWords(s);
    WordsAreKept(lead, words);
  }

  // ---- What a call shows ----

  /** The argument that a tool runs: the field of that name was found, and its value is `value`. */
  ghost predicate Runs(tool: Tool, args: Str, value: Str) {
    if tool == ExecCommand then
      Field(args, Of("cmd")) == Some(PartialField(value, true))
      || (Field(args, Of("cmd")) == None && Field(args, Of("command")) == Some(PartialField(value, true)))
    else Field(args, Of("prompt")) == Some(PartialField(value, true))
  }

  /** The description is read: its schema has one, or the arguments are whole. */
  ghost predicate Looks(args: Str, opts: Options, complete: Str -> bool) {
    opts.expectDescription || opts.final || complete(args)
  }

  /** At most 120 units, and an ellipsis where there were more. */
  function Capped(s: Str): (c: Str)
    ensures c == CapPreview(s)
  {
    if |s| <= 120 then s else s[..120] + [0x2026]
  }

  /** The line of a described command, and of a described subagent. */
  function DescribedLine(tool: Tool, description: Str, value: Str): Str {
    if tool == ExecCommand then
      Of("exec_command <- ") + Capped(ToSingleLine(description)) + Of(" ($ ") + ToSingleLine(value) + Of(")")
    else
      Of("run_subagent <- ") + Capped(ToSingleLine(description)) + Of(" (") + Capped(ToSingleLine(value)) + Of(")")
  }

  function PlainLine(tool: Tool, value: Str): Str {
    if tool == ExecCommand then Of("exec_command <- $ ") + ToSingleLine(value)
    else Of("run_subagent <- ") + Capped(ToSingleLine(value))
  }

  lemma PayloadIs(tool: Tool, args: Str, value: Str)
    requires Runs(tool, args, value)
    ensures Payload(tool, args) == Some(PartialField(value, true)) && args != []
  {
    NotEmpty(args, Of(if tool == RunSubagent then "prompt" else if Field(args, Of("cmd")).Some? then "cmd" else "command"));
    hide Field, Of;
  }

  lemma DescribedFormIs(tool: Tool, description: Str, value: Str)
    ensures DescribedForm(Name(tool), CapPreview(ToSingleLine(description)), PayloadText(tool, value), true)
              == DescribedLine(tool, description, value)
  {
    var text, line, arrow := CapPreview(ToSingleLine(description)), ToSingleLine(value), Of(" <- ");
    if tool == ExecCommand {
      assert Of("exec_command <- ") == Of("exec_command") + arrow && Of(" ($ ") == Of(" (") + Of("$ ");
      hide *;
      Unnest(Of("exec_command") + arrow + text, Of(" ("), Of("$ "), line);
    } else {
      assert Of("run_subagent <- ") == Of("run_subagent") + arrow;
    }
  }

  lemma PlainFormIs(tool: Tool, value: Str)
    ensures Name(tool) + Of(" <- ") + PayloadText(tool, value) == PlainLine(tool, value)
  {
    var line, arrow := ToSingleLine(value), Of(" <- ");
    if tool == ExecCommand {
      assert Of("exec_command <- $ ") == Of("exec_command") + arrow + Of("$ ");
      hide *;
      Assoc3(Of("exec_command") + arrow, Of("$ "), line);
    } else {
      assert Of("run_subagent <- ") == Of("run_subagent") + arrow;
    }
  }

  lemma Assoc3(a: Str, b: Str, c: Str)
    ensures a + (b + c) == (a + b) + c
  {
  }

  lemma Unnest(a: Str, b: Str, c: Str, d: Str)
    ensures a + b + (c + d) == a + (b + c) + d
  {
  }

  /** A whole call is shown with its description and what it runs. */
  lemma DescribedCallShows(tool: Tool, args: Str, description: Str, value: Str, opts: Options, complete: Str -> bool)
    requires Runs(tool, args, value) && Looks(args, opts, complete)
    requires Field(args, Of("description")) == Some(PartialField(description, true)) && ToSingleLine(description) != []
    ensures Preview(tool, args, opts, complete) == Some(DescribedLine(tool, description, value))
  {
    PayloadIs(tool, args, value);
    DescribedFormIs(tool, description, value);
    IsDescribed(args, description, opts, complete);
    hide Field, ToSingleLine, CapPreview, Of, Name, Payload, PayloadText, DescribedForm, DescribedLine, Runs, DescribedState, Looks;
  }

  lemma IsDescribed(args: Str, description: Str, opts: Options, complete: Str -> bool)
    requires Looks(args, opts, complete)
    requires Field(args, Of("description")) == Some(PartialField(description, true)) && ToSingleLine(description) != []
    ensures DescribedState(args, opts, complete) == Described(CapPreview(ToSingleLine(description)), true)
  {
    hide Field, ToSingleLine, CapPreview, Of;
  }

  lemma NotEmpty(args: Str, name: Str)
    requires Field(args, name).Some?
    ensures args != []
  {
    assert IndexOf([], Key(name), 0) == None;
  }

  /** Without a description, or when none is read, it is shown by what it runs. */
  lemma PlainCallShows(tool: Tool, args: Str, value: Str, opts: Options, complete: Str -> bool)
    requires Runs(tool, args, value)
    requires !Looks(args, opts, complete)
             || ((opts.final || complete(args))
                 && (Field(args, Of("description")) == None || ToSingleLine(Field(args, Of("description")).value.value) == []))
    ensures Preview(tool, args, opts, complete) == Some(PlainLine(tool, value))
  {
    PayloadIs(tool, args, value);
    PlainFormIs(tool, value);
    hide Field, ToSingleLine, CapPreview, Of, Name, Payload, PayloadText, DescribedForm, PlainLine, Runs;
  }

  /** While a description is awaited and has nothing to show, neither has the call. */
  lemma AwaitedCallIsBlank(tool: Tool, args: Str, opts: Options, complete: Str -> bool)
    requires opts.expectDescription && !opts.final && !complete(args)
    requires Field(args, Of("description")) == None || ToSingleLine(Field(args, Of("description")).value.value) == []
    ensures Preview(tool, args, opts, complete) == None
  {
    hide Field, ToSingleLine, Of;
  }

  /**
   * From JSON to the line: a call whose arguments spell a description and a command, anywhere and in
   * any spelling, none of the strings before them ending in their names, shows both.
   */
  lemma CallIsShown(tool: Tool, d: Arrived, p: Arrived, opts: Options, complete: Str -> bool)
    requires IsArrived(d) && NoneCollides(d.before, d.name) && d.name == Of("description")
    requires IsArrived(p) && NoneCollides(p.before, p.name) && p.name == Of(if tool == ExecCommand then "cmd" else "prompt")
    requires ArrivedText(d) == ArrivedText(p) && Looks(ArrivedText(d), opts, complete)
    requires ToSingleLine(ValueOf(d.value)) != []
    ensures Preview(tool, ArrivedText(d), opts, complete) == Some(DescribedLine(tool, ValueOf(d.value), ValueOf(p.value)))
  {
    hide Field, ToSingleLine, Preview, DescribedLine, ArrivedText, NoneCollides, Looks;
    ExtractsTheField(d);
    ExtractsTheField(p);
    DescribedCallShows(tool, ArrivedText(d), ValueOf(d.value), ValueOf(p.value), opts, complete);
  }
}
