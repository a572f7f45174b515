/** Helpers on sequences shared by the text machines. */
module Text {

  /** The text that a list of chunks carries. */
  function Concat(chunks: seq<string>): string {
    if chunks == [] then "" else Concat(chunks[..|chunks| - 1]) + chunks[|chunks| - 1]
  }

  /** Joins parts with `sep`, as `Array.prototype.join` does. */
  function Join<T>(parts: seq<seq<T>>, sep: seq<T>): seq<T> {
    if |parts| == 0 then [] else if |parts| == 1 then parts[0] else parts[0] + sep + Join(parts[1..], sep)
  }

  /** A line without the one CR that may end it. */
  function StripCr(line: string): string {
    if |line| > 0 && line[|line| - 1] == '\r' then line[..|line| - 1] else line
  }

  /** `m` stands at index `i` of `s`. */
  predicate Stands<T(==)>(s: seq<T>, m: seq<T>, i: nat) {
    i + |m| <= |s| && s[i..i + |m|] == m
  }

  lemma StandsAt<T>(s: seq<T>, m: seq<T>, i: nat, k: nat)
    requires k < |m|
    ensures Stands(s, m, i) ==> s[i + k] == m[k]
  {
    if Stands(s, m, i) {
      assert s[i..i + |m|][k] == s[i + k];
    }
  }

  lemma StandsFrom<T>(s: seq<T>, m: seq<T>, i: nat)
    requires i + |m| <= |s| && forall k :: 0 <= k < |m| ==> s[i + k] == m[k]
    ensures Stands(s, m, i)
  {
    assert s[i..i + |m|] == m;
  }

  /** The first index of `c` in `s`, or `|s|` when there is none. */
  function Find(s: string, c: char): (i: nat)
    ensures i <= |s| && c !in s[..i] && (i < |s| ==> s[i] == c)
  {
    if s == "" || s[0] == c then 0
    else
      assert s[1..][..Find(s[1..], c)] == s[1..Find(s[1..], c) + 1];
      assert s[..Find(s[1..], c) + 1] == [s[0]] + s[1..Find(s[1..], c) + 1];
      Find(s[1..], c) + 1
  }

  /** An index that ends a `c`-free prefix at a `c` is the one `Find` returns. */
  lemma {:induction false} FindUnique(s: string, c: char, i: nat)
    requires i < |s| && s[i] == c && c !in s[..i]
    ensures Find(s, c) == i
  {
    if i > 0 {
      assert s[0] in s[..i] && s[1..][..i - 1] == s[..i][1..];
      FindUnique(s[1..], c, i - 1);
    }
  }

  /** Moving a character and what precedes it from the front of `rest` to the end of `taken`. */
  lemma MoveAcross(taken: string, rest: string, i: nat)
    requires i < |rest|
    ensures taken + rest[..i] + [rest[i]] + rest[i + 1..] == taken + rest
  {
    assert rest == rest[..i] + [rest[i]] + rest[i + 1..];
  }

  lemma Assoc(a: string, b: string, c: string)
    ensures (a + b) + c == a + (b + c)
  {
  }
}
