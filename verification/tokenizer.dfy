/**
 * The tokenizer applied to `reply_to_customer` before it is streamed:
 * `re.findall(r'\s+|\w+|[^\w\s]', reply)`.  Every character is whitespace, a
 * word character or neither, so the matches partition the text into maximal
 * whitespace runs, maximal word runs and single other characters.
 */
module Tokenizer {
  import opened Text

  datatype Class = Space | Word | Punct

  /** The alternative of the pattern a character belongs to. */
  function ClassOf(c: char): Class {
    if IsSpace(c) then Space else if IsWord(c) then Word else Punct
  }

  /** Every character of `t` belongs to class `k`. */
  predicate Uniform(t: string, k: Class) {
    forall i :: 0 <= i < |t| ==> ClassOf(t[i]) == k
  }

  /** A string one match of the pattern can produce. */
  predicate IsToken(t: string) {
    |t| > 0 && Uniform(t, ClassOf(t[0])) && (ClassOf(t[0]) == Punct ==> |t| == 1)
  }

  /** Token `b` may follow token `a`: they could not have been one longer match. */
  predicate Separate(a: string, b: string) {
    a == [] || b == [] || ClassOf(a[0]) != ClassOf(b[0]) || ClassOf(a[0]) == Punct
  }

  /** No two neighbouring tokens could have been one longer match. */
  predicate Maximal(ts: seq<string>) {
    forall i :: 0 <= i < |ts| - 1 ==> Separate(ts[i], ts[i + 1])
  }

  /** Length of the longest prefix of `s` whose characters are all of class `k`. */
  function RunLength(s: string, k: Class): (n: nat)
    ensures n <= |s|
    ensures Uniform(s[..n], k)
    ensures n < |s| ==> ClassOf(s[n]) != k
  {
    if s == [] || ClassOf(s[0]) != k then 0
    else
      var m := RunLength(s[1..], k);
      assert s[..1 + m] == [s[0]] + s[1..][..m];
      1 + m
  }

  /** Length of the match at the start of a non-empty `s`. */
  function MatchLength(s: string): (n: nat)
    requires s != []
    ensures 1 <= n <= |s|
    ensures IsToken(s[..n])
    ensures ClassOf(s[0]) != Punct && n < |s| ==> ClassOf(s[n]) != ClassOf(s[0])
  {
    if ClassOf(s[0]) == Punct then 1 else RunLength(s, ClassOf(s[0]))
  }

  /** The list `re.findall` returns. */
  function Tokenize(s: string): (ts: seq<string>)
    ensures Concat(ts) == s
    ensures forall i :: 0 <= i < |ts| ==> IsToken(ts[i])
    ensures Maximal(ts)
    decreases |s|
  {
    if s == [] then []
    else
      var n := MatchLength(s);
      var rest := Tokenize(s[n..]);
      assert s == s[..n] + s[n..];
      [s[..n]] + rest
  }

  /** When the first token does not cover `s`, a second token starts right after it. */
  lemma NextTokenStart(s: string, ts: seq<string>)
    requires Concat(ts) == s
    requires forall i :: 0 <= i < |ts| ==> IsToken(ts[i])
    requires |ts| >= 1 && |ts[0]| < |s|
    ensures |ts| >= 2 && |ts[1]| > 0 && ts[1][0] == s[|ts[0]|]
  {
    assert s == ts[0] + Concat(ts[1..]);
    assert Concat(ts[1..]) == s[|ts[0]|..];
    assert ts[1..] != [];
    assert IsToken(ts[1]);
    assert Concat(ts[1..]) == ts[1] + Concat(ts[2..]);
  }

  /** In a maximal split of `s` into tokens, the first token is exactly the match at the start of `s`. */
  lemma FirstTokenIsMatch(s: string, ts: seq<string>)
    requires Concat(ts) == s
    requires forall i :: 0 <= i < |ts| ==> IsToken(ts[i])
    requires Maximal(ts)
    requires ts != []
    ensures s != [] && |ts[0]| == MatchLength(s) && s[..|ts[0]|] == ts[0]
  {
    var t := ts[0];
    assert s == t + Concat(ts[1..]);
    assert s[..|t|] == t;
    var k := ClassOf(s[0]);
    if k != Punct {
      assert forall j :: 0 <= j < |t| ==> ClassOf(s[j]) == k by {
        forall j | 0 <= j < |t| ensures ClassOf(s[j]) == k {
          assert s[j] == t[j];
        }
      }
      if |t| < |s| {
        NextTokenStart(s, ts);
        assert Separate(ts[0], ts[1]);
      }
    }
  }

  /** The tokens after the first still form a maximal split. */
  lemma TailTokens(ts: seq<string>)
    requires forall i :: 0 <= i < |ts| ==> IsToken(ts[i])
    requires Maximal(ts)
    requires ts != []
    ensures forall i :: 0 <= i < |ts[1..]| ==> IsToken(ts[1..][i])
    ensures Maximal(ts[1..])
  {
    var rest := ts[1..];
    forall i | 0 <= i < |rest| ensures IsToken(rest[i]) {
      assert rest[i] == ts[i + 1];
    }
    forall i | 0 <= i < |rest| - 1 ensures Separate(rest[i], rest[i + 1]) {
      assert rest[i] == ts[i + 1] && rest[i + 1] == ts[i + 2];
    }
  }

  /**
   * The tokenization is the only split of `s` into tokens with no two
   * neighbours mergeable: the three properties above pin the output down.
   */
  lemma {:induction false} TokenizeUnique(s: string, ts: seq<string>)
    requires Concat(ts) == s
    requires forall i :: 0 <= i < |ts| ==> IsToken(ts[i])
    requires Maximal(ts)
    ensures ts == Tokenize(s)
    decreases |s|
  {
    if ts != [] {
      FirstTokenIsMatch(s, ts);
      TailTokens(ts);
      var n := |ts[0]|;
      var rest := ts[1..];
      assert s == ts[0] + Concat(rest);
      assert s[n..] == Concat(rest);
      TokenizeUnique(s[n..], rest);
      assert ts == [ts[0]] + rest;
    }
  }
}
