/** Small shared vocabulary: optional values, results, sums and substrings. */
module Common {

  datatype Option<+T> = None | Some(value: T)

  datatype Result<+T, +E> = Ok(value: T) | Err(error: E)

  function Max(a: int, b: int): int {
    if a < b then b else a
  }

  // ---- sums over sequences ----

  function Sum(xs: seq<int>): int {
    if xs == [] then 0 else Sum(xs[..|xs| - 1]) + xs[|xs| - 1]
  }

  // ---- sums over sets ----

  ghost function SumOver<K(!new)>(s: set<K>, f: K -> int): int {
    if s == {} then 0 else var x :| x in s; f(x) + SumOver(s - {x}, f)
  }

  /** The sum does not depend on the order in which elements are taken. */
  lemma {:induction false} SumOverTake<K(!new)>(s: set<K>, f: K -> int, x: K)
    requires x in s
    ensures SumOver(s, f) == f(x) + SumOver(s - {x}, f)
    decreases s
  {
    var y :| y in s && SumOver(s, f) == f(y) + SumOver(s - {y}, f);
    if y != x {
      SumOverTake(s - {y}, f, x);
      SumOverTake(s - {x}, f, y);
      assert s - {y} - {x} == s - {x} - {y};
    }
  }

  lemma {:induction false} SumOverSame<K(!new)>(s: set<K>, f: K -> int, g: K -> int)
    requires forall x :: x in s ==> f(x) == g(x)
    ensures SumOver(s, f) == SumOver(s, g)
    decreases s
  {
    if s != {} {
      var x :| x in s;
      SumOverTake(s, f, x);
      SumOverTake(s, g, x);
      SumOverSame(s - {x}, f, g);
    }
  }

  // ---- text ----

  predicate OccursAt(text: string, needle: string, i: nat) {
    i + |needle| <= |text| && text[i..i + |needle|] == needle
  }

  /** Python's `needle in text`. */
  predicate Contains(text: string, needle: string) {
    exists i :: 0 <= i <= |text| && OccursAt(text, needle, i)
  }

  lemma ContainsSlice(text: string, lo: nat, hi: nat)
    requires lo <= hi <= |text|
    ensures Contains(text, text[lo..hi])
  {
    assert OccursAt(text, text[lo..hi], lo);
  }

  predicate IsSpace(c: char) {
    c == ' ' || c == '\t' || c == '\n' || c == '\r'
  }

  function StripLeft(s: string): (k: nat)
    ensures k <= |s|
  {
    if s != "" && IsSpace(s[0]) then 1 + StripLeft(s[1..]) else 0
  }

  function StripRight(s: string): (k: nat)
    ensures k <= |s|
  {
    if s != "" && IsSpace(s[|s| - 1]) then StripRight(s[..|s| - 1]) else |s|
  }

  /** Python's `str.strip()`. */
  function Strip(s: string): string {
    var t := s[..StripRight(s)];
    t[StripLeft(t)..]
  }

  lemma StripInside(s: string)
    ensures Contains(s, Strip(s))
  {
    var hi := StripRight(s);
    var lo := StripLeft(s[..hi]);
    assert Strip(s) == s[lo..hi];
    ContainsSlice(s, lo, hi);
  }

  /** Python's `str.split()`: maximal runs without white space. */
  function Words(s: string): seq<string> {
    if s == "" then []
    else if IsSpace(s[0]) then Words(s[1..])
    else
      var rest := Words(s[1..]);
      if |s| == 1 || IsSpace(s[1]) || rest == [] then [[s[0]]] + rest
      else [[s[0]] + rest[0]] + rest[1..]
  }

  predicate AllSpace(s: string) {
    forall i :: 0 <= i < |s| ==> IsSpace(s[i])
  }

  /** Stripping takes white space from both ends and nothing else. */
  lemma StripIs(s: string) returns (left: string, right: string)
    ensures s == left + Strip(s) + right && AllSpace(left) && AllSpace(right)
    ensures Strip(s) != "" ==> !IsSpace(Strip(s)[0]) && !IsSpace(Strip(s)[|Strip(s)| - 1])
  {
    var hi := StripRight(s);
    var lo := StripLeft(s[..hi]);
    left, right := s[..lo], s[hi..];
    StripRightIs(s);
    StripLeftIs(s[..hi]);
    assert Strip(s) == s[lo..hi];
    assert s[..hi][..lo] == left;
  }

  lemma {:induction false} StripLeftIs(s: string)
    ensures AllSpace(s[..StripLeft(s)]) && (StripLeft(s) < |s| ==> !IsSpace(s[StripLeft(s)]))
  {
    if s != "" && IsSpace(s[0]) {
      StripLeftIs(s[1..]);
      var k := StripLeft(s[1..]);
      assert s[..1 + k] == [s[0]] + s[1..][..k];
    }
  }

  lemma {:induction false} StripRightIs(s: string)
    ensures AllSpace(s[StripRight(s)..]) && (StripRight(s) > 0 ==> !IsSpace(s[StripRight(s) - 1]))
  {
    if s != "" && IsSpace(s[|s| - 1]) {
      var n := |s| - 1;
      StripRightIs(s[..n]);
      var k := StripRight(s[..n]);
      assert s[k..] == s[..n][k..] + [s[n]];
    }
  }

  predicate NoSpace(s: string) {
    forall i :: 0 <= i < |s| ==> !IsSpace(s[i])
  }

  /** A text without white space is its own only word. */
  lemma {:induction false} OneWord(s: string)
    requires s != "" && NoSpace(s)
    ensures Words(s) == [s]
  {
    if |s| > 1 {
      OneWord(s[1..]);
      assert s == [s[0]] + s[1..];
    } else {
      assert s == [s[0]] && Words(s[1..]) == [];
    }
  }

  /** A white space separates words. */
  lemma {:induction false} WordsSplit(a: string, c: char, b: string)
    requires IsSpace(c)
    ensures Words(a + ([c] + b)) == Words(a) + Words(b)
  {
    var s := a + ([c] + b);
    if a == "" {
      assert s == [c] + b && s[1..] == b;
    } else {
      WordsSplit(a[1..], c, b);
      assert s[1..] == a[1..] + ([c] + b) && s[0] == a[0];
      if |a| == 1 {
        assert a[1..] == "" && s[1] == c;
        assert Words(s[1..]) == Words(b);
      } else {
        assert s[1] == a[1];
        FirstWord(a[1..]);
      }
    }
  }

  lemma FirstWord(s: string)
    ensures s != "" && !IsSpace(s[0]) ==> Words(s) != []
  {
  }
}
