/** The alternating split of path tokens that both routers perform: tokens at
    even positions and tokens at odd positions, and the resource chain built by
    capitalising and concatenating resource names. */
module Pairing {
  import opened Strings

  /** The tokens at positions 0, 2, 4, ... */
  function Evens<T>(s: seq<T>): (r: seq<T>)
    ensures |r| == (|s| + 1) / 2
  {
    if |s| <= 1 then s else [s[0]] + Evens(s[2..])
  }

  /** The tokens at positions 1, 3, 5, ... */
  function Odds<T>(s: seq<T>): (r: seq<T>)
    ensures |r| == |s| / 2
  {
    if |s| <= 1 then [] else [s[1]] + Odds(s[2..])
  }

  /** The k-th even token is the token at position 2k, the k-th odd token
      the one at position 2k + 1. */
  lemma {:induction false} EvensOddsAt<T>(s: seq<T>)
    ensures forall k :: 0 <= k < |Evens(s)| ==> Evens(s)[k] == s[2 * k]
    ensures forall k :: 0 <= k < |Odds(s)| ==> Odds(s)[k] == s[2 * k + 1]
  {
    if |s| > 1 {
      var t := s[2..];
      EvensOddsAt(t);
      forall k | 1 <= k < |Evens(s)| ensures Evens(s)[k] == s[2 * k] {
        var m := k - 1;
        assert Evens(s)[k] == Evens(t)[m];
        assert Evens(t)[m] == t[2 * m];
        assert 2 + 2 * m == 2 * k;
      }
      forall k | 1 <= k < |Odds(s)| ensures Odds(s)[k] == s[2 * k + 1] {
        var m := k - 1;
        assert Odds(s)[k] == Odds(t)[m];
        assert Odds(t)[m] == t[2 * m + 1];
        assert 2 + 2 * m + 1 == 2 * k + 1;
      }
    }
  }

  /** The last token is the last even token when the count is odd, and the
      last odd token when it is even. */
  lemma {:induction false} LastToken<T>(s: seq<T>)
    requires s != []
    ensures |s| % 2 == 1 ==> Evens(s)[|Evens(s)| - 1] == s[|s| - 1]
    ensures |s| % 2 == 0 ==> Odds(s)[|Odds(s)| - 1] == s[|s| - 1]
  {
    EvensOddsAt(s);
    var n := |s|;
    if n % 2 == 1 {
      assert 2 * ((n + 1) / 2 - 1) == n - 1;
    } else {
      assert 2 * (n / 2 - 1) + 1 == n - 1;
    }
  }

  /** `a[0], b[0], a[1], b[1], ...`: the inverse of taking evens and odds. */
  function Interleave<T>(a: seq<T>, b: seq<T>): (r: seq<T>)
    requires |b| <= |a| <= |b| + 1
    ensures |r| == |a| + |b|
  {
    if |b| == 0 then a else [a[0], b[0]] + Interleave(a[1..], b[1..])
  }

  /** Putting the even and the odd tokens back together restores the tokens:
      the split into two lists loses nothing and reorders nothing. */
  lemma {:induction false} InterleaveEvensOdds<T>(s: seq<T>)
    ensures Interleave(Evens(s), Odds(s)) == s
  {
    if |s| > 1 {
      InterleaveEvensOdds(s[2..]);
      assert Evens(s)[1..] == Evens(s[2..]);
      assert Odds(s)[1..] == Odds(s[2..]);
      assert [s[0], s[1]] + s[2..] == s;
    }
  }

  /** Taking evens and odds of an interleaving gives back both lists. */
  lemma {:induction false} EvensOddsInterleave<T>(a: seq<T>, b: seq<T>)
    requires |b| <= |a| <= |b| + 1
    ensures Evens(Interleave(a, b)) == a && Odds(Interleave(a, b)) == b
  {
    if |b| > 0 {
      EvensOddsInterleave(a[1..], b[1..]);
      var r := Interleave(a, b);
      assert r[2..] == Interleave(a[1..], b[1..]);
      assert [a[0]] + a[1..] == a;
      assert [b[0]] + b[1..] == b;
    }
  }

  /** Evens and odds of a suffix, one pair of tokens at a time. */
  lemma {:induction false} SuffixStep<T>(s: seq<T>, i: nat)
    requires i + 2 <= |s|
    ensures Evens(s[i..]) == [s[i]] + Evens(s[i + 2..])
    ensures Odds(s[i..]) == [s[i + 1]] + Odds(s[i + 2..])
  {
    assert s[i..][2..] == s[i + 2..];
  }

  /** Evens and odds of a suffix made of the last token alone. */
  lemma {:induction false} SuffixLast<T>(s: seq<T>, i: nat)
    requires i + 1 == |s|
    ensures Evens(s[i..]) == [s[i]] && Odds(s[i..]) == []
  {
    assert s[i..] == [s[i]];
  }

  /** The chain of one name followed by more names. */
  lemma {:induction false} ChainCons(x: string, names: seq<string>)
    ensures Chain([x] + names) == Capitalize(x) + Chain(names)
  {
    assert ([x] + names)[1..] == names;
  }

  /** Concatenation is associative. */
  lemma {:induction false} AppendAssoc<T>(a: seq<T>, b: seq<T>, c: seq<T>)
    ensures a + (b + c) == (a + b) + c
  {
  }

  /** The resource chain: each resource name passed through `ucfirst`, the
      results concatenated in order. */
  function Chain(names: seq<string>): (r: string)
  {
    if names == [] then "" else Capitalize(names[0]) + Chain(names[1..])
  }

  /** Appending a resource name appends its capitalised form to the chain. */
  lemma {:induction false} ChainSnoc(names: seq<string>, x: string)
    ensures Chain(names + [x]) == Chain(names) + Capitalize(x)
  {
    if names != [] {
      ChainSnoc(names[1..], x);
      assert (names + [x])[1..] == names[1..] + [x];
    }
  }

  /** The chain lower-cased is the names lower-cased and concatenated: the
      capitalisation is the only thing the chain adds. */
  lemma {:induction false} ChainLower(names: seq<string>)
    ensures Lower(Chain(names)) == LowerConcat(names)
  {
    if names != [] {
      ChainLower(names[1..]);
      LowerCapitalize(names[0]);
      LowerDistributes(Capitalize(names[0]), Chain(names[1..]));
    }
  }

  /** The names lower-cased and concatenated. */
  function LowerConcat(names: seq<string>): string
  {
    if names == [] then "" else Lower(names[0]) + LowerConcat(names[1..])
  }
}
