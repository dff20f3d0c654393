/** The string primitives both routers build on: PHP's `strtolower`, `ucfirst`,
    `explode` (with its inverse `implode`) and `stripos`, all on ASCII letters
    as PHP 8 defines them. Strings are sequences of characters. */
module Strings {

  datatype Option<T> = None | Some(value: T)

  predicate IsUpper(c: char) { 'A' <= c <= 'Z' }

  predicate IsLower(c: char) { 'a' <= c <= 'z' }

  /** ASCII lower-casing of one character; everything but `A`-`Z` is kept. */
  function LowerChar(c: char): (d: char)
    ensures !IsUpper(d)
    ensures !IsUpper(c) ==> d == c
    ensures IsUpper(c) ==> IsLower(d) && d as int - c as int == 32
  {
    if IsUpper(c) then (c as int + 32) as char else c
  }

  /** ASCII upper-casing of one character; everything but `a`-`z` is kept. */
  function UpperChar(c: char): (d: char)
    ensures !IsLower(d)
    ensures !IsLower(c) ==> d == c
    ensures IsLower(c) ==> IsUpper(d) && c as int - d as int == 32
  {
    if IsLower(c) then (c as int - 32) as char else c
  }

  /** `strtolower`: every character lower-cased, nothing else changes. */
  function Lower(s: string): (r: string)
    ensures |r| == |s|
  {
    if s == [] then [] else [LowerChar(s[0])] + Lower(s[1..])
  }

  /** Lower-casing works character by character. */
  lemma {:induction false} LowerAt(s: string)
    ensures forall i :: 0 <= i < |s| ==> Lower(s)[i] == LowerChar(s[i])
  {
    if s != [] {
      LowerAt(s[1..]);
      assert forall i :: 1 <= i < |s| ==> Lower(s)[i] == Lower(s[1..])[i - 1];
    }
  }

  /** `ucfirst`: the first character upper-cased, the rest untouched. */
  function Capitalize(s: string): (r: string)
    ensures |r| == |s|
    ensures s != [] ==> r[0] == UpperChar(s[0]) && r[1..] == s[1..]
  {
    if s == [] then s else [UpperChar(s[0])] + s[1..]
  }

  /** Capitalising changes the case of one letter and nothing else: both
      forms lower-case to the same string. */
  lemma {:induction false} LowerCapitalize(s: string)
    ensures Lower(Capitalize(s)) == Lower(s)
  {
    if s != [] {
      LowerAt(s);
      LowerAt(Capitalize(s));
      assert Lower(Capitalize(s))[0] == Lower(s)[0];
      assert forall i :: 1 <= i < |s| ==> Lower(Capitalize(s))[i] == Lower(s)[i];
    }
  }

  /** Lower-casing distributes over concatenation. */
  lemma {:induction false} LowerDistributes(a: string, b: string)
    ensures Lower(a + b) == Lower(a) + Lower(b)
  {
    LowerAt(a);
    LowerAt(b);
    LowerAt(a + b);
    assert forall i :: 0 <= i < |a + b| ==> Lower(a + b)[i] == (Lower(a) + Lower(b))[i];
  }

  /** `explode($d, $s)` for a one-character delimiter: the pieces between the
      delimiters, empty pieces kept, so there is always at least one piece. */
  function Split(s: string, d: char): (parts: seq<string>)
    ensures |parts| >= 1
  {
    if s == [] then [""]
    else
      var rest := Split(s[1..], d);
      if s[0] == d then [""] + rest
      else [[s[0]] + rest[0]] + rest[1..]
  }

  /** `implode($d, $parts)`: the pieces glued back with the delimiter. */
  function Join(parts: seq<string>, d: char): string
    requires |parts| >= 1
  {
    if |parts| == 1 then parts[0] else parts[0] + [d] + Join(parts[1..], d)
  }

  /** No piece contains the delimiter. */
  lemma {:induction false} SplitPieces(s: string, d: char)
    ensures forall i :: 0 <= i < |Split(s, d)| ==> d !in Split(s, d)[i]
  {
    if s != [] {
      SplitPieces(s[1..], d);
    }
  }

  /** Joining the pieces of a split gives back the original string. */
  lemma {:induction false} JoinSplit(s: string, d: char)
    ensures Join(Split(s, d), d) == s
  {
    if s != [] {
      var rest := Split(s[1..], d);
      JoinSplit(s[1..], d);
      if s[0] == d {
        assert Split(s, d) == [""] + rest;
        assert Split(s, d)[1..] == rest;
      } else {
        var parts := Split(s, d);
        assert parts == [[s[0]] + rest[0]] + rest[1..];
        if |rest| > 1 {
          assert parts[1..] == rest[1..];
          assert Join(rest, d) == rest[0] + [d] + Join(rest[1..], d);
        }
      }
    }
  }

  /** A string without the delimiter is a single piece. */
  lemma {:induction false} SplitNoDelimiter(s: string, d: char)
    requires d !in s
    ensures Split(s, d) == [s]
  {
    if s != [] {
      SplitNoDelimiter(s[1..], d);
      assert [s[0]] + s[1..] == s;
    }
  }

  /** The first piece ends at the first delimiter. */
  lemma {:induction false} SplitAtDelimiter(a: string, d: char, b: string)
    requires d !in a
    ensures Split(a + [d] + b, d) == [a] + Split(b, d)
  {
    if a == [] {
      assert (a + [d] + b)[1..] == b;
    } else {
      SplitAtDelimiter(a[1..], d, b);
      assert (a + [d] + b)[1..] == a[1..] + [d] + b;
      assert [a[0]] + a[1..] == a;
    }
  }

  /** Splitting a join of delimiter-free pieces gives back the pieces. */
  lemma {:induction false} SplitJoin(parts: seq<string>, d: char)
    requires |parts| >= 1
    requires forall i :: 0 <= i < |parts| ==> d !in parts[i]
    ensures Split(Join(parts, d), d) == parts
  {
    if |parts| == 1 {
      SplitNoDelimiter(parts[0], d);
    } else {
      SplitJoin(parts[1..], d);
      SplitAtDelimiter(parts[0], d, Join(parts[1..], d));
    }
  }

  /** Whether `pat` occurs at index `k` of `s`, ignoring ASCII case. */
  predicate MatchesAt(s: string, pat: string, k: nat)
  {
    k + |pat| <= |s| && Lower(s[k..k + |pat|]) == Lower(pat)
  }

  /** An occurrence in `s` after its first character is an occurrence in its tail. */
  lemma {:induction false} MatchesAtTail(s: string, pat: string, j: nat)
    requires s != []
    ensures MatchesAt(s, pat, j + 1) == MatchesAt(s[1..], pat, j)
  {
    if j + 1 + |pat| <= |s| {
      assert s[j + 1..j + 1 + |pat|] == s[1..][j..j + |pat|];
    }
  }

  /** `stripos($s, $pat)`: the index at which `pat` occurs in `s`, ignoring
      ASCII case, or None (PHP's `false`) when it does not occur. */
  function IndexOfIgnoreCase(s: string, pat: string): Option<nat>
  {
    if |s| < |pat| then None
    else if MatchesAt(s, pat, 0) then Some(0)
    else
      match IndexOfIgnoreCase(s[1..], pat)
      case None => None
      case Some(k) => Some(k + 1)
  }

  /** The index found is that of the first occurrence, and None means there
      is no occurrence at all. */
  lemma {:induction false} IndexOfIgnoreCaseFirst(s: string, pat: string)
    ensures var r := IndexOfIgnoreCase(s, pat);
      && (r.Some? ==> MatchesAt(s, pat, r.value))
      && (r.Some? ==> forall j: nat :: j < r.value ==> !MatchesAt(s, pat, j))
      && (r.None? ==> forall j: nat :: !MatchesAt(s, pat, j))
  {
    if |s| >= |pat| && !MatchesAt(s, pat, 0) {
      IndexOfIgnoreCaseFirst(s[1..], pat);
      forall j: nat | j > 0 ensures MatchesAt(s, pat, j) == MatchesAt(s[1..], pat, j - 1) {
        MatchesAtTail(s, pat, j - 1);
      }
    }
  }

  /** `strpos($s, $pat) === 0`: `s` begins with `pat`, case-sensitively. */
  predicate StartsWith(s: string, pat: string)
  {
    |pat| <= |s| && s[..|pat|] == pat
  }
}
