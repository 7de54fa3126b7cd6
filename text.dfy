/**
 * The few Python string operations the core relies on, stated over `seq<char>`:
 * `str.lower` (ASCII letters only), `str.strip` (Python's whitespace set),
 * the substring test `sub in s`, `str.split(sep)` and `sep.join(parts)`,
 * and the slice `xs[-n:]`.
 */
module Text {

  // ---------------------------------------------------------------- lower()

  predicate IsAsciiUpper(c: char) { 'A' <= c <= 'Z' }

  function LowerChar(c: char): (r: char)
    ensures !IsAsciiUpper(r)
    ensures !IsAsciiUpper(c) ==> r == c
  {
    if IsAsciiUpper(c) then (c as int + 32) as char else c
  }

  /** `s.lower()`, restricted to the ASCII letters. */
  function Lower(s: string): (r: string)
    ensures |r| == |s|
    ensures forall i :: 0 <= i < |s| ==> r[i] == LowerChar(s[i])
  {
    seq(|s|, i requires 0 <= i < |s| => LowerChar(s[i]))
  }

  /** A string with no ASCII upper-case letter is its own lower-case form. */
  predicate IsLowercase(s: string) {
    forall i :: 0 <= i < |s| ==> !IsAsciiUpper(s[i])
  }

  lemma LowerOfLowercase(s: string)
    requires IsLowercase(s)
    ensures Lower(s) == s
  {
  }

  /** Lowering twice is lowering once, so every test "on the lowered text" ignores case. */
  lemma LowerIdempotent(s: string)
    ensures IsLowercase(Lower(s))
    ensures Lower(Lower(s)) == Lower(s)
  {
  }

  // ---------------------------------------------------------------- strip()

  /** The characters for which Python's `str.isspace()` holds; `str.strip()` removes exactly these. */
  predicate IsSpace(c: char) {
    || ('\t' <= c <= '\r') || ('\U{1C}' <= c <= ' ')
    || c == '\U{85}' || c == '\U{A0}' || c == '\U{1680}'
    || ('\U{2000}' <= c <= '\U{200A}') || c == '\U{2028}' || c == '\U{2029}'
    || c == '\U{202F}' || c == '\U{205F}' || c == '\U{3000}'
  }

  /** `s.lstrip()`: the longest suffix of `s` that does not start with whitespace. */
  function TrimStart(s: string): (r: string)
    ensures |r| <= |s| && r == s[|s| - |r|..]
    ensures forall k :: 0 <= k < |s| - |r| ==> IsSpace(s[k])
    ensures r == [] || !IsSpace(r[0])
  {
    if s != [] && IsSpace(s[0]) then TrimStart(s[1..]) else s
  }

  /** `s.rstrip()`: the longest prefix of `s` that does not end with whitespace. */
  function TrimEnd(s: string): (r: string)
    ensures |r| <= |s| && r == s[..|r|]
    ensures forall k :: |r| <= k < |s| ==> IsSpace(s[k])
    ensures r == [] || !IsSpace(r[|r| - 1])
  {
    if s != [] && IsSpace(s[|s| - 1]) then TrimEnd(s[..|s| - 1]) else s
  }

  /** `s.strip()`. */
  function Strip(s: string): string {
    TrimStart(TrimEnd(s))
  }

  /** Where the slice that `strip()` keeps starts in `s`. */
  function StripOffset(s: string): nat
    ensures StripOffset(s) + |Strip(s)| <= |s|
  {
    |TrimEnd(s)| - |Strip(s)|
  }

  /** What `strip()` returns: a slice of `s` bounded by non-space characters, everything cut off being whitespace. */
  lemma StripSpec(s: string)
    ensures Strip(s) == s[StripOffset(s)..StripOffset(s) + |Strip(s)|]
    ensures Strip(s) == [] || (!IsSpace(Strip(s)[0]) && !IsSpace(Strip(s)[|Strip(s)| - 1]))
    ensures forall k :: 0 <= k < StripOffset(s) ==> IsSpace(s[k])
    ensures forall k :: StripOffset(s) + |Strip(s)| <= k < |s| ==> IsSpace(s[k])
  {
    var e := TrimEnd(s);
    var r := TrimStart(e);
    var i := |e| - |r|;
    assert Strip(s) == r && StripOffset(s) == i;
    StripSlice(s, e, r, i);
    forall k | 0 <= k < i ensures IsSpace(s[k]) {
      assert s[k] == e[k];
    }
    forall k | i + |r| <= k < |s| ensures IsSpace(s[k]) {
      assert i + |r| == |e|;
    }
    if r != [] {
      assert r[|r| - 1] == e[|e| - 1];
    }
  }

  lemma StripSlice(s: string, e: string, r: string, i: int)
    requires |e| <= |s| && e == s[..|e|] && |r| <= |e| && i == |e| - |r| && r == e[i..]
    ensures r == s[i..i + |r|]
  {
  }

  /** `strip()` only gives the empty string for an all-whitespace input. */
  lemma {:induction false} StripEmptyIffAllSpace(s: string)
    ensures Strip(s) == [] <==> forall k :: 0 <= k < |s| ==> IsSpace(s[k])
  {
    var e := TrimEnd(s);
    if Strip(s) == [] {
      forall k | 0 <= k < |s| ensures IsSpace(s[k]) {
        if k >= |e| {
        } else {
          assert e[k] == s[k];
        }
      }
    } else {
      assert !IsSpace(Strip(s)[0]);
    }
  }

  // ---------------------------------------------------------------- `sub in s`

  /** `sub` occurs in `s` starting at index `k`. */
  predicate OccursAt(s: string, sub: string, k: int) {
    0 <= k && k + |sub| <= |s| && s[k..k + |sub|] == sub
  }

  /** Python's substring test `sub in s`. */
  predicate Contains(s: string, sub: string) {
    exists k | 0 <= k <= |s| - |sub| :: OccursAt(s, sub, k)
  }

  lemma PrefixContained(s: string, sub: string)
    requires sub <= s
    ensures Contains(s, sub)
  {
    assert OccursAt(s, sub, 0);
  }

  /** Substring is transitive: a phrase inside a phrase that occurs in `s` occurs in `s`. */
  lemma ContainsTransitive(s: string, mid: string, sub: string)
    requires Contains(s, mid) && Contains(mid, sub)
    ensures Contains(s, sub)
  {
    var i :| 0 <= i <= |s| - |mid| && OccursAt(s, mid, i);
    var j :| 0 <= j <= |mid| - |sub| && OccursAt(mid, sub, j);
    forall t | 0 <= t < |sub| ensures s[i + j + t] == sub[t] {
      assert sub[t] == mid[j + t];
      assert mid[j + t] == s[i + j + t];
    }
    assert s[i + j..i + j + |sub|] == sub;
    assert OccursAt(s, sub, i + j);
  }

  // ---------------------------------------------------------------- split / join

  /** The index at which the leftmost occurrence of `sep` at or after `from` starts, or -1. */
  function IndexFrom(s: string, sep: string, from: nat): (r: int)
    requires |sep| > 0 && from <= |s|
    ensures r == -1 || (from <= r && OccursAt(s, sep, r))
    ensures forall k :: from <= k && (r == -1 || k < r) ==> !OccursAt(s, sep, k)
    decreases |s| - from
  {
    if from + |sep| > |s| then -1
    else if s[from..from + |sep|] == sep then from
    else IndexFrom(s, sep, from + 1)
  }

  /** `s.split(sep)`: cut `s` at every leftmost non-overlapping occurrence of `sep`. */
  function Split(s: string, sep: string): (r: seq<string>)
    requires |sep| > 0
    ensures |r| >= 1
    decreases |s|
  {
    var i := IndexFrom(s, sep, 0);
    if i < 0 then [s] else [s[..i]] + Split(s[i + |sep|..], sep)
  }

  /** `sep.join(parts)`. */
  function Join(sep: string, parts: seq<string>): string {
    if parts == [] then ""
    else if |parts| == 1 then parts[0]
    else parts[0] + sep + Join(sep, parts[1..])
  }

  lemma JoinCons(sep: string, head: string, rest: seq<string>)
    requires rest != []
    ensures Join(sep, [head] + rest) == head + sep + Join(sep, rest)
  {
    assert ([head] + rest)[1..] == rest;
  }

  lemma SplitStep(s: string, sep: string, i: int)
    requires |sep| > 0 && i == IndexFrom(s, sep, 0) && i >= 0
    ensures Split(s, sep) == [s[..i]] + Split(s[i + |sep|..], sep)
  {
  }

  lemma AroundOccurrence(s: string, sep: string, i: int)
    requires OccursAt(s, sep, i)
    ensures s == s[..i] + sep + s[i + |sep|..]
  {
    assert s == s[..i] + s[i..i + |sep|] + s[i + |sep|..];
  }

  /** Joining the pieces of a split restores the text. */
  lemma {:induction false} JoinSplit(s: string, sep: string)
    requires |sep| > 0
    ensures Join(sep, Split(s, sep)) == s
    decreases |s|
  {
    var i := IndexFrom(s, sep, 0);
    if i >= 0 {
      var rest := s[i + |sep|..];
      JoinSplit(rest, sep);
      SplitStep(s, sep, i);
      AroundOccurrence(s, sep, i);
      JoinCons(sep, s[..i], Split(rest, sep));
    }
  }

  /** No piece of a split contains the separator. */
  lemma {:induction false} SplitPiecesFree(s: string, sep: string)
    requires |sep| > 0
    ensures forall p :: p in Split(s, sep) ==> !Contains(p, sep)
    decreases |s|
  {
    var i := IndexFrom(s, sep, 0);
    if i >= 0 {
      var head := s[..i];
      assert !Contains(head, sep) by {
        if Contains(head, sep) {
          var k :| 0 <= k <= |head| - |sep| && OccursAt(head, sep, k);
          assert s[k..k + |sep|] == head[k..k + |sep|];
          assert OccursAt(s, sep, k);
        }
      }
      SplitPiecesFree(s[i + |sep|..], sep);
    }
  }

  lemma PrefixExtend(c: string, a: string, b: string)
    requires a <= b
    ensures c + a <= c + b
  {
    assert (c + b)[..|c + a|] == c + a;
  }

  /** The join of the first `k` of more than `k` pieces, followed by the separator, is a prefix of the join of all of them. */
  lemma {:induction false} JoinPrefixSep(sep: string, parts: seq<string>, k: nat)
    requires 1 <= k < |parts|
    ensures Join(sep, parts[..k]) + sep <= Join(sep, parts)
  {
    var rest := Join(sep, parts[1..]);
    assert Join(sep, parts) == parts[0] + sep + rest;
    if k == 1 {
      assert parts[..1] == [parts[0]];
      assert Join(sep, parts[..1]) + sep == parts[0] + sep;
      assert (parts[0] + sep + rest)[..|parts[0] + sep|] == parts[0] + sep;
    } else {
      JoinPrefixSep(sep, parts[1..], k - 1);
      assert parts[..k][1..] == parts[1..][..k - 1];
      var inner := Join(sep, parts[1..][..k - 1]);
      assert Join(sep, parts[..k]) == parts[0] + sep + inner;
      PrefixExtend(parts[0] + sep, inner + sep, rest);
      assert (parts[0] + sep + inner) + sep == (parts[0] + sep) + (inner + sep);
    }
  }

  /** The first piece starts the join. */
  lemma JoinStartsWithFirst(sep: string, parts: seq<string>)
    requires parts != []
    ensures parts[0] <= Join(sep, parts)
  {
    if |parts| > 1 {
      assert Join(sep, parts) == parts[0] + (sep + Join(sep, parts[1..]));
    }
  }

  /** A text without the separator is not cut. */
  lemma SplitFree(s: string, sep: string)
    requires |sep| > 0 && !Contains(s, sep)
    ensures Split(s, sep) == [s]
  {
    var i := IndexFrom(s, sep, 0);
    if i >= 0 {
      assert false;
    }
  }

  /**
   * For a two-character separator whose characters differ, splitting the join of pieces free of
   * the separator gives the pieces back: no occurrence can straddle a piece and the separator
   * after it.
   */
  lemma {:induction false} SplitJoin(sep: string, parts: seq<string>)
    requires |sep| == 2 && sep[0] != sep[1]
    requires |parts| >= 1
    requires forall p :: p in parts ==> !Contains(p, sep)
    ensures Split(Join(sep, parts), sep) == parts
    decreases |parts|
  {
    var head := parts[0];
    if |parts| == 1 {
      SplitFree(head, sep);
    } else {
      var tail := parts[1..];
      var rest := Join(sep, tail);
      var s := head + sep + rest;
      assert Join(sep, parts) == s;
      assert s[|head|..|head| + 2] == sep;
      assert OccursAt(s, sep, |head|);
      forall k | 0 <= k < |head| ensures !OccursAt(s, sep, k) {
        if k + 2 <= |head| {
          if OccursAt(s, sep, k) {
            assert head[k..k + 2] == s[k..k + 2];
            assert OccursAt(head, sep, k);
          }
        } else {
          assert s[k + 1] == sep[0];
        }
      }
      var i := IndexFrom(s, sep, 0);
      assert i == |head|;
      assert s[..i] == head;
      assert s[i + |sep|..] == rest;
      assert forall p :: p in tail ==> p in parts;
      SplitJoin(sep, tail);
    }
  }

  // ---------------------------------------------------------------- xs[-n:]

  /** Python's slice `xs[-n:]` for a positive `n`: the last `n` items, or all of them when there are fewer. */
  function LastN<T>(xs: seq<T>, n: nat): (r: seq<T>)
    requires n > 0
    ensures |r| == if |xs| <= n then |xs| else n
    ensures r == xs[|xs| - |r|..]
  {
    if |xs| <= n then xs else xs[|xs| - n..]
  }
}
