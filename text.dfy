/**
 * The string helpers the valuation engine relies on: `String.prototype.trim`,
 * `String.prototype.toLowerCase` (ASCII letters) and `String.prototype.includes`.
 */
module Text {

  /** The ECMAScript WhiteSpace and LineTerminator code points, which `trim` removes. */
  predicate IsWhiteSpace(c: char) {
    c == '\t' || c == '\n' || c == '\U{000B}' || c == '\U{000C}' || c == '\r' || c == ' '
    || c == '\U{00A0}' || c == '\U{1680}' || ('\U{2000}' <= c <= '\U{200A}')
    || c == '\U{2028}' || c == '\U{2029}' || c == '\U{202F}' || c == '\U{205F}'
    || c == '\U{3000}' || c == '\U{FEFF}'
  }

  /** `s` without its leading white space: a suffix of `s` whose dropped part is all white space. */
  function TrimStart(s: string): (r: string)
    ensures |r| <= |s| && r == s[|s| - |r|..]
    ensures forall k | 0 <= k < |s| - |r| :: IsWhiteSpace(s[k])
    ensures r == [] || !IsWhiteSpace(r[0])
  {
    if |s| > 0 && IsWhiteSpace(s[0]) then TrimStart(s[1..]) else s
  }

  /** `s` without its trailing white space: a prefix of `s` whose dropped part is all white space. */
  function TrimEnd(s: string): (r: string)
    ensures |r| <= |s| && r == s[..|r|]
    ensures forall k | |r| <= k < |s| :: IsWhiteSpace(s[k])
    ensures r == [] || !IsWhiteSpace(r[|r| - 1])
  {
    if |s| > 0 && IsWhiteSpace(s[|s| - 1]) then TrimEnd(s[..|s| - 1]) else s
  }

  /**
   * `String.prototype.trim`: the result is the slice `s[i..j]` with only white
   * space before `i` and after `j`, neither end of the result is white space,
   * and the result is empty exactly when `s` is nothing but white space.
   */
  function Trim(s: string): (r: string)
    ensures exists i, j | 0 <= i <= j <= |s| ::
              r == s[i..j]
              && (forall k | 0 <= k < i :: IsWhiteSpace(s[k]))
              && (forall k | j <= k < |s| :: IsWhiteSpace(s[k]))
    ensures r == [] || (!IsWhiteSpace(r[0]) && !IsWhiteSpace(r[|r| - 1]))
    ensures r == [] <==> forall k | 0 <= k < |s| :: IsWhiteSpace(s[k])
  {
    var t := TrimStart(s);
    var r := TrimEnd(t);
    TrimmedParts(s, t, r);
    r
  }

  /**
   * Dropping leading white space from `s` to get `t`, then trailing white
   * space from `t` to get `r`, leaves the slice of `s` between its outer white
   * space, with neither end white space; `r` is empty exactly when `s` is all
   * white space.
   */
  lemma TrimmedParts(s: string, t: string, r: string)
    requires |t| <= |s| && t == s[|s| - |t|..]
    requires forall k | 0 <= k < |s| - |t| :: IsWhiteSpace(s[k])
    requires t == [] || !IsWhiteSpace(t[0])
    requires |r| <= |t| && r == t[..|r|]
    requires forall k | |r| <= k < |t| :: IsWhiteSpace(t[k])
    requires r == [] || !IsWhiteSpace(r[|r| - 1])
    ensures exists i, j | 0 <= i <= j <= |s| ::
              r == s[i..j]
              && (forall k | 0 <= k < i :: IsWhiteSpace(s[k]))
              && (forall k | j <= k < |s| :: IsWhiteSpace(s[k]))
    ensures r == [] || (!IsWhiteSpace(r[0]) && !IsWhiteSpace(r[|r| - 1]))
    ensures r == [] <==> forall k | 0 <= k < |s| :: IsWhiteSpace(s[k])
  {
    var i := |s| - |t|;
    var j := i + |r|;
    assert r == s[i..j];
    forall k | j <= k < |s|
      ensures IsWhiteSpace(s[k])
    {
      assert s[k] == t[k - i];
    }
    if r != [] {
      assert r[0] == t[0];
      assert !IsWhiteSpace(s[i]);
    } else {
      // an empty result means nothing but white space was ever in `t`, so `t` is empty too
      assert t == [];
    }
  }

  /** Trimming twice is trimming once. */
  lemma TrimIdempotent(s: string)
    ensures Trim(Trim(s)) == Trim(s)
  {
    var r := Trim(s);
    if r != [] {
      assert TrimStart(r) == r;
      assert TrimEnd(r) == r;
    }
  }

  /** `s` is not empty and has no white space at either end. */
  predicate NoOuterSpace(s: string) {
    s != [] && !IsWhiteSpace(s[0]) && !IsWhiteSpace(s[|s| - 1])
  }

  /** A string with no white space at either end is its own trim. */
  lemma TrimKeepsTrimmed(s: string)
    requires NoOuterSpace(s)
    ensures Trim(s) == s
  {
    assert TrimStart(s) == s;
    assert TrimEnd(s) == s;
  }

  /** A word with no white space at either end normalizes to its lower-case form. */
  lemma NormalizedLiteral(s: string, lower: string)
    requires NoOuterSpace(s) && ToLower(s) == lower
    ensures ToLower(Trim(s)) == lower
  {
    TrimKeepsTrimmed(s);
  }

  /** Lower-cases one ASCII capital letter and leaves every other character alone. */
  function LowerChar(c: char): char {
    if 'A' <= c <= 'Z' then (c as int + 32) as char else c
  }

  /** `String.prototype.toLowerCase`, restricted to the ASCII letters. */
  function ToLower(s: string): (r: string)
    ensures |r| == |s|
    ensures forall i | 0 <= i < |s| :: r[i] == LowerChar(s[i])
    ensures forall i | 0 <= i < |r| :: !('A' <= r[i] <= 'Z')
  {
    seq(|s|, i requires 0 <= i < |s| => LowerChar(s[i]))
  }

  /** `k` is a prefix of `s`. */
  predicate StartsWith(s: string, k: string) {
    |k| <= |s| && s[..|k|] == k
  }

  /** `s.includes(k)`: `k` starts `s` or occurs in its tail (the empty string occurs everywhere). */
  predicate Contains(s: string, k: string)
    decreases |s|
  {
    StartsWith(s, k) || (s != [] && Contains(s[1..], k))
  }

  /** `k` occurs in `s` starting at position `i`. */
  predicate OccursAt(s: string, k: string, i: int) {
    0 <= i <= |s| - |k| && s[i..i + |k|] == k
  }

  /** `Contains` is the search for an occurrence: it holds exactly when `k` occurs at some position of `s`. */
  lemma {:induction false} ContainsIff(s: string, k: string)
    ensures Contains(s, k) <==> exists i | 0 <= i <= |s| - |k| :: OccursAt(s, k, i)
    decreases |s|
  {
    if StartsWith(s, k) {
      assert OccursAt(s, k, 0);
    } else if s == [] {
      assert !Contains(s, k);
    } else {
      ContainsIff(s[1..], k);
      forall i | 1 <= i <= |s| - |k|
        ensures OccursAt(s, k, i) <==> OccursAt(s[1..], k, i - 1)
      {
        assert s[1..][i - 1..i - 1 + |k|] == s[i..i + |k|];
      }
      if Contains(s, k) {
        var i :| 0 <= i <= |s| - 1 - |k| && OccursAt(s[1..], k, i);
        assert OccursAt(s, k, i + 1);
      }
      if exists i | 0 <= i <= |s| - |k| :: OccursAt(s, k, i) {
        var i :| 0 <= i <= |s| - |k| && OccursAt(s, k, i);
        assert i != 0;
        assert OccursAt(s[1..], k, i - 1);
      }
    }
  }

  /** Every string contains itself, in particular every keyword is found in a brand equal to it. */
  lemma ContainsSelf(k: string)
    ensures Contains(k, k)
  {
    assert k[..|k|] == k;
  }

  /** An occurrence at a known position is enough for `Contains`. */
  lemma {:induction false} ContainsAt(s: string, k: string, i: nat)
    requires i + |k| <= |s| && s[i..i + |k|] == k
    ensures Contains(s, k)
    decreases i
  {
    if i == 0 {
      assert StartsWith(s, k);
    } else {
      assert s[1..][i - 1..i - 1 + |k|] == s[i..i + |k|];
      ContainsAt(s[1..], k, i - 1);
    }
  }

  /** No non-empty keyword occurs in the empty string. */
  lemma EmptyContainsNothing(k: string)
    requires k != []
    ensures !Contains([], k)
  {
  }
}
