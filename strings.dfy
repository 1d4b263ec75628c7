/**
 * The parts of Python's `str` that the core relies on: `str.replace` (all
 * non-overlapping occurrences, scanned left to right) and decimal formatting
 * of a status code.
 */
module Strings {

  /** `pat` occurs in `s` starting at index `k`. */
  predicate MatchAt(s: string, pat: string, k: nat)
  {
    k + |pat| <= |s| && s[k..k + |pat|] == pat
  }

  predicate Contains(s: string, pat: string)
  {
    exists k: nat | k <= |s| :: MatchAt(s, pat, k)
  }

  /** `s.replace(pat, rep)` for a non-empty `pat`. */
  function ReplaceAll(s: string, pat: string, rep: string): string
    requires |pat| > 0
    decreases |s|
  {
    if |s| == 0 then s
    else if MatchAt(s, pat, 0) then rep + ReplaceAll(s[|pat|..], pat, rep)
    else [s[0]] + ReplaceAll(s[1..], pat, rep)
  }

  /** The pieces of `s` between the occurrences of `pat` that `replace` finds. */
  function Split(s: string, pat: string): (parts: seq<string>)
    requires |pat| > 0
    ensures |parts| > 0
    decreases |s|
  {
    if |s| == 0 then [s]
    else if MatchAt(s, pat, 0) then [""] + Split(s[|pat|..], pat)
    else
      var t := Split(s[1..], pat);
      [[s[0]] + t[0]] + t[1..]
  }

  /** `sep.join(parts)`. */
  function Join(parts: seq<string>, sep: string): string
    requires |parts| > 0
    decreases |parts|
  {
    if |parts| == 1 then parts[0] else parts[0] + sep + Join(parts[1..], sep)
  }

  lemma {:induction false} JoinCons(p: string, parts: seq<string>, sep: string)
    requires |parts| > 0
    ensures Join([p] + parts, sep) == p + sep + Join(parts, sep)
  {
    assert ([p] + parts)[1..] == parts;
  }

  lemma {:induction false} JoinExtendFirst(c: char, parts: seq<string>, sep: string)
    requires |parts| > 0
    ensures Join([[c] + parts[0]] + parts[1..], sep) == [c] + Join(parts, sep)
  {
    var q := [[c] + parts[0]] + parts[1..];
    if |parts| > 1 {
      assert q[1..] == parts[1..];
    }
  }

  /** `replace` rewrites each separator of the split, and nothing else. */
  lemma {:induction false} ReplaceAllIsJoinOfSplit(s: string, pat: string, rep: string)
    requires |pat| > 0
    ensures ReplaceAll(s, pat, rep) == Join(Split(s, pat), rep)
    decreases |s|
  {
    if |s| == 0 {
    } else if MatchAt(s, pat, 0) {
      ReplaceAllIsJoinOfSplit(s[|pat|..], pat, rep);
      JoinCons("", Split(s[|pat|..], pat), rep);
    } else {
      ReplaceAllIsJoinOfSplit(s[1..], pat, rep);
      JoinExtendFirst(s[0], Split(s[1..], pat), rep);
    }
  }

  /** Joining the pieces with the pattern itself gives the string back. */
  lemma {:induction false} SplitJoinRoundTrip(s: string, pat: string)
    requires |pat| > 0
    ensures Join(Split(s, pat), pat) == s
    decreases |s|
  {
    if |s| == 0 {
    } else if MatchAt(s, pat, 0) {
      var rest := s[|pat|..];
      SplitJoinRoundTrip(rest, pat);
      JoinCons("", Split(rest, pat), pat);
      assert Split(s, pat) == [""] + Split(rest, pat);
      assert s == s[..|pat|] + rest;
    } else {
      var rest := s[1..];
      SplitJoinRoundTrip(rest, pat);
      JoinExtendFirst(s[0], Split(rest, pat), pat);
      var t := Split(rest, pat);
      assert Split(s, pat) == [[s[0]] + t[0]] + t[1..];
      assert s == [s[0]] + rest;
    }
  }

  /** The first piece is a prefix of the string. */
  lemma {:induction false} SplitHeadIsPrefix(s: string, pat: string)
    requires |pat| > 0
    ensures Split(s, pat)[0] <= s
    decreases |s|
  {
    if |s| == 0 {
    } else if MatchAt(s, pat, 0) {
    } else {
      SplitHeadIsPrefix(s[1..], pat);
      assert s == [s[0]] + s[1..];
    }
  }

  /** No piece contains the pattern: every occurrence was a separator. */
  lemma {:induction false} SplitPiecesAvoidPattern(s: string, pat: string)
    requires |pat| > 0
    ensures forall i :: 0 <= i < |Split(s, pat)| ==> !Contains(Split(s, pat)[i], pat)
    decreases |s|
  {
    var parts := Split(s, pat);
    if |s| == 0 {
      assert parts == [""];
      assert !Contains("", pat);
    } else if MatchAt(s, pat, 0) {
      SplitPiecesAvoidPattern(s[|pat|..], pat);
      assert !Contains("", pat);
      assert parts[0] == "";
      assert forall i :: 1 <= i < |parts| ==> parts[i] == Split(s[|pat|..], pat)[i - 1];
    } else {
      var t := Split(s[1..], pat);
      SplitPiecesAvoidPattern(s[1..], pat);
      SplitHeadIsPrefix(s[1..], pat);
      ConsAvoidsPattern(s, t[0], pat);
      assert parts[0] == [s[0]] + t[0];
      assert forall i :: 1 <= i < |parts| ==> parts[i] == t[i];
    }
  }

  /** A character that does not start the pattern, put before a piece without it, gives a piece without it. */
  lemma {:induction false} ConsAvoidsPattern(s: string, t: string, pat: string)
    requires |s| > 0 && |pat| > 0
    requires !MatchAt(s, pat, 0) && t <= s[1..] && !Contains(t, pat)
    ensures !Contains([s[0]] + t, pat)
  {
    var head := [s[0]] + t;
    forall k: nat | MatchAt(head, pat, k)
      ensures false
    {
      if k > 0 {
        assert t[k - 1..k - 1 + |pat|] == head[k..k + |pat|];
        assert MatchAt(t, pat, k - 1);
      }
    }
  }

  /** A string without the pattern is left as it is. */
  lemma {:induction false} ReplaceAllAbsent(s: string, pat: string, rep: string)
    requires |pat| > 0
    requires !Contains(s, pat)
    ensures ReplaceAll(s, pat, rep) == s
    decreases |s|
  {
    if |s| > 0 {
      assert !MatchAt(s, pat, 0);
      forall k: nat | MatchAt(s[1..], pat, k)
        ensures false
      {
        assert s[k + 1..k + 1 + |pat|] == s[1..][k..k + |pat|];
        assert MatchAt(s, pat, k + 1);
      }
      ReplaceAllAbsent(s[1..], pat, rep);
    }
  }

  /** No occurrence of `pat` in `u + v` starts in `u` and ends in `v`. */
  predicate NoStraddle(u: string, v: string, pat: string)
  {
    forall k: nat | k < |u| :: |u| < k + |pat| ==> !MatchAt(u + v, pat, k)
  }

  /** `replace` works on both sides of a boundary that no occurrence crosses. */
  lemma {:induction false} ReplaceAllConcat(u: string, v: string, pat: string, rep: string)
    requires |pat| > 0
    requires NoStraddle(u, v, pat)
    ensures ReplaceAll(u + v, pat, rep) == ReplaceAll(u, pat, rep) + ReplaceAll(v, pat, rep)
    decreases |u|
  {
    var s := u + v;
    if |u| == 0 {
      assert s == v;
    } else if MatchAt(s, pat, 0) {
      assert |pat| <= |u|;
      assert MatchAt(u, pat, 0) by {
        assert u[..|pat|] == s[..|pat|];
      }
      var u' := u[|pat|..];
      assert s[|pat|..] == u' + v;
      forall k: nat | k < |u'| < k + |pat|
        ensures !MatchAt(u' + v, pat, k)
      {
        assert !MatchAt(s, pat, k + |pat|);
        if k + |pat| <= |u' + v| {
          assert (u' + v)[k..k + |pat|] == s[k + |pat|..k + 2 * |pat|];
        }
      }
      ReplaceAllConcat(u', v, pat, rep);
    } else {
      assert !MatchAt(u, pat, 0) by {
        if |pat| <= |u| {
          assert u[..|pat|] == s[..|pat|];
        }
      }
      var u' := u[1..];
      assert s[1..] == u' + v;
      forall k: nat | k < |u'| < k + |pat|
        ensures !MatchAt(u' + v, pat, k)
      {
        assert !MatchAt(s, pat, k + 1);
        if k + |pat| <= |u' + v| {
          assert (u' + v)[k..k + |pat|] == s[k + 1..k + 1 + |pat|];
        }
      }
      ReplaceAllConcat(u', v, pat, rep);
    }
  }

  /** A one-character pattern never crosses a boundary. */
  lemma {:induction false} ReplaceCharConcat(u: string, v: string, c: char, rep: string)
    ensures ReplaceAll(u + v, [c], rep) == ReplaceAll(u, [c], rep) + ReplaceAll(v, [c], rep)
  {
    ReplaceAllConcat(u, v, [c], rep);
  }

  function DigitChar(d: nat): (c: char)
    requires d < 10
    ensures '0' <= c <= '9' && c as int - '0' as int == d
  {
    (d + '0' as int) as char
  }

  predicate IsDigits(s: string)
  {
    forall i :: 0 <= i < |s| ==> '0' <= s[i] <= '9'
  }

  /** `'{}'.format(n)` for a natural number: its decimal digits. */
  function NatToString(n: nat): (r: string)
    ensures |r| > 0 && IsDigits(r)
  {
    if n < 10 then [DigitChar(n)] else NatToString(n / 10) + [DigitChar(n % 10)]
  }

  /** `int(s)` on a string of decimal digits. */
  function ParseNat(s: string): nat
    requires IsDigits(s)
    decreases |s|
  {
    if |s| == 0 then 0
    else ParseNat(s[..|s| - 1]) * 10 + (s[|s| - 1] as int - '0' as int)
  }

  lemma {:induction false} ParseNatToString(n: nat)
    ensures ParseNat(NatToString(n)) == n
  {
    if n >= 10 {
      ParseNatToString(n / 10);
      var s := NatToString(n);
      assert s[..|s| - 1] == NatToString(n / 10);
    }
  }
}
