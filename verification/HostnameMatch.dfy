/**
 psl_x509_utils: does a certificate's name cover a host name?  Octets are modelled as chars;
 toupper is that of the C locale.
 */
module HostnameMatch {
  import opened Common

  function ToUpper(c: char): char {
    if 'a' <= c <= 'z' then (c as int - 32) as char else c
  }

  /** One is the small letter and the other its capital. */
  predicate CasePair(small: char, capital: char) {
    'a' <= small <= 'z' && 'A' <= capital <= 'Z' && small as int - 'a' as int == capital as int - 'A' as int
  }

  /** Distinct octets are taken for equal exactly when they are the two cases of one ASCII letter. */
  lemma FoldsCaseOnly(a: char, b: char)
    ensures ToUpper(a) == ToUpper(b) <==> a == b || CasePair(a, b) || CasePair(b, a)
  {
  }

  /** Equal octet by octet, ignoring the case of ASCII letters. */
  predicate SameFold(a: string, b: string) {
    |a| == |b| && forall i :: 0 <= i < |a| ==> ToUpper(a[i]) == ToUpper(b[i])
  }

  predicate DotFree(s: string) {
    '.' !in s
  }

  function Dots(s: string): nat {
    if s == "" then 0 else Dots(s[..|s| - 1]) + (if s[|s| - 1] == '.' then 1 else 0)
  }

  /** A '*' at cn[i] stands for hn[i..j]. */
  predicate WildcardAt(cn: string, hn: string, i: nat, j: nat) {
    && i < j <= |hn| && i + 1 < |cn|
    && SameFold(cn[..i], hn[..i]) && DotFree(cn[..i])
    && cn[i] == '*' && cn[i + 1] == '.'
    && DotFree(hn[i..j])
    && SameFold(cn[i + 1..], hn[j..])
    && Dots(cn[i + 1..]) >= 2
  }

  /** What the loop decides: plain equality, or a wildcard that meets an octet other than '*'. */
  ghost predicate Matches(cn: string, hn: string) {
    SameFold(cn, hn) || exists i: nat, j: nat :: WildcardAt(cn, hn, i, j) && hn[i] != '*'
  }

  // ---------------------------------------------------------------------------------------
  // Facts about the declarative side
  // ---------------------------------------------------------------------------------------

  lemma DotsConcat(a: string, b: string)
    ensures Dots(a + b) == Dots(a) + Dots(b)
  {
    if b == "" {
      assert a + b == a;
    } else {
      var n := |a + b|;
      assert (a + b)[..n - 1] == a + b[..|b| - 1];
      DotsConcat(a, b[..|b| - 1]);
    }
  }

  lemma DotFreeHasNoDots(s: string)
    ensures DotFree(s) <==> Dots(s) == 0
  {
    if s != "" {
      DotFreeHasNoDots(s[..|s| - 1]);
      assert s == s[..|s| - 1] + [s[|s| - 1]];
    }
  }

  lemma SameFoldKeepsDots(a: string, b: string)
    requires SameFold(a, b)
    ensures Dots(a) == Dots(b)
  {
    if a != "" {
      assert ToUpper(a[|a| - 1]) == ToUpper(b[|b| - 1]);
      SameFoldKeepsDots(a[..|a| - 1], b[..|b| - 1]);
    }
  }

  lemma SameFoldConcat(a: string, b: string, c: string, d: string)
    requires SameFold(a, b) && SameFold(c, d)
    ensures SameFold(a + c, b + d)
  {
  }

  lemma WildcardKeepsDots(cn: string, hn: string, i: nat, j: nat)
    requires WildcardAt(cn, hn, i, j)
    ensures Dots(cn) == Dots(hn)
  {
    assert cn == cn[..i] + "*" + cn[i + 1..];
    assert hn == hn[..i] + hn[i..j] + hn[j..];
    DotsConcat(cn[..i] + "*", cn[i + 1..]);
    DotsConcat(cn[..i], "*");
    DotFreeHasNoDots("*");
    DotsConcat(hn[..i] + hn[i..j], hn[j..]);
    DotsConcat(hn[..i], hn[i..j]);
    DotFreeHasNoDots(hn[i..j]);
    SameFoldKeepsDots(cn[..i], hn[..i]);
    SameFoldKeepsDots(cn[i + 1..], hn[j..]);
  }

  /** A name only covers host names of as many labels: a wildcard never spans a dot. */
  lemma MatchKeepsLabelCount(cn: string, hn: string)
    requires Matches(cn, hn)
    ensures Dots(cn) == Dots(hn)
  {
    if SameFold(cn, hn) {
      SameFoldKeepsDots(cn, hn);
    } else {
      var i: nat, j: nat :| WildcardAt(cn, hn, i, j) && hn[i] != '*';
      WildcardKeepsDots(cn, hn, i, j);
    }
  }

  /** The shape of section 3.1 of RFC 2818 with the wildcard in the leftmost label. */
  ghost predicate Covers(cn: string, hn: string) {
    SameFold(cn, hn) || exists p, m, r, p', r' :: CoversBy(cn, hn, p, m, r, p', r')
  }

  predicate CoversBy(cn: string, hn: string, p: string, m: string, r: string, p': string, r': string) {
    && cn == p + "*." + r && hn == p' + m + "." + r'
    && SameFold(p, p') && DotFree(p) && DotFree(p')
    && m != "" && DotFree(m)
    && SameFold(r, r')
    && Dots("." + r) >= 2
  }

  lemma Pieces(s: string, p: string, m: string, r: string)
    requires s == p + m + "." + r
    ensures |s| == |p| + |m| + 1 + |r|
    ensures s[..|p|] == p && s[|p|..|p| + |m|] == m && s[|p| + |m|..] == "." + r && s[|p| + |m|] == '.'
  {
  }

  lemma CoversByIsWildcardAt(cn: string, hn: string, p: string, m: string, r: string, p': string, r': string)
    requires CoversBy(cn, hn, p, m, r, p', r')
    ensures WildcardAt(cn, hn, |p|, |p| + |m|)
  {
    assert cn == p + "*" + "." + r;
    Pieces(cn, p, "*", r);
    assert cn[|p|..|p| + 1][0] == '*';
    Pieces(hn, p', m, r');
    SameFoldConcat(".", ".", r, r');
  }

  lemma WildcardAtIsCoversBy(cn: string, hn: string, i: nat, j: nat)
    requires WildcardAt(cn, hn, i, j)
    ensures CoversBy(cn, hn, cn[..i], hn[i..j], cn[i + 2..], hn[..i], hn[j + 1..])
  {
    assert ToUpper(cn[i + 1..][0]) == ToUpper(hn[j..][0]);
    assert hn[j] == '.';
    SameFoldKeepsDots(cn[..i], hn[..i]);
    DotFreeHasNoDots(cn[..i]);
    DotFreeHasNoDots(hn[..i]);
    assert cn == cn[..i] + "*." + cn[i + 2..];
    assert hn == hn[..i] + hn[i..j] + "." + hn[j + 1..];
    assert "." + cn[i + 2..] == cn[i + 1..];
    var x, y := cn[i + 2..], hn[j + 1..];
    assert forall k :: 0 <= k < |x| ==> x[k] == cn[i + 1..][k + 1] && y[k] == hn[j..][k + 1];
    assert SameFold(x, y);
  }

  lemma CoversByIsCovers(cn: string, hn: string, p: string, m: string, r: string, p': string, r': string)
    requires CoversBy(cn, hn, p, m, r, p', r')
    ensures Covers(cn, hn)
  {
  }

  lemma WildcardAtIsCovers(cn: string, hn: string, i: nat, j: nat)
    requires WildcardAt(cn, hn, i, j)
    ensures Covers(cn, hn)
  {
    WildcardAtIsCoversBy(cn, hn, i, j);
    CoversByIsCovers(cn, hn, cn[..i], hn[i..j], cn[i + 2..], hn[..i], hn[j + 1..]);
  }

  lemma WildcardIsCoverage(cn: string, hn: string)
    requires Matches(cn, hn)
    ensures Covers(cn, hn)
  {
    if !SameFold(cn, hn) {
      var i: nat, j: nat :| WildcardAt(cn, hn, i, j) && hn[i] != '*';
      WildcardAtIsCovers(cn, hn, i, j);
    }
  }

  /** The length of the leftmost label. */
  function FirstDot(s: string): (d: nat)
    ensures d <= |s| && DotFree(s[..d]) && (d < |s| ==> s[d] == '.')
  {
    if s == "" || s[0] == '.' then 0
    else
      var d := 1 + FirstDot(s[1..]);
      assert s[..d] == [s[0]] + s[1..][..d - 1];
      d
  }

  lemma {:induction false} FirstDotIs(s: string, k: nat)
    requires k < |s| && DotFree(s[..k]) && s[k] == '.'
    ensures FirstDot(s) == k
  {
    if k > 0 {
      assert s[0] == s[..k][0];
      assert s[1..][..k - 1] == s[..k][1..];
      FirstDotIs(s[1..], k - 1);
    }
  }

  /** The leftmost label of the certificate's name ends in a '*', and the host name has a '*' at its place. */
  predicate StarMeetsStar(cn: string, hn: string) {
    var d := FirstDot(cn);
    0 < d <= |hn| && cn[d - 1] == '*' && hn[d - 1] == '*'
  }

  /** A wildcard can only be the last octet of the leftmost label. */
  lemma WildcardEndsLabel(cn: string, hn: string, i: nat, j: nat)
    requires WildcardAt(cn, hn, i, j)
    ensures FirstDot(cn) == i + 1
  {
    assert cn[..i + 1] == cn[..i] + "*";
    FirstDotIs(cn, i + 1);
  }

  /** By coverage alone: what the loop asks for beyond it. */
  lemma CoverageMatches(cn: string, hn: string)
    requires Covers(cn, hn)
    ensures Matches(cn, hn) <==> SameFold(cn, hn) || !StarMeetsStar(cn, hn)
  {
    if !SameFold(cn, hn) {
      var p, m, r, p', r' :| CoversBy(cn, hn, p, m, r, p', r');
      CoversByIsWildcardAt(cn, hn, p, m, r, p', r');
      forall i: nat, j: nat | WildcardAt(cn, hn, i, j)
        ensures i + 1 == FirstDot(cn)
      {
        WildcardEndsLabel(cn, hn, i, j);
      }
    }
  }

  /**
   For all names: the loop decides coverage exactly, except that a covered host name is refused
   when it has a '*' of its own where the wildcard stands and is not the certificate's name itself.
   */
  lemma MatchesExactly(cn: string, hn: string)
    ensures Matches(cn, hn) <==> Covers(cn, hn) && (SameFold(cn, hn) || !StarMeetsStar(cn, hn))
    ensures !StarMeetsStar(cn, hn) ==> (Matches(cn, hn) <==> Covers(cn, hn))
  {
    if Matches(cn, hn) {
      WildcardIsCoverage(cn, hn);
    }
    if Covers(cn, hn) {
      CoverageMatches(cn, hn);
    }
  }

  /** For a host name without '*' the loop decides exactly the coverage relation. */
  lemma MatchesIsCoverage(cn: string, hn: string)
    requires '*' !in hn
    ensures Matches(cn, hn) <==> Covers(cn, hn)
  {
    MatchesExactly(cn, hn);
  }

  /** It does happen: a certificate's name that covers a host name is refused. */
  lemma LiteralStarHidesTheWildcard()
    ensures Covers("*.a.b", "*x.a.b") && !Matches("*.a.b", "*x.a.b") && StarMeetsStar("*.a.b", "*x.a.b")
  {
    var cn, hn := "*.a.b", "*x.a.b";
    assert Dots(".a.b") >= 2 by {
      DotsConcat(".", "a.b");
      DotsConcat("a", ".b");
      DotsConcat(".", "b");
      assert "a" + ".b" == "a.b" && "." + "b" == ".b" && "." + "a.b" == ".a.b";
    }
    assert CoversBy(cn, hn, "", "*x", "a.b", "", "a.b") by {
      assert cn == "" + "*." + "a.b" && hn == "" + "*x" + "." + "a.b" && "." + "a.b" == ".a.b";
    }
    assert WildcardAt(cn, hn, 0, 2) by {
      CoversByIsWildcardAt(cn, hn, "", "*x", "a.b", "", "a.b");
    }
    WildcardEndsLabel(cn, hn, 0, 2);
    CoversByIsCovers(cn, hn, "", "*x", "a.b", "", "a.b");
    MatchesExactly(cn, hn);
  }

  // ---------------------------------------------------------------------------------------
  // What the loop knows
  // ---------------------------------------------------------------------------------------

  /** `n` octets from a[i] and from b[j] are equal ignoring case. */
  predicate FoldRange(a: string, i: nat, b: string, j: nat, n: nat)
    requires i + n <= |a| && j + n <= |b|
  {
    forall q :: i <= q < i + n ==> ToUpper(a[q]) == ToUpper(b[q - i + j])
  }

  lemma FoldRangeIsSameFold(a: string, i: nat, b: string, j: nat, n: nat)
    requires i + n <= |a| && j + n <= |b|
    ensures FoldRange(a, i, b, j, n) <==> SameFold(a[i..i + n], b[j..j + n])
  {
    var x, y := a[i..i + n], b[j..j + n];
    assert forall q :: i <= q < i + n ==> a[q] == x[q - i] && b[q - i + j] == y[q - i];
    if FoldRange(a, i, b, j, n) {
      forall q | 0 <= q < n
        ensures ToUpper(x[q]) == ToUpper(y[q])
      {
        assert x[q] == a[i + q] && y[q] == b[i + q - i + j];
      }
    }
  }

  /** A witness of the wildcard case, octet by octet. */
  lemma WildcardAtRanges(cn: string, hn: string, i: nat, j: nat)
    requires WildcardAt(cn, hn, i, j)
    ensures |cn| - (i + 1) == |hn| - j
    ensures FoldRange(cn, 0, hn, 0, i) && FoldRange(cn, i + 1, hn, j, |hn| - j)
    ensures forall q :: 0 <= q < i ==> cn[q] != '.'
    ensures forall q :: i <= q < j ==> hn[q] != '.'
    ensures hn[j] == '.'
  {
    FoldRangeIsSameFold(cn, 0, hn, 0, i);
    FoldRangeIsSameFold(cn, i + 1, hn, j, |hn| - j);
    assert cn[i + 1..] == cn[i + 1..i + 1 + (|hn| - j)] && hn[j..] == hn[j..j + (|hn| - j)];
    assert ToUpper(cn[i + 1]) == ToUpper(hn[j]);
    assert forall q :: 0 <= q < i ==> cn[q] == cn[..i][q];
    assert forall q :: i <= q < j ==> hn[q] == hn[i..j][q - i];
  }

  /** The two names agree before k, differ at k, and hn[k..end] is the rest of hn's label. */
  ghost predicate Pinned(cn: string, hn: string, k: nat, end: nat) {
    && k < |cn| && k < end <= |hn|
    && FoldRange(cn, 0, hn, 0, k) && ToUpper(cn[k]) != ToUpper(hn[k])
    && (forall q :: k <= q < end ==> hn[q] != '.')
    && (end < |hn| ==> hn[end] == '.')
  }

  /** A wildcard match can only sit at the first difference. */
  lemma WildcardIsAtFirstDifference(cn: string, hn: string, k: nat, i: nat, j: nat)
    requires k < |cn| && k < |hn| && FoldRange(cn, 0, hn, 0, k) && ToUpper(cn[k]) != ToUpper(hn[k])
    requires WildcardAt(cn, hn, i, j) && hn[i] != '*'
    ensures i == k
  {
    WildcardAtRanges(cn, hn, i, j);
  }

  /** Names of different length that agree as far as the shorter goes do not match. */
  lemma NoMatchWithoutDifference(cn: string, hn: string, k: nat)
    requires k <= |cn| && k <= |hn| && (k == |cn| || k == |hn|) && |cn| != |hn|
    requires FoldRange(cn, 0, hn, 0, k)
    ensures !Matches(cn, hn)
  {
    if i: nat, j: nat :| WildcardAt(cn, hn, i, j) && hn[i] != '*' {
      assert false;
    }
  }

  /** The names first differ at k and no wildcard fits there. */
  lemma NoMatchAtDifference(cn: string, hn: string, k: nat)
    requires k < |cn| && k < |hn| && FoldRange(cn, 0, hn, 0, k) && ToUpper(cn[k]) != ToUpper(hn[k])
    requires cn[k] != '*' || Dots(cn[..k]) != 0 || k == |cn| - 1 || cn[k + 1] != '.' || hn[k] == '.'
    ensures !Matches(cn, hn)
  {
    if i: nat, j: nat :| WildcardAt(cn, hn, i, j) && hn[i] != '*' {
      WildcardIsAtFirstDifference(cn, hn, k, i, j);
      WildcardAtRanges(cn, hn, i, j);
      DotFreeHasNoDots(cn[..k]);
      assert false;
    }
  }

  /** Once hn[k..end] is taken by the wildcard, what follows has to be equal and hold two dots. */
  lemma NoMatchAfterWildcard(cn: string, hn: string, k: nat, end: nat)
    requires Pinned(cn, hn, k, end)
    requires !SameFold(cn[k + 1..], hn[end..]) || Dots(cn[k + 1..]) < 2
    ensures !Matches(cn, hn)
  {
    if i: nat, j: nat :| WildcardAt(cn, hn, i, j) && hn[i] != '*' {
      WildcardIsAtFirstDifference(cn, hn, k, i, j);
      WildcardAtRanges(cn, hn, i, j);
      assert false;
    }
  }

  /** The loop's state: before the wildcard, or after the wildcard at `w` that took hn[w..e]. */
  ghost predicate Scan(cn: string, hn: string, c: nat, h: nat, dots: int, wildLabel: int, w: nat, e: nat) {
    && c <= |cn| && h <= |hn|
    && if wildLabel == -1 then
         c == h && FoldRange(cn, 0, hn, 0, c) && dots == Dots(cn[..c])
       else
         && wildLabel == 0 && Pinned(cn, hn, w, e)
         && cn[w] == '*' && Dots(cn[..w]) == 0 && hn[w] != '*' && w + 1 < |cn| && cn[w + 1] == '.'
         && w + 1 <= c && h == e + (c - (w + 1))
         && FoldRange(cn, w + 1, hn, e, c - (w + 1)) && dots == Dots(cn[w + 1..c])
         && (w + 1 < c ==> 0 < dots)
  }

  lemma ScanAdvances(cn: string, hn: string, c: nat, h: nat, dots: int, wildLabel: int, w: nat, e: nat)
    requires Scan(cn, hn, c, h, dots, wildLabel, w, e)
    requires c < |cn| && h < |hn| && ToUpper(cn[c]) == ToUpper(hn[h])
    ensures Scan(cn, hn, c + 1, h + 1, dots + (if ToUpper(cn[c]) == '.' then 1 else 0), wildLabel, w, e)
  {
    if wildLabel == -1 {
      assert cn[..c + 1][..c] == cn[..c];
    } else {
      var x := cn[w + 1..c + 1];
      assert x[..|x| - 1] == cn[w + 1..c] && x[|x| - 1] == cn[c];
    }
  }

  lemma ScanAccepts(cn: string, hn: string, dots: int, wildLabel: int, w: nat, e: nat)
    requires Scan(cn, hn, |cn|, |hn|, dots, wildLabel, w, e)
    ensures Matches(cn, hn) <==> (wildLabel >= 0 ==> dots - wildLabel >= 2)
  {
    if wildLabel == -1 {
      FoldRangeIsSameFold(cn, 0, hn, 0, |cn|);
      assert cn[0..|cn|] == cn && hn[0..|hn|] == hn;
    } else {
      FoldRangeIsSameFold(cn, w + 1, hn, e, |hn| - e);
      assert cn[w + 1..w + 1 + (|hn| - e)] == cn[w + 1..] && hn[e..e + (|hn| - e)] == hn[e..];
      assert cn[w + 1..|cn|] == cn[w + 1..];
      FoldRangeIsSameFold(cn, 0, hn, 0, w);
      assert cn[0..w] == cn[..w] && hn[0..w] == hn[..w];
      DotFreeHasNoDots(cn[..w]);
      if dots - wildLabel >= 2 {
        assert WildcardAt(cn, hn, w, e);
      } else {
        NoMatchAfterWildcard(cn, hn, w, e);
      }
    }
  }

  /** Only one name ended. */
  lemma ScanRunsOut(cn: string, hn: string, c: nat, h: nat, dots: int, wildLabel: int, w: nat, e: nat)
    requires Scan(cn, hn, c, h, dots, wildLabel, w, e)
    requires (c == |cn|) != (h == |hn|)
    ensures !Matches(cn, hn)
  {
    if wildLabel == -1 {
      NoMatchWithoutDifference(cn, hn, c);
    } else {
      assert |cn[w + 1..]| != |hn[e..]|;
      NoMatchAfterWildcard(cn, hn, w, e);
    }
  }

  /** The current octets differ and the guards for taking a wildcard do not all hold. */
  lemma ScanRefuses(cn: string, hn: string, c: nat, h: nat, dots: int, wildLabel: int, w: nat, e: nat)
    requires Scan(cn, hn, c, h, dots, wildLabel, w, e)
    requires c < |cn| && h < |hn| && ToUpper(cn[c]) != ToUpper(hn[h])
    requires cn[c] != '*' || dots != 0 || c == |cn| - 1 || cn[c + 1] != '.' || hn[h] == '.'
    ensures !Matches(cn, hn)
  {
    if wildLabel == -1 {
      NoMatchAtDifference(cn, hn, c);
    } else {
      ScanDiffersAgain(cn, hn, c, h, dots, wildLabel, w, e);
    }
  }

  /** A second difference ends the search, whatever the octets are. */
  lemma ScanDiffersAgain(cn: string, hn: string, c: nat, h: nat, dots: int, wildLabel: int, w: nat, e: nat)
    requires Scan(cn, hn, c, h, dots, wildLabel, w, e) && wildLabel != -1
    requires c < |cn| && h < |hn| && ToUpper(cn[c]) != ToUpper(hn[h])
    ensures !Matches(cn, hn) && dots != 0
  {
    var n := c - (w + 1);
    assert cn[w + 1..][n] == cn[c] && hn[e..][n] == hn[h];
    NoMatchAfterWildcard(cn, hn, w, e);
  }

  // ---------------------------------------------------------------------------------------
  // The loop
  // ---------------------------------------------------------------------------------------

  method CheckCertHostNameMatch(cn: string, hn: string, opts: int) returns (err: PslError, matchRes: bool)
    ensures err.Invalid? <==> opts != 0 || cn == "" || hn == ""
    ensures err.NoError? || err.Invalid?
    ensures err.NoError? ==> (matchRes <==> Matches(cn, hn))
  {
    matchRes := false;
    if opts != 0 {
      return Invalid, matchRes;
    }
    if |cn| == 0 || |hn| == 0 {
      return Invalid, matchRes;
    }
    err := NoError;

    var cnLastOctetIdx := |cn| - 1;
    var curLabelIdx := 0;
    var wildLabelIdx := -1;
    var cnIdx, hnIdx := 0, 0;
    ghost var wild, end := 0, 0;
    while true
      invariant err.NoError? && Scan(cn, hn, cnIdx, hnIdx, curLabelIdx, wildLabelIdx, wild, end)
      decreases |cn| - cnIdx
    {
      if cnIdx == |cn| && hnIdx == |hn| {
        ScanAccepts(cn, hn, curLabelIdx, wildLabelIdx, wild, end);
        if wildLabelIdx >= 0 {
          if curLabelIdx - wildLabelIdx < 2 {
            return err, false;
          }
        }
        return err, true;
      } else if cnIdx == |cn| || hnIdx == |hn| {
        ScanRunsOut(cn, hn, cnIdx, hnIdx, curLabelIdx, wildLabelIdx, wild, end);
        return err, false;
      }

      var cnOctet := ToUpper(cn[cnIdx]);
      var hnOctet := ToUpper(hn[hnIdx]);
      if cnOctet == hnOctet {
        ScanAdvances(cn, hn, cnIdx, hnIdx, curLabelIdx, wildLabelIdx, wild, end);
        if cnOctet == '.' {
          curLabelIdx := curLabelIdx + 1;
        }
        cnIdx := cnIdx + 1;
        hnIdx := hnIdx + 1;
        continue;
      }
      if cnOctet != '*' {
        ScanRefuses(cn, hn, cnIdx, hnIdx, curLabelIdx, wildLabelIdx, wild, end);
        return err, false;
      }
      if 0 != curLabelIdx {
        ScanRefuses(cn, hn, cnIdx, hnIdx, curLabelIdx, wildLabelIdx, wild, end);
        return err, false;
      }
      if wildLabelIdx != -1 {
        ScanDiffersAgain(cn, hn, cnIdx, hnIdx, curLabelIdx, wildLabelIdx, wild, end);
      }
      if cnIdx == cnLastOctetIdx {
        ScanRefuses(cn, hn, cnIdx, hnIdx, curLabelIdx, wildLabelIdx, wild, end);
        return err, false;
      }
      if cn[cnIdx + 1] != '.' {
        ScanRefuses(cn, hn, cnIdx, hnIdx, curLabelIdx, wildLabelIdx, wild, end);
        return err, false;
      }
      if hnOctet == '.' {
        ScanRefuses(cn, hn, cnIdx, hnIdx, curLabelIdx, wildLabelIdx, wild, end);
        return err, false;
      }

      wildLabelIdx := curLabelIdx;
      wild := cnIdx;
      cnIdx := cnIdx + 1;
      hnIdx := hnIdx + 1;
      while hnIdx < |hn| && hn[hnIdx] != '.'
        invariant wild < hnIdx <= |hn| && forall q :: wild <= q < hnIdx ==> hn[q] != '.'
      {
        hnIdx := hnIdx + 1;
      }
      end := hnIdx;
      assert cn[wild + 1..cnIdx] == "";
    }
  }
}
