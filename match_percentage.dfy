/**
 * The `match_percentage` helper of the test suite: the fraction of positions at
 * which two strings agree, over the length of the shorter one.
 */
module MatchPercentage {
  import opened Wrappers

  /** Python raises ZeroDivisionError when the truncated first string is empty. */
  datatype MatchError = ZeroDivision

  function Min(x: nat, y: nat): nat { if x <= y then x else y }

  /** Number of indices `i < n` with `a[i] == b[i]`. */
  function Agreements(a: string, b: string, n: nat): (r: nat)
    requires n <= |a| && n <= |b|
    ensures r <= n
  {
    if n == 0 then 0
    else Agreements(a, b, n - 1) + (if a[n - 1] == b[n - 1] then 1 else 0)
  }

  /** Every position below `n` agrees exactly when the count reaches `n`. */
  lemma {:induction false} AgreementsFull(a: string, b: string, n: nat)
    requires n <= |a| && n <= |b|
    ensures Agreements(a, b, n) == n <==> a[..n] == b[..n]
  {
    if n > 0 {
      AgreementsFull(a, b, n - 1);
      assert a[..n] == a[..n - 1] + [a[n - 1]];
      assert b[..n] == b[..n - 1] + [b[n - 1]];
      if a[..n] == b[..n] {
        assert a[..n - 1] == a[..n][..n - 1];
        assert b[..n - 1] == b[..n][..n - 1];
        assert a[n - 1] == a[..n][n - 1];
      }
    }
  }

  /** The count only looks at the first `n` characters of either string. */
  lemma {:induction false} AgreementsPrefix(a: string, a': string, b: string, n: nat)
    requires n <= |a| && n <= |a'| && n <= |b|
    requires a[..n] == a'[..n]
    ensures Agreements(a, b, n) == Agreements(a', b, n)
  {
    if n > 0 {
      assert a[..n - 1] == a[..n][..n - 1];
      assert a'[..n - 1] == a'[..n][..n - 1];
      assert a[n - 1] == a[..n][n - 1];
      assert a'[n - 1] == a'[..n][n - 1];
      AgreementsPrefix(a, a', b, n - 1);
    }
  }

  /** A count out of `n` positions as a real ratio: it lies in [0, 1] and is 1 only for a full count. */
  function Ratio(count: nat, n: nat): (q: real)
    requires 0 < n && count <= n
    ensures 0.0 <= q <= 1.0
    ensures q == 1.0 <==> count == n
  {
    var q := count as real / n as real;
    assert q * n as real == count as real;
    q
  }

  /**
   * The score is a perfect 1 exactly when the shorter string is a prefix of the
   * longer one; in particular a string scores 1 against itself.
   */
  lemma PerfectScore(a: string, b: string)
    requires |a| > 0 && |b| > 0
    ensures Ratio(Agreements(a, b, Min(|a|, |b|)), Min(|a|, |b|)) == 1.0 <==>
            a[..Min(|a|, |b|)] == b[..Min(|a|, |b|)]
    ensures a == b ==> Ratio(Agreements(a, b, |a|), |a|) == 1.0
  {
    AgreementsFull(a, b, Min(|a|, |b|));
  }

  /** The counting loop of `match_percentage`: positions of `s` at which `b` agrees. */
  method CountMatches(s: string, b: string) returns (count: nat)
    requires |s| <= |b|
    ensures count == Agreements(s, b, |s|)
  {
    count := 0;
    for i := 0 to |s|
      invariant count == Agreements(s, b, i)
    {
      if s[i] == b[i] {
        count := count + 1;
      }
    }
  }

  /**
   * `match_percentage(a, b)`: cut `a` to the shorter length, count the positions
   * where it agrees with `b`, and divide by that length.
   */
  method MatchPercentage(a: string, b: string) returns (r: Result<real, MatchError>)
    ensures r.Failure? <==> |a| == 0 || |b| == 0
    ensures r.Success? && |a| > 0 && |b| > 0 ==> r.value == Ratio(Agreements(a, b, Min(|a|, |b|)), Min(|a|, |b|))
  {
    var s := a;
    if |s| != |b| {
      s := s[..Min(|s|, |b|)];
    } else {
      assert a[..|b|] == a;
    }
    var count := CountMatches(s, b);
    if |s| == 0 {
      r := Failure(ZeroDivision);
    } else {
      AgreementsPrefix(s, a, b, |s|);
      r := Success(Ratio(count, |s|));
    }
  }
}
