/** The candidate business years of `get_financial_statement` (src/tools.py). */
module Years {
  import opened Text

  /** The year a lookup assumes when none is given: `str(current_year - 1)`. */
  function DefaultYear(currentYear: int): string {
    IntToString(currentYear - 1)
  }

  /** The three most recent completed years, newest first. */
  function RecentYears(currentYear: int): seq<string> {
    [IntToString(currentYear - 1), IntToString(currentYear - 2), IntToString(currentYear - 3)]
  }

  /** The elements of `ys` other than `y`, in order. */
  function Without(ys: seq<string>, y: string): (r: seq<string>)
    ensures |r| <= |ys|
    ensures forall x :: x in r <==> x in ys && x != y
    ensures y !in ys ==> r == ys
  {
    if ys == [] then []
    else (if ys[0] == y then [] else [ys[0]]) + Without(ys[1..], y)
  }

  predicate NoDuplicates(s: seq<string>) {
    forall i, j :: 0 <= i < j < |s| ==> s[i] != s[j]
  }

  /**
   * `years_to_try`: the requested year first, then the three most recent
   * years without the requested one (the else branch is taken only for an
   * empty request, which the caller has already replaced by the default).
   */
  function YearsToTry(bsnsYear: string, currentYear: int): seq<string> {
    if bsnsYear != "" then [bsnsYear] + Without(RecentYears(currentYear), bsnsYear)
    else RecentYears(currentYear)
  }

  /** The three recent years are pairwise distinct. */
  lemma RecentYearsDistinct(currentYear: int)
    ensures NoDuplicates(RecentYears(currentYear))
  {
    var c := currentYear;
    IntToStringInjective(c - 1, c - 2);
    IntToStringInjective(c - 1, c - 3);
    IntToStringInjective(c - 2, c - 3);
  }

  /** Dropping elements keeps a list free of duplicates. */
  lemma {:induction false} WithoutKeepsDistinct(ys: seq<string>, y: string)
    requires NoDuplicates(ys)
    ensures NoDuplicates(Without(ys, y))
  {
    if ys != [] {
      WithoutKeepsDistinct(ys[1..], y);
      var rest := Without(ys[1..], y);
      assert ys[0] !in ys[1..] by {
        forall j | 0 <= j < |ys[1..]| ensures ys[1..][j] != ys[0] {
          assert ys[1..][j] == ys[j + 1];
        }
      }
      assert ys[0] !in rest;
    }
  }

  /**
   * The shape of `years_to_try` for a non-empty request: it starts with the
   * requested year, never names it again, has no duplicates, and holds three
   * or four years; it has three exactly when the requested year is one of
   * the three recent ones.
   */
  lemma YearsToTryShape(bsnsYear: string, currentYear: int)
    requires bsnsYear != ""
    ensures var ys := YearsToTry(bsnsYear, currentYear);
            && ys[0] == bsnsYear
            && (forall i :: 1 <= i < |ys| ==> ys[i] != bsnsYear)
            && NoDuplicates(ys)
            && 3 <= |ys| <= 4
            && (|ys| == 3 <==> bsnsYear in RecentYears(currentYear))
            && (forall i :: 1 <= i < |ys| ==> ys[i] in RecentYears(currentYear))
  {
    var recent := RecentYears(currentYear);
    var rest := Without(recent, bsnsYear);
    var ys := [bsnsYear] + rest;
    RecentYearsDistinct(currentYear);
    WithoutKeepsDistinct(recent, bsnsYear);
    assert forall i :: 1 <= i < |ys| ==> ys[i] == rest[i - 1];
    if bsnsYear in recent {
      var k :| 0 <= k < 3 && recent[k] == bsnsYear;
      WithoutDropsOne(recent, bsnsYear, k);
    }
  }

  /** Removing an element that occurs exactly once shortens the list by one. */
  lemma {:induction false} WithoutDropsOne(ys: seq<string>, y: string, k: nat)
    requires NoDuplicates(ys) && k < |ys| && ys[k] == y
    ensures |Without(ys, y)| == |ys| - 1
  {
    if k == 0 {
      assert y !in ys[1..] by {
        forall j | 0 <= j < |ys[1..]| ensures ys[1..][j] != y {
          assert ys[1..][j] == ys[j + 1];
        }
      }
    } else {
      assert ys[1..][k - 1] == y;
      WithoutDropsOne(ys[1..], y, k - 1);
    }
  }

  /** Removing an element that occurs exactly once cuts the list at its position. */
  lemma {:induction false} WithoutAt(ys: seq<string>, k: nat)
    requires NoDuplicates(ys) && k < |ys|
    ensures Without(ys, ys[k]) == ys[..k] + ys[k + 1..]
  {
    var y := ys[k];
    if k == 0 {
      assert y !in ys[1..] by {
        forall j | 0 <= j < |ys[1..]| ensures ys[1..][j] != y {
          assert ys[1..][j] == ys[j + 1];
        }
      }
    } else {
      var tail := ys[1..];
      assert NoDuplicates(tail) by {
        forall i, j | 0 <= i < j < |tail| ensures tail[i] != tail[j] {
          assert tail[i] == ys[i + 1] && tail[j] == ys[j + 1];
        }
      }
      assert tail[k - 1] == y;
      WithoutAt(tail, k - 1);
      assert ys[0] != y;
      assert ys[..k] == [ys[0]] + tail[..k - 1];
      assert ys[k + 1..] == tail[k..];
    }
  }

  /**
   * The order of `years_to_try` for a non-empty request: the requested year,
   * then last year, two years ago and three years ago, newest first, leaving
   * out the one equal to the request.
   */
  lemma YearsToTryOrder(bsnsYear: string, currentYear: int)
    requires bsnsYear != ""
    ensures var ys, recent := YearsToTry(bsnsYear, currentYear), RecentYears(currentYear);
            && (bsnsYear !in recent ==> ys == [bsnsYear] + recent)
            && (forall k :: 0 <= k < 3 && recent[k] == bsnsYear ==> ys == [bsnsYear] + recent[..k] + recent[k + 1..])
  {
    var recent := RecentYears(currentYear);
    RecentYearsDistinct(currentYear);
    forall k | 0 <= k < 3 && recent[k] == bsnsYear
      ensures YearsToTry(bsnsYear, currentYear) == [bsnsYear] + recent[..k] + recent[k + 1..]
    {
      WithoutAt(recent, k);
    }
  }

  /** With the default year, the candidates are exactly the three recent years. */
  lemma DefaultYearCandidates(currentYear: int)
    ensures YearsToTry(DefaultYear(currentYear), currentYear) == RecentYears(currentYear)
  {
    var recent := RecentYears(currentYear);
    var y := DefaultYear(currentYear);
    RecentYearsDistinct(currentYear);
    assert recent[1..] == [recent[1], recent[2]];
    assert recent[1..][1..] == [recent[2]];
    assert Without(recent, y) == Without(recent[1..], y);
    assert Without(recent[1..], y) == [recent[1]] + Without(recent[1..][1..], y);
  }
}
