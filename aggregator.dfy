/**
 The monthly summary of `recomputeMonth`: scan the user's entry documents, keep
 those whose date falls in the target month, count them, sum each goal's rating,
 and turn each sum into a percentage of the best possible score.
 */
module MonthAggregator {
  import opened Options
  import opened Goals
  import opened Dates
  import opened Documents

  /** The scan's accumulators: the number of matching entries and each goal's rating sum. */
  datatype Tally = Tally(count: nat, sum: GoalRecord<int>)

  const ZERO: Tally := Tally(0, Uniform(0))

  function Add(a: Tally, b: Tally): Tally {
    Tally(a.count + b.count,
          GoalRecord(a.sum.material + b.sum.material, a.sum.ego + b.sum.ego, a.sum.running + b.sum.running))
  }

  lemma AddZero(t: Tally)
    ensures Add(ZERO, t) == t && Add(t, ZERO) == t
  {
  }

  lemma AddCommutes(a: Tally, b: Tally)
    ensures Add(a, b) == Add(b, a)
  {
  }

  lemma AddAssociates(a: Tally, b: Tally, c: Tally)
    ensures Add(Add(a, b), c) == Add(a, Add(b, c))
  {
  }

  /** The stored rating of goal `g` as the scan reads it: 0 when it is absent. */
  function RatingOrZero(doc: Doc, g: GoalKey): int {
    match StoredRating(doc, g)
    case None => 0
    case Some(n) => n
  }

  /** A document whose date field lies in month `mk`. */
  predicate InMonth(doc: Doc, mk: string) {
    DateOf(doc).Some? && MonthKey(DateOf(doc).value) == mk
  }

  /** What one scanned document adds to the accumulators. */
  function Contribution(doc: Doc, mk: string): Tally {
    if InMonth(doc, mk) then
      Tally(1, GoalRecord(RatingOrZero(doc, Material), RatingOrZero(doc, Ego), RatingOrZero(doc, Running)))
    else
      ZERO
  }

  /** The accumulators after scanning `snaps` in order. */
  function Accumulate(snaps: seq<Doc>, mk: string): Tally {
    if snaps == [] then ZERO
    else Add(Accumulate(snaps[..|snaps| - 1], mk), Contribution(snaps[|snaps| - 1], mk))
  }

  /** The documents of `snaps` that lie in month `mk`, in order. */
  function InMonthOnly(snaps: seq<Doc>, mk: string): (r: seq<Doc>)
    ensures forall i :: 0 <= i < |r| ==> InMonth(r[i], mk)
  {
    if snaps == [] then []
    else if InMonth(snaps[|snaps| - 1], mk) then InMonthOnly(snaps[..|snaps| - 1], mk) + [snaps[|snaps| - 1]]
    else InMonthOnly(snaps[..|snaps| - 1], mk)
  }

  /**
   The percentage of the best possible score (5 per entry) in exact arithmetic:
   0 for an empty month, else 20 * sum / count rounded to the nearest integer,
   halves upwards (as `Math.round` does, also for negative values). PctRounds
   states this.
   */
  function Pct(sum: int, count: nat): int {
    if count == 0 then 0 else (40 * sum + count) / (2 * count)
  }

  /** `r` is 20 * sum / count rounded to the nearest integer, halves upwards. */
  predicate RoundsTo(sum: int, count: nat, r: int) {
    2 * count * r - count <= 40 * sum < 2 * count * r + count
  }

  /** An empty month scores 0; otherwise the percentage is the rounded 20 * sum / count. */
  lemma PctRounds(sum: int, count: nat)
    ensures count == 0 ==> Pct(sum, count) == 0
    ensures count > 0 ==> RoundsTo(sum, count, Pct(sum, count))
  {
    if count > 0 {
      var q := Pct(sum, count);
      assert q * (2 * count) + (40 * sum + count) % (2 * count) == 40 * sum + count;
    }
  }

  /** A round-half-up result is unique: any `r` meeting RoundsTo is Pct's result. */
  lemma PctIsUnique(sum: int, count: nat, r: int)
    requires count > 0 && RoundsTo(sum, count, r)
    ensures r == Pct(sum, count)
  {
    PctRounds(sum, count);
    RoundingUnique(sum, count, r, Pct(sum, count));
  }

  lemma RoundingUnique(sum: int, count: nat, r: int, p: int)
    requires count > 0 && RoundsTo(sum, count, r) && RoundsTo(sum, count, p)
    ensures r == p
  {
    if r < p {
      MulMonotone(count, r + 1, p);
    } else if p < r {
      MulMonotone(count, p + 1, r);
    }
  }

  lemma MulMonotone(c: nat, x: int, y: int)
    requires c > 0 && x <= y
    ensures 2 * c * x <= 2 * c * y
  {
  }

  /** One percentage per goal from the accumulators. */
  function Percentages(t: Tally): (pct: GoalRecord<int>)
    ensures forall g :: pct.Get(g) == Pct(t.sum.Get(g), t.count)
  {
    GoalRecord(Pct(t.sum.material, t.count), Pct(t.sum.ego, t.count), Pct(t.sum.running, t.count))
  }

  /** The month document that a scan of `snaps` for month `mk` produces. */
  function MonthSummary(snaps: seq<Doc>, mk: string): GoalRecord<int> {
    Percentages(Accumulate(snaps, mk))
  }

  /** Scanning one more document adds its contribution. */
  lemma AccumulateStep(snaps: seq<Doc>, i: nat, mk: string)
    requires i < |snaps|
    ensures Accumulate(snaps[..i + 1], mk) == Add(Accumulate(snaps[..i], mk), Contribution(snaps[i], mk))
  {
    assert snaps[..i + 1][..i] == snaps[..i];
  }

  /** A document in the month counts once with its ratings; any other adds nothing. */
  lemma ContributionCases(doc: Doc, mk: string)
    ensures InMonth(doc, mk) ==>
              Contribution(doc, mk) == Tally(1, GoalRecord(RatingOrZero(doc, Material), RatingOrZero(doc, Ego),
                                                       RatingOrZero(doc, Running)))
    ensures !InMonth(doc, mk) ==> Contribution(doc, mk) == ZERO
  {
  }

  /**
   A document whose `date` field is present but does not hold text: taking its
   month key throws. (The query never returns a document without a `date` field.)
   */
  predicate UnreadableDate(doc: Doc) {
    DateField in doc && !doc[DateField].Str?
  }

  /**
   The scan loop of `recomputeMonth`. A document whose date is not text makes
   `monthKey` throw, and the whole recomputation fails; a document without a
   date field, which the query leaves out, is skipped.
   */
  method Aggregate(snaps: seq<Doc>, mk: string) returns (r: Option<GoalRecord<int>>)
    ensures r.None? <==> exists i :: 0 <= i < |snaps| && UnreadableDate(snaps[i])
    ensures r.Some? ==> r.value == MonthSummary(snaps, mk)
  {
    var count: nat := 0;
    var sum := GoalRecord(0, 0, 0);
    var i := 0;
    while i < |snaps|
      invariant 0 <= i <= |snaps|
      invariant forall j :: 0 <= j < i ==> !UnreadableDate(snaps[j])
      invariant Tally(count, sum) == Accumulate(snaps[..i], mk)
    {
      var d := snaps[i];
      if UnreadableDate(d) {
        return None;
      }
      AccumulateStep(snaps, i, mk);
      ContributionCases(d, mk);
      // the date is text here, or absent (which the query excludes)
      if InMonth(d, mk) {
        count := count + 1;
        sum := GoalRecord(sum.material + RatingOrZero(d, Material),
                          sum.ego + RatingOrZero(d, Ego),
                          sum.running + RatingOrZero(d, Running));
      }
      i := i + 1;
    }
    assert snaps[..i] == snaps;
    r := Some(GoalRecord(Pct(sum.material, count), Pct(sum.ego, count), Pct(sum.running, count)));
  }

  /** Scanning two sequences one after the other adds their accumulators. */
  lemma {:induction false} AccumulateAppend(a: seq<Doc>, b: seq<Doc>, mk: string)
    ensures Accumulate(a + b, mk) == Add(Accumulate(a, mk), Accumulate(b, mk))
  {
    if b == [] {
      assert a + b == a;
      AddZero(Accumulate(a, mk));
    } else {
      var b' := b[..|b| - 1];
      var last := b[|b| - 1];
      assert (a + b)[..|a + b| - 1] == a + b';
      assert (a + b)[|a + b| - 1] == last;
      AccumulateAppend(a, b', mk);
      AddAssociates(Accumulate(a, mk), Accumulate(b', mk), Contribution(last, mk));
    }
  }

  /** Scanning one document alone gives that document's contribution. */
  lemma AccumulateSingle(doc: Doc, mk: string)
    ensures Accumulate([doc], mk) == Contribution(doc, mk)
  {
    var c := Contribution(doc, mk);
    assert [doc][..0] == [];
    assert Accumulate([doc], mk) == Add(Accumulate([], mk), c);
    AddZero(c);
  }

  /** The summary depends only on the multiset of scanned documents, not on their order. */
  lemma {:induction false} AccumulatePermutation(a: seq<Doc>, b: seq<Doc>, mk: string)
    requires multiset(a) == multiset(b)
    ensures Accumulate(a, mk) == Accumulate(b, mk)
    decreases |a|
  {
    if a == [] {
      assert |b| == |multiset(b)| == 0;
    } else {
      var n := |a|;
      var x := a[n - 1];
      assert a == a[..n - 1] + [x];
      assert x in multiset(b);
      var k :| 0 <= k < |b| && b[k] == x;
      assert b == b[..k] + [x] + b[k + 1..];
      var rest := b[..k] + b[k + 1..];
      assert multiset(a[..n - 1]) == multiset(rest) by {
        assert multiset(a) == multiset(a[..n - 1]) + multiset{x};
        assert multiset(b) == multiset(b[..k]) + multiset{x} + multiset(b[k + 1..]);
        assert multiset(rest) == multiset(b[..k]) + multiset(b[k + 1..]);
        forall y
          ensures multiset(a[..n - 1])[y] == multiset(rest)[y]
        {
          assert multiset(a)[y] == multiset(a[..n - 1])[y] + multiset{x}[y];
          assert multiset(b)[y] == multiset(b[..k])[y] + multiset{x}[y] + multiset(b[k + 1..])[y];
        }
      }
      AccumulatePermutation(a[..n - 1], rest, mk);
      var left, right, c := Accumulate(b[..k], mk), Accumulate(b[k + 1..], mk), Contribution(x, mk);
      AccumulateAppend(b[..k], b[k + 1..], mk);
      AccumulateAppend(b[..k] + [x], b[k + 1..], mk);
      AccumulateAppend(b[..k], [x], mk);
      AccumulateSingle(x, mk);
      // Accumulate(a) == (left + right) + c and Accumulate(b) == (left + c) + right
      AddAssociates(left, right, c);
      AddCommutes(right, c);
      AddAssociates(left, c, right);
    }
  }

  /** Hence the summary too ignores the order of the scan. */
  lemma SummaryPermutation(a: seq<Doc>, b: seq<Doc>, mk: string)
    requires multiset(a) == multiset(b)
    ensures MonthSummary(a, mk) == MonthSummary(b, mk)
  {
    AccumulatePermutation(a, b, mk);
  }

  /** Documents outside the month change neither the count nor any sum. */
  lemma {:induction false} OnlyMonthCounts(snaps: seq<Doc>, mk: string)
    ensures Accumulate(snaps, mk) == Accumulate(InMonthOnly(snaps, mk), mk)
    ensures Accumulate(snaps, mk).count == |InMonthOnly(snaps, mk)|
  {
    if snaps != [] {
      var n := |snaps|;
      var init, last := snaps[..n - 1], snaps[n - 1];
      OnlyMonthCounts(init, mk);
      var kept := InMonthOnly(init, mk);
      var t0, c := Accumulate(init, mk), Contribution(last, mk);
      assert Accumulate(snaps, mk) == Add(t0, c);
      if InMonth(last, mk) {
        assert InMonthOnly(snaps, mk) == kept + [last];
        AccumulateAppend(kept, [last], mk);
        AccumulateSingle(last, mk);
        assert c.count == 1;
      } else {
        assert InMonthOnly(snaps, mk) == kept;
        assert c == ZERO;
        AddZero(t0);
      }
    }
  }

  /** Inserting a document of another month anywhere in the scan leaves the summary unchanged. */
  lemma OtherMonthIgnored(a: seq<Doc>, doc: Doc, b: seq<Doc>, mk: string)
    requires !InMonth(doc, mk)
    ensures MonthSummary(a + [doc] + b, mk) == MonthSummary(a + b, mk)
  {
    AccumulateAppend(a + [doc], b, mk);
    AccumulateAppend(a, [doc], mk);
    AccumulateAppend(a, b, mk);
    AccumulateSingle(doc, mk);
    assert Contribution(doc, mk) == ZERO;
    AddZero(Accumulate(a, mk));
  }

  /** A month without a single matching entry scores 0 for every goal. */
  lemma EmptyMonthIsZero(snaps: seq<Doc>, mk: string)
    requires forall i :: 0 <= i < |snaps| ==> !InMonth(snaps[i], mk)
    ensures forall g :: MonthSummary(snaps, mk).Get(g) == 0
  {
    OnlyMonthCounts(snaps, mk);
    if InMonthOnly(snaps, mk) != [] {
      NotInMonthOnly(snaps, mk);
    }
  }

  /** Every document that the filter keeps comes from the scan and lies in the month. */
  lemma {:induction false} NotInMonthOnly(snaps: seq<Doc>, mk: string)
    requires InMonthOnly(snaps, mk) != []
    ensures exists i :: 0 <= i < |snaps| && InMonth(snaps[i], mk)
  {
    var n := |snaps|;
    if InMonth(snaps[n - 1], mk) {
      assert InMonth(snaps[n - 1], mk);
    } else {
      NotInMonthOnly(snaps[..n - 1], mk);
      var i :| 0 <= i < n - 1 && InMonth(snaps[..n - 1][i], mk);
      assert snaps[..n - 1][i] == snaps[i];
    }
  }

  /**
   An entry of the month without a rating for goal `g` still counts as an entry,
   and adds 0 to that goal's sum.
   */
  lemma MissingRatingStillCounts(snaps: seq<Doc>, doc: Doc, g: GoalKey, mk: string)
    requires InMonth(doc, mk) && StoredRating(doc, g).None?
    ensures Accumulate(snaps + [doc], mk).count == Accumulate(snaps, mk).count + 1
    ensures Accumulate(snaps + [doc], mk).sum.Get(g) == Accumulate(snaps, mk).sum.Get(g)
  {
    assert (snaps + [doc])[..|snaps|] == snaps;
    GoalCases(g);
  }

  /** Between lo and hi per entry, the percentage lies between 20 * lo and 20 * hi. */
  lemma PctBetween(sum: int, count: nat, lo: int, hi: int)
    requires count > 0 && lo * count <= sum <= hi * count
    ensures 20 * lo <= Pct(sum, count) <= 20 * hi
  {
    PctRounds(sum, count);
    RoundingBetween(sum, count, Pct(sum, count), lo, hi);
  }

  lemma RoundingBetween(sum: int, count: nat, r: int, lo: int, hi: int)
    requires count > 0 && lo * count <= sum <= hi * count && RoundsTo(sum, count, r)
    ensures 20 * lo <= r <= 20 * hi
  {
    // 2 * count * r + count > 40 * sum >= 40 * lo * count, so 2 * r + 1 > 40 * lo
    assert count * (2 * r + 1) > count * (40 * lo);
    assert 2 * r + 1 > 40 * lo by {
      if 2 * r + 1 <= 40 * lo {
        MulLe(count, 2 * r + 1, 40 * lo);
      }
    }
    // 2 * count * r - count <= 40 * sum <= 40 * hi * count, so 2 * r - 1 <= 40 * hi
    assert count * (2 * r - 1) <= count * (40 * hi);
    assert 2 * r - 1 <= 40 * hi by {
      if 2 * r - 1 > 40 * hi {
        MulLe(count, 40 * hi + 1, 2 * r - 1);
      }
    }
  }

  lemma MulSucc(x: int, n: int)
    ensures x * (n + 1) == x * n + x
  {
  }

  lemma MulLe(c: nat, x: int, y: int)
    requires x <= y
    ensures c * x <= c * y
  {
  }

  /** The rating sum of goal `g` lies between lo and hi times the count when every matching rating does. */
  lemma {:induction false} SumBetween(snaps: seq<Doc>, mk: string, g: GoalKey, lo: int, hi: int)
    requires forall i :: 0 <= i < |snaps| && InMonth(snaps[i], mk) ==> lo <= RatingOrZero(snaps[i], g) <= hi
    ensures var t := Accumulate(snaps, mk); lo * t.count <= t.sum.Get(g) <= hi * t.count
  {
    if snaps != [] {
      var n := |snaps|;
      var init, last := snaps[..n - 1], snaps[n - 1];
      assert forall i :: 0 <= i < |init| ==> init[i] == snaps[i];
      SumBetween(init, mk, g, lo, hi);
      var t0, c := Accumulate(init, mk), Contribution(last, mk);
      assert Accumulate(snaps, mk) == Add(t0, c);
      AddGet(t0, c, g);
      if InMonth(last, mk) {
        assert c.count == 1 && c.sum.Get(g) == RatingOrZero(last, g) by {
          GoalCases(g);
        }
        BoundStep(lo, hi, t0.count, t0.sum.Get(g), c.sum.Get(g));
      } else {
        assert c == ZERO;
      }
    }
  }

  lemma AddGet(a: Tally, b: Tally, g: GoalKey)
    ensures Add(a, b).count == a.count + b.count
    ensures Add(a, b).sum.Get(g) == a.sum.Get(g) + b.sum.Get(g)
  {
    GoalCases(g);
  }

  lemma BoundStep(lo: int, hi: int, count: nat, sum: int, x: int)
    requires lo * count <= sum <= hi * count && lo <= x <= hi
    ensures lo * (count + 1) <= sum + x <= hi * (count + 1)
  {
    MulSucc(lo, count);
    MulSucc(hi, count);
  }

  /** Ratings between 0 and 5 (a missing one counting as 0) give a percentage between 0 and 100. */
  lemma PercentInRange(snaps: seq<Doc>, mk: string, g: GoalKey)
    requires forall i :: 0 <= i < |snaps| && InMonth(snaps[i], mk) ==> 0 <= RatingOrZero(snaps[i], g) <= 5
    ensures 0 <= MonthSummary(snaps, mk).Get(g) <= 100
  {
    SumBetween(snaps, mk, g, 0, 5);
    if Accumulate(snaps, mk).count > 0 {
      PctBetween(Accumulate(snaps, mk).sum.Get(g), Accumulate(snaps, mk).count, 0, 5);
    }
  }

  /**
   When at least one entry falls in the month and every one of them holds a rating
   between 1 and 5, the percentage lies between 20 and 100.
   */
  lemma RatedPercentInRange(snaps: seq<Doc>, mk: string, g: GoalKey)
    requires exists i :: 0 <= i < |snaps| && InMonth(snaps[i], mk)
    requires forall i :: 0 <= i < |snaps| && InMonth(snaps[i], mk) ==> 1 <= RatingOrZero(snaps[i], g) <= 5
    ensures 20 <= MonthSummary(snaps, mk).Get(g) <= 100
  {
    SumBetween(snaps, mk, g, 1, 5);
    OnlyMonthCounts(snaps, mk);
    var i :| 0 <= i < |snaps| && InMonth(snaps[i], mk);
    InMonthOnlyKeeps(snaps, mk, i);
    PctBetween(Accumulate(snaps, mk).sum.Get(g), Accumulate(snaps, mk).count, 1, 5);
  }

  /** The filter keeps every document of the month. */
  lemma {:induction false} InMonthOnlyKeeps(snaps: seq<Doc>, mk: string, i: nat)
    requires i < |snaps| && InMonth(snaps[i], mk)
    ensures InMonthOnly(snaps, mk) != []
  {
    var n := |snaps|;
    if i < n - 1 {
      assert snaps[..n - 1][i] == snaps[i];
      InMonthOnlyKeeps(snaps[..n - 1], mk, i);
    }
  }

  /** A month with exactly one entry, rated r for goal `g`, scores 20 * r for that goal. */
  lemma SingleEntryScore(doc: Doc, mk: string, g: GoalKey, r: int)
    requires InMonth(doc, mk) && StoredRating(doc, g) == Some(r)
    ensures MonthSummary([doc], mk).Get(g) == 20 * r
  {
    AccumulateSingle(doc, mk);
    GoalCases(g);
    PctIsUnique(r, 1, 20 * r);
  }

  /** Three entries of the month rated 4, 5 and 3 for a goal score round(100 * 12 / 15) = 80. */
  lemma ThreeEntryScenario(d1: Doc, d2: Doc, d3: Doc, mk: string, g: GoalKey)
    requires InMonth(d1, mk) && InMonth(d2, mk) && InMonth(d3, mk)
    requires StoredRating(d1, g) == Some(4) && StoredRating(d2, g) == Some(5) && StoredRating(d3, g) == Some(3)
    ensures MonthSummary([d1, d2, d3], mk).Get(g) == 80
  {
    assert [d1, d2, d3] == [d1] + [d2] + [d3];
    AccumulateAppend([d1] + [d2], [d3], mk);
    AccumulateAppend([d1], [d2], mk);
    AccumulateSingle(d1, mk);
    AccumulateSingle(d2, mk);
    AccumulateSingle(d3, mk);
    var t := Accumulate([d1, d2, d3], mk);
    assert t.count == 3 && t.sum.Get(g) == 12 by {
      GoalCases(g);
    }
    PctIsUnique(12, 3, 80);
  }
}
