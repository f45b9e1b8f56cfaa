/**
 * The progress page: a ring split into one arc per dictionary entry. Entry i's
 * arc starts at 360 * (sum of the earlier amounts) / max(total, goal) degrees and
 * sweeps 360 * amount / max(total, goal) degrees; a label shows
 * Int(amount / max(total, goal) * 100) percent.
 *
 * A Swift dictionary is iterated in an order it does not promise, so the page
 * is modelled over the entries in whatever order they come; the keys and the
 * values are read in the same order.
 */
module ProgressRing {
  import opened DrinkTypes
  import Intake

  /** One key/value pair of the intake dictionary, in iteration order. */
  datatype Entry = Entry(drink: DrinkType, amount: real)

  function Amounts(es: seq<Entry>): seq<real>
  {
    seq(|es|, i requires 0 <= i < |es| => es[i].amount)
  }

  function Keys(es: seq<Entry>): seq<DrinkType>
  {
    seq(|es|, i requires 0 <= i < |es| => es[i].drink)
  }

  /** `reduce(0, +)`: the amounts added from left to right. */
  function Sum(vs: seq<real>): real
  {
    if |vs| == 0 then 0.0 else Sum(vs[..|vs| - 1]) + vs[|vs| - 1]
  }

  /** `prefix(n)`: the first n elements, or all of them when there are fewer. */
  function Prefix(vs: seq<real>, n: nat): seq<real>
  {
    if n <= |vs| then vs[..n] else vs
  }

  /** `totalIntake` of the page. */
  function TotalIntake(es: seq<Entry>): real
  {
    Sum(Amounts(es))
  }

  /** `max(totalIntake, dailyGoal)`, the quantity every share is taken of. */
  function Denominator(es: seq<Entry>, goal: real): (d: real)
    requires goal > 0.0
    ensures d >= goal && d >= TotalIntake(es)
    ensures d == goal || d == TotalIntake(es)
  {
    if TotalIntake(es) >= goal then TotalIntake(es) else goal
  }

  /** `startAngle(for: index)`, in degrees. */
  function StartAngle(es: seq<Entry>, goal: real, index: nat): real
    requires goal > 0.0
  {
    360.0 * (Sum(Prefix(Amounts(es), index)) / Denominator(es, goal))
  }

  /** The end angle of entry i's arc, in degrees. */
  function EndAngle(es: seq<Entry>, goal: real, i: nat): real
    requires goal > 0.0
    requires i < |es|
  {
    StartAngle(es, goal, i) + 360.0 * (es[i].amount / Denominator(es, goal))
  }

  /** The `trim(from:to:)` fractions of entry i's circle. */
  function TrimFrom(es: seq<Entry>, goal: real, i: nat): real
    requires goal > 0.0
    requires i < |es|
  {
    StartAngle(es, goal, i) / 360.0
  }

  function TrimTo(es: seq<Entry>, goal: real, i: nat): real
    requires goal > 0.0
    requires i < |es|
  {
    EndAngle(es, goal, i) / 360.0
  }

  /** Swift's `Int(x)`: the integer part, truncated toward zero. */
  function TruncToInt(x: real): (n: int)
    ensures x >= 0.0 ==> 0 <= n && n as real <= x < n as real + 1.0
    ensures x < 0.0 ==> n <= 0 && n as real - 1.0 < x <= n as real
  {
    if x >= 0.0 then x.Floor else -((-x).Floor)
  }

  /** The percentage label of entry i. */
  function Percentage(es: seq<Entry>, goal: real, i: nat): int
    requires goal > 0.0
    requires i < |es|
  {
    TruncToInt((es[i].amount / Denominator(es, goal)) * 100.0)
  }

  ghost predicate AllNonNegative(es: seq<Entry>)
  {
    forall i :: 0 <= i < |es| ==> es[i].amount >= 0.0
  }

  /** The entries list exactly the dictionary `m`: each category once, with its amount. */
  ghost predicate Enumerates(es: seq<Entry>, m: Intake.IntakeMap)
  {
    && Intake.Complete(m)
    && multiset(Keys(es)) == multiset(AllCases())
    && forall i :: 0 <= i < |es| ==> es[i].amount == m[es[i].drink]
  }

  lemma PrefixSumStep(vs: seq<real>, i: nat)
    requires i < |vs|
    ensures Sum(vs[..i + 1]) == Sum(vs[..i]) + vs[i]
  {
    assert vs[..i + 1][..i] == vs[..i];
  }

  /** With no negative amount, a longer prefix never sums to less. */
  lemma {:induction false} PrefixSumMonotone(vs: seq<real>, i: nat, j: nat)
    requires forall k :: 0 <= k < |vs| ==> vs[k] >= 0.0
    requires i <= j <= |vs|
    ensures 0.0 <= Sum(vs[..i]) <= Sum(vs[..j])
  {
    if i < j {
      PrefixSumMonotone(vs, i, j - 1);
      PrefixSumStep(vs, j - 1);
    } else if i > 0 {
      PrefixSumMonotone(vs, i - 1, i - 1);
      PrefixSumStep(vs, i - 1);
    } else {
      assert vs[..0] == [];
    }
  }

  /** With no negative amount, no single amount exceeds the total. */
  lemma AmountAtMostTotal(es: seq<Entry>, i: nat)
    requires AllNonNegative(es)
    requires i < |es|
    ensures 0.0 <= es[i].amount <= TotalIntake(es)
  {
    var vs := Amounts(es);
    PrefixSumMonotone(vs, i, i);
    PrefixSumStep(vs, i);
    PrefixSumMonotone(vs, i + 1, |vs|);
    assert vs[..|vs|] == vs;
  }

  lemma ShareAtMostWhole(a: real, d: real)
    requires 0.0 <= a <= d && d > 0.0
    ensures 0.0 <= a / d <= 1.0
  {
  }

  /** Dividing a sum is summing the quotients. */
  lemma DivideSum(a: real, b: real, d: real)
    requires d != 0.0
    ensures (a + b) / d == a / d + b / d
  {
  }

  /** Dividing by a positive quantity keeps the order. */
  lemma DivideMonotone(a: real, b: real, d: real)
    requires d > 0.0 && a <= b
    ensures a / d <= b / d
  {
  }

  /** The first arc starts at the top of the ring (0 degrees). */
  lemma FirstArcStartsAtZero(es: seq<Entry>, goal: real)
    requires goal > 0.0
    ensures StartAngle(es, goal, 0) == 0.0
  {
    assert Prefix(Amounts(es), 0) == [];
  }

  /**
   * Each arc sweeps its amount's share of max(total, goal), and ends exactly
   * where the next arc starts: the arcs neither overlap nor leave gaps.
   */
  lemma ArcsAreContiguous(es: seq<Entry>, goal: real, i: nat)
    requires goal > 0.0
    requires i < |es|
    ensures EndAngle(es, goal, i) - StartAngle(es, goal, i) == 360.0 * es[i].amount / Denominator(es, goal)
    ensures EndAngle(es, goal, i) == StartAngle(es, goal, i + 1)
  {
    var vs, d := Amounts(es), Denominator(es, goal);
    PrefixSumStep(vs, i);
    assert Prefix(vs, i + 1) == vs[..i + 1] && Prefix(vs, i) == vs[..i];
    DivideSum(Sum(vs[..i]), vs[i], d);
  }

  /** With no negative amount, later arcs never start before earlier ones. */
  lemma StartAnglesNonDecreasing(es: seq<Entry>, goal: real, i: nat, j: nat)
    requires goal > 0.0
    requires AllNonNegative(es)
    requires i <= j
    ensures 0.0 <= StartAngle(es, goal, i) <= StartAngle(es, goal, j)
  {
    var vs, d := Amounts(es), Denominator(es, goal);
    var i', j' := if i <= |vs| then i else |vs|, if j <= |vs| then j else |vs|;
    assert Prefix(vs, i) == vs[..i'] && Prefix(vs, j) == vs[..j'];
    PrefixSumMonotone(vs, i', j');
    DivideMonotone(0.0, Sum(vs[..i']), d);
    DivideMonotone(Sum(vs[..i']), Sum(vs[..j']), d);
  }

  /**
   * The last arc ends at 360 * total / max(total, goal): never past the full
   * circle, and exactly at it once the goal is reached.
   */
  lemma RingEnd(es: seq<Entry>, goal: real)
    requires goal > 0.0
    requires |es| > 0
    ensures EndAngle(es, goal, |es| - 1) == 360.0 * TotalIntake(es) / Denominator(es, goal)
    ensures EndAngle(es, goal, |es| - 1) <= 360.0
    ensures TotalIntake(es) >= goal ==> EndAngle(es, goal, |es| - 1) == 360.0
  {
    var n, d := |es|, Denominator(es, goal);
    ArcsAreContiguous(es, goal, n - 1);
    assert Prefix(Amounts(es), n) == Amounts(es);
    assert TotalIntake(es) / d <= 1.0;
  }

  /** With no negative amount, every arc's trim fractions lie within [0, 1], in order. */
  lemma TrimWithinCircle(es: seq<Entry>, goal: real, i: nat)
    requires goal > 0.0
    requires AllNonNegative(es)
    requires i < |es|
    ensures 0.0 <= TrimFrom(es, goal, i) <= TrimTo(es, goal, i) <= 1.0
  {
    var n := |es|;
    StartAnglesNonDecreasing(es, goal, i, i + 1);
    StartAnglesNonDecreasing(es, goal, i + 1, n);
    ArcsAreContiguous(es, goal, i);
    ArcsAreContiguous(es, goal, n - 1);
    RingEnd(es, goal);
  }

  /**
   * With no negative amount, each label is the floor of the amount's percentage
   * of max(total, goal), between 0 and 100.
   */
  lemma PercentageInRange(es: seq<Entry>, goal: real, i: nat)
    requires goal > 0.0
    requires AllNonNegative(es)
    requires i < |es|
    ensures Percentage(es, goal, i) == (100.0 * es[i].amount / Denominator(es, goal)).Floor
    ensures 0 <= Percentage(es, goal, i) <= 100
  {
    var d := Denominator(es, goal);
    AmountAtMostTotal(es, i);
    var x := (es[i].amount / d) * 100.0;
    assert x == 100.0 * es[i].amount / d;
    ShareAtMostWhole(es[i].amount, d);
    assert 0.0 <= x <= 100.0;
  }

  /** When nothing has been drunk every arc is empty: it starts and ends at 0 degrees. */
  lemma EmptyRingWhenNothingDrunk(es: seq<Entry>, goal: real, i: nat)
    requires goal > 0.0
    requires AllNonNegative(es)
    requires TotalIntake(es) == 0.0
    requires i < |es|
    ensures StartAngle(es, goal, i) == 0.0 && EndAngle(es, goal, i) == 0.0
  {
    AmountAtMostTotal(es, i);
    StartAnglesNonDecreasing(es, goal, 0, i);
    StartAnglesNonDecreasing(es, goal, i + 1, |es|);
    FirstArcStartsAtZero(es, goal);
    ArcsAreContiguous(es, goal, i);
    ArcsAreContiguous(es, goal, |es| - 1);
    RingEnd(es, goal);
  }

  /** The page's total is the store's total, whatever order the dictionary yields. */
  lemma TotalMatchesStore(es: seq<Entry>, m: Intake.IntakeMap)
    requires Enumerates(es, m)
    ensures TotalIntake(es) == Intake.Total(m)
  {
    SumMatchesKeys(es, m);
    Intake.SumOverPermutation(Keys(es), AllCases(), m);
  }

  lemma {:induction false} SumMatchesKeys(es: seq<Entry>, m: Intake.IntakeMap)
    requires Intake.Complete(m)
    requires forall i :: 0 <= i < |es| ==> es[i].amount == m[es[i].drink]
    ensures forall i :: 0 <= i < |Keys(es)| ==> Keys(es)[i] in m
    ensures Sum(Amounts(es)) == Intake.SumOver(Keys(es), m)
  {
    if |es| > 0 {
      var n := |es| - 1;
      assert Amounts(es)[..n] == Amounts(es[..n]);
      assert Keys(es)[..n] == Keys(es[..n]);
      SumMatchesKeys(es[..n], m);
    }
  }

  /**
   * 500 ml of water and 300 ml of coffee against a 3000 ml goal: water's arc
   * sweeps 60 degrees, coffee's 36, the others none; coffee's label reads 10 and
   * water's 16 (16.67 truncated).
   */
  lemma WaterAndCoffeeExample()
    ensures var es := [Entry(Drink, 0.0), Entry(Coffee, 300.0), Entry(Water, 500.0), Entry(Soup, 0.0)];
      && TotalIntake(es) == 800.0
      && EndAngle(es, 3000.0, 0) - StartAngle(es, 3000.0, 0) == 0.0
      && EndAngle(es, 3000.0, 1) - StartAngle(es, 3000.0, 1) == 36.0
      && EndAngle(es, 3000.0, 2) - StartAngle(es, 3000.0, 2) == 60.0
      && EndAngle(es, 3000.0, 3) - StartAngle(es, 3000.0, 3) == 0.0
      && Percentage(es, 3000.0, 1) == 10 && Percentage(es, 3000.0, 2) == 16
  {
    var es := [Entry(Drink, 0.0), Entry(Coffee, 300.0), Entry(Water, 500.0), Entry(Soup, 0.0)];
    var vs := Amounts(es);
    assert vs == [0.0, 300.0, 500.0, 0.0];
    assert vs[..0] == [];
    PrefixSumStep(vs, 0);
    PrefixSumStep(vs, 1);
    PrefixSumStep(vs, 2);
    PrefixSumStep(vs, 3);
    assert vs[..4] == vs;
    assert Denominator(es, 3000.0) == 3000.0;
    assert (16.0 + 2.0 / 3.0).Floor == 16;
    forall i | 0 <= i < 4 {
      ArcsAreContiguous(es, 3000.0, i);
    }
  }
}
