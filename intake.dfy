/**
 * The intake store of the main screen: a dictionary from category to
 * accumulated millilitres, its total, and the "加入" (add) handler that is the
 * only way the dictionary changes.
 */
module Intake {
  import opened DrinkTypes
  import opened Wrappers

  /** The `[DrinkType: Double]` dictionary, amounts as exact reals. */
  type IntakeMap = map<DrinkType, real>

  /** Every category has an entry (the dictionary is created with all four keys). */
  ghost predicate Complete(m: IntakeMap)
  {
    forall t: DrinkType :: t in m
  }

  /** No category has a negative amount. */
  ghost predicate NonNegative(m: IntakeMap)
  {
    forall t :: t in m ==> m[t] >= 0.0
  }

  /** Sum of the amounts of the keys `ks`, added left to right as `reduce(0, +)` does. */
  function SumOver(ks: seq<DrinkType>, m: IntakeMap): real
    requires forall i :: 0 <= i < |ks| ==> ks[i] in m
  {
    if |ks| == 0 then 0.0 else SumOver(ks[..|ks| - 1], m) + m[ks[|ks| - 1]]
  }

  /** `totalIntake`: the sum of all values of the dictionary. */
  function Total(m: IntakeMap): real
    requires Complete(m)
  {
    SumOver(AllCases(), m)
  }

  /** The dictionary at launch: all four categories at 0 ml, so nothing has been drunk. */
  function Initial(): (m: IntakeMap)
    ensures Complete(m) && NonNegative(m)
    ensures forall t: DrinkType :: m[t] == 0.0
    ensures Total(m) == 0.0
  {
    var m := map[Drink := 0.0, Coffee := 0.0, Water := 0.0, Soup := 0.0];
    AllKeysPresent(m);
    TotalAllZero(m);
    m
  }

  /** A dictionary with the four keys of the enum is complete. */
  lemma AllKeysPresent(m: IntakeMap)
    requires Drink in m && Coffee in m && Water in m && Soup in m
    ensures Complete(m)
  {
    forall t: DrinkType ensures t in m {
      match t
      case Drink =>
      case Coffee =>
      case Water =>
      case Soup =>
    }
  }

  /** A dictionary of zeros has total 0. */
  lemma TotalAllZero(m: IntakeMap)
    requires Complete(m)
    requires forall t :: m[t] == 0.0
    ensures Total(m) == 0.0
  {
    var ks := AllCases();
    assert SumOver(ks[..1], m) == 0.0 by { assert ks[..1][..0] == []; }
    assert SumOver(ks[..2], m) == 0.0 by { assert ks[..2][..1] == ks[..1]; }
    assert SumOver(ks[..3], m) == 0.0 by { assert ks[..3][..2] == ks[..2]; }
    assert ks[..4][..3] == ks[..3] && ks[..4] == ks;
  }

  /** A parsed amount is applied only when the text parsed and the number is positive. */
  predicate Accepts(parsed: Option<real>)
  {
    parsed.Some? && parsed.value > 0.0
  }

  /** The order in which the keys are summed does not matter. */
  lemma {:induction false} SumOverPermutation(ks: seq<DrinkType>, ks': seq<DrinkType>, m: IntakeMap)
    requires forall i :: 0 <= i < |ks| ==> ks[i] in m
    requires multiset(ks) == multiset(ks')
    ensures forall i :: 0 <= i < |ks'| ==> ks'[i] in m
    ensures SumOver(ks, m) == SumOver(ks', m)
  {
    forall i | 0 <= i < |ks'| ensures ks'[i] in m {
      assert ks'[i] in multiset(ks);
    }
    if |ks| == 0 {
      assert |ks'| == |multiset(ks')| == 0;
    } else {
      var n := |ks| - 1;
      var x := ks[n];
      assert x in multiset(ks');
      var j :| 0 <= j < |ks'| && ks'[j] == x;
      var rest := ks'[..j] + ks'[j + 1..];
      RemoveAtMultiset(ks, n);
      RemoveAtMultiset(ks', j);
      assert ks[..n] + ks[n + 1..] == ks[..n];
      SumOverRemove(ks', j, m);
      SumOverPermutation(ks[..n], rest, m);
    }
  }

  /** Removing position j removes one copy of its element from the multiset. */
  lemma RemoveAtMultiset(ks: seq<DrinkType>, j: nat)
    requires j < |ks|
    ensures multiset(ks[..j] + ks[j + 1..]) == multiset(ks) - multiset{ks[j]}
  {
    assert ks == ks[..j] + [ks[j]] + ks[j + 1..];
  }

  /** Taking one key out of the sum subtracts exactly its amount. */
  lemma {:induction false} SumOverRemove(ks: seq<DrinkType>, j: nat, m: IntakeMap)
    requires forall i :: 0 <= i < |ks| ==> ks[i] in m
    requires j < |ks|
    ensures SumOver(ks, m) == SumOver(ks[..j] + ks[j + 1..], m) + m[ks[j]]
  {
    var n := |ks| - 1;
    if j < n {
      var rest := ks[..j] + ks[j + 1..];
      assert rest[..|rest| - 1] == ks[..n][..j] + ks[..n][j + 1..];
      assert rest[|rest| - 1] == ks[n];
      SumOverRemove(ks[..n], j, m);
    } else {
      assert ks[..j] + ks[j + 1..] == ks[..n];
    }
  }

  /** Two dictionaries that agree on the keys `ks` give the same sum over `ks`. */
  lemma {:induction false} SumOverAgree(ks: seq<DrinkType>, m: IntakeMap, m': IntakeMap)
    requires forall i :: 0 <= i < |ks| ==> ks[i] in m && ks[i] in m' && m[ks[i]] == m'[ks[i]]
    ensures SumOver(ks, m) == SumOver(ks, m')
  {
    if |ks| > 0 {
      SumOverAgree(ks[..|ks| - 1], m, m');
    }
  }

  /** Adding `a` to one category grows `totalIntake` by exactly `a`. */
  lemma TotalAfterAdd(m: IntakeMap, c: DrinkType, a: real)
    requires Complete(m)
    ensures Complete(m[c := m[c] + a])
    ensures Total(m[c := m[c] + a]) == Total(m) + a
  {
    var m' := m[c := m[c] + a];
    var ks := AllCases();
    AllCasesInOrder(c);
    var j :| 0 <= j < |ks| && ks[j] == c;
    var rest := ks[..j] + ks[j + 1..];
    SumOverRemove(ks, j, m);
    SumOverRemove(ks, j, m');
    forall i | 0 <= i < |rest| ensures rest[i] != c {
      if i < j { assert rest[i] == ks[i]; } else { assert rest[i] == ks[i + 1]; }
    }
    SumOverAgree(rest, m, m');
  }

  /** With no negative amount, no partial sum is negative. */
  lemma {:induction false} SumOverNonNegative(ks: seq<DrinkType>, m: IntakeMap)
    requires forall i :: 0 <= i < |ks| ==> ks[i] in m
    requires NonNegative(m)
    ensures SumOver(ks, m) >= 0.0
  {
    if |ks| > 0 {
      SumOverNonNegative(ks[..|ks| - 1], m);
    }
  }

  /** The state of the main screen that the core logic reads and writes. */
  class ContentView {
    var intakeDict: IntakeMap
    var selectedDrink: DrinkType
    var inputAmount: string
    const dailyGoal: real

    /** Every category is present with a non-negative amount, and the goal is positive. */
    ghost predicate Valid()
      reads this
    {
      Complete(intakeDict) && NonNegative(intakeDict) && dailyGoal > 0.0
    }

    /** The screen as it appears at launch. */
    constructor ()
      ensures Valid()
      ensures intakeDict == Initial() && Total(intakeDict) == 0.0
      ensures selectedDrink == Drink && inputAmount == "" && dailyGoal == 3000.0
    {
      intakeDict := Initial();
      selectedDrink := Drink;
      inputAmount := "";
      dailyGoal := 3000.0;
    }

    /** The segmented picker's binding: choose the category that "加入" adds to. */
    method Select(t: DrinkType)
      requires Valid()
      modifies this
      ensures Valid()
      ensures selectedDrink == t
      ensures intakeDict == old(intakeDict) && inputAmount == old(inputAmount)
    {
      selectedDrink := t;
    }

    /** The text field's binding: the user edits the amount text. */
    method EditInput(text: string)
      requires Valid()
      modifies this
      ensures Valid()
      ensures inputAmount == text
      ensures intakeDict == old(intakeDict) && selectedDrink == old(selectedDrink)
    {
      inputAmount := text;
    }

    /**
     * The "加入" button. `parsed` stands for `Double(inputAmount)`. A positive
     * amount is added to the selected category and the text is cleared; anything
     * else changes nothing at all.
     */
    method Add(parsed: Option<real>)
      requires Valid()
      modifies this
      ensures Valid()
      ensures selectedDrink == old(selectedDrink)
      ensures Accepts(parsed) ==>
        && intakeDict[selectedDrink] == old(intakeDict[selectedDrink]) + parsed.value
        && (forall t :: t != selectedDrink ==> intakeDict[t] == old(intakeDict[t]))
        && inputAmount == ""
        && Total(intakeDict) == old(Total(intakeDict)) + parsed.value
      ensures !Accepts(parsed) ==> intakeDict == old(intakeDict) && inputAmount == old(inputAmount)
    {
      if Accepts(parsed) {
        var amount := parsed.value;
        var drink, dict := selectedDrink, intakeDict;
        var current := dict[drink];
        var newAmount := current + amount;
        TotalAfterAdd(dict, drink, amount);
        intakeDict := dict[drink := newAmount];
        inputAmount := "";
      }
    }
  }
}
