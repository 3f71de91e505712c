/** The choice of the lucky number among the numbers of the pupil's units. The list of
    numbers, which the SDK fetches from the server, is an argument here. */
module LuckyNumbers {
  import opened Wrappers
  import opened Seqs

  /** A unit's lucky number of the day. */
  datatype LuckyNumber = LuckyNumber(unitName: string, number: int)

  /** The predicate `singleOrNull` is given: the number is for the unit `unitName`. */
  function ForUnit(unitName: string): LuckyNumber -> bool {
    (n: LuckyNumber) => n.unitName == unitName
  }

  /** `getLuckyNumber`: the number of the one unit named `unitName`; failing that, the
      only number there is; failing that, the first of several; none when there are no
      numbers. */
  function LuckyNumberFor(numbers: seq<LuckyNumber>, unitName: string): (r: Option<int>)
    ensures r.None? <==> |numbers| == 0
    ensures r.Some? ==> exists n :: n in numbers && n.number == r.value
  {
    if |numbers| == 0 then None
    else
      match SingleOrNone(numbers, ForUnit(unitName))
      case Some(n) => Some(n.number)
      case None =>
        if |numbers| == 1 then Some(numbers[0].number)
        else if |numbers| > 1 then Some(numbers[0].number)
        else None
  }

  /** When exactly one number is for the unit, it is the lucky number. */
  lemma UniqueUnitWins(numbers: seq<LuckyNumber>, unitName: string, i: int)
    requires 0 <= i < |numbers| && numbers[i].unitName == unitName
    requires forall j :: 0 <= j < |numbers| && j != i ==> numbers[j].unitName != unitName
    ensures LuckyNumberFor(numbers, unitName) == Some(numbers[i].number)
  {
    assert UniqueMatchAt(numbers, ForUnit(unitName), i);
    SingleOrNoneIsUniqueMatch(numbers, ForUnit(unitName), numbers[i]);
  }

  /** When no number, or more than one, is for the unit, the first number is taken. */
  lemma NoUniqueUnitTakesFirst(numbers: seq<LuckyNumber>, unitName: string)
    requires |numbers| > 0
    requires forall i :: !UniqueMatchAt(numbers, ForUnit(unitName), i)
    ensures LuckyNumberFor(numbers, unitName) == Some(numbers[0].number)
  {
    SingleOrNoneIsNone(numbers, ForUnit(unitName));
  }

  /** A single number is the lucky number whatever its unit. */
  lemma SingleNumberWins(n: LuckyNumber, unitName: string)
    ensures LuckyNumberFor([n], unitName) == Some(n.number)
  {
    if n.unitName == unitName {
      UniqueUnitWins([n], unitName, 0);
    } else {
      assert forall i :: !UniqueMatchAt([n], ForUnit(unitName), i);
      NoUniqueUnitTakesFirst([n], unitName);
    }
  }
}
