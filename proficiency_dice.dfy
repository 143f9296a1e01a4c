/**
 * The yellow Proficiency die of the Edge of the Empire dice
 * (src/classes/edge-of-the-empire-dice/proficiency-die.ts): a twelve-sided
 * die whose face value maps to a list of result symbols.
 */
module ProficiencyDice {
  import opened Wrappers

  /** The die colours; only the one this die uses is part of this model. */
  datatype DiceColor = Yellow

  /** The result symbols; only the ones a Proficiency die shows are part of this model. */
  datatype DiceSymbol = Blank | Success | Advantage | Triumph

  /**
   * A Proficiency die holding the face value it was given, if any. Built with
   * 12 sides, as its constructor hands 12 to the number-die base.
   */
  datatype ProficiencyDie = ProficiencyDie(value: Option<int>) {
    const sides: nat := 12
    const color: DiceColor := Yellow
    const shortDisplayName: string := "Proficiency"
    const displayName: string := "Proficiency Die"
  }

  /**
   * The face table. Exactly the values 1 to `sides` show something, at most two
   * symbols; Blank appears only on face 1 and Triumph only on face 12.
   */
  function MapValueToResults(die: ProficiencyDie): (r: seq<DiceSymbol>)
    ensures |r| <= 2
    ensures r != [] <==> die.value.Some? && 1 <= die.value.value <= die.sides
    ensures Blank in r <==> die.value == Some(1)
    ensures Triumph in r <==> die.value == Some(12)
  {
    if die.value.None? then []
    else
      match die.value.value
      case 1 => [Blank]
      case 2 | 3 => [Success]
      case 4 | 5 => [Success, Success]
      case 6 => [Advantage]
      case 7 | 8 | 9 => [Success, Advantage]
      case 10 | 11 => [Advantage, Advantage]
      case 12 => [Triumph]
      case _ => []
  }

  /** Face by face, the symbols each value shows; every other value, and an absent one, shows nothing. */
  lemma FaceTable(v: int)
    ensures v == 1 ==> MapValueToResults(ProficiencyDie(Some(v))) == [Blank]
    ensures 2 <= v <= 3 ==> MapValueToResults(ProficiencyDie(Some(v))) == [Success]
    ensures 4 <= v <= 5 ==> MapValueToResults(ProficiencyDie(Some(v))) == [Success, Success]
    ensures v == 6 ==> MapValueToResults(ProficiencyDie(Some(v))) == [Advantage]
    ensures 7 <= v <= 9 ==> MapValueToResults(ProficiencyDie(Some(v))) == [Success, Advantage]
    ensures 10 <= v <= 11 ==> MapValueToResults(ProficiencyDie(Some(v))) == [Advantage, Advantage]
    ensures v == 12 ==> MapValueToResults(ProficiencyDie(Some(v))) == [Triumph]
    ensures (v < 1 || 12 < v) ==> MapValueToResults(ProficiencyDie(Some(v))) == []
    ensures MapValueToResults(ProficiencyDie(None)) == []
  {
  }
}
