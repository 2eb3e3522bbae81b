/**
 * The lookup tables, the level-to-proficiency-bonus tiers and the three calculators of
 * `DnDBeyondCharacterService`. In this revision the calculators are stubs that ignore
 * the modifiers they are given.
 */
module BeyondTables {
  import opened Wrappers
  import opened Payload

  const ConditionTable: map<int, string> := map[
    1 := "Blinded", 2 := "Charmed", 3 := "Deafened", 4 := "Frightened", 5 := "Grappled",
    6 := "Incapacitated", 7 := "Invisible", 8 := "Paralyzed", 9 := "Petrified",
    10 := "Poisoned", 11 := "Prone", 12 := "Restrained", 13 := "Stunned",
    14 := "Unconscious", 15 := "Exhaustion"]

  const AlignmentTable: map<int, string> := map[
    1 := "Lawful Good", 2 := "Neutral Good", 3 := "Chaotic Good",
    4 := "Lawful Neutral", 5 := "Neutral", 6 := "Chaotic Neutral",
    7 := "Lawful Evil", 8 := "Neutral Evil", 9 := "Chaotic Evil"]

  const UnknownCondition: string := "Unknown Condition"
  const UnknownAlignment: string := "Unknown"

  /**
   * `map_condition_id_to_name`: IDs 1 to 15 name a condition; any other ID, and a
   * missing one, gives the sentinel, which no condition is called.
   */
  function ConditionName(id: Option<int>): (name: string)
    ensures id.Some? && 1 <= id.value <= 15 ==> name == ConditionTable[id.value]
    ensures name == UnknownCondition <==> !(id.Some? && 1 <= id.value <= 15)
    ensures |name| >= 5
  {
    if id.Some? && id.value in ConditionTable then ConditionTable[id.value] else UnknownCondition
  }

  /**
   * `map_alignment_id_to_name`: IDs 1 to 9 name an alignment; any other ID, and a
   * missing one, gives "Unknown", which no alignment is called.
   */
  function AlignmentName(id: Option<int>): (name: string)
    ensures id.Some? && 1 <= id.value <= 9 ==> name == AlignmentTable[id.value]
    ensures name == UnknownAlignment <==> !(id.Some? && 1 <= id.value <= 9)
  {
    if id.Some? && id.value in AlignmentTable then AlignmentTable[id.value] else UnknownAlignment
  }

  /**
   * `calculate_proficiency_bonus`: 0 below level 1, then 2 rising by one every four
   * levels up to 6 from level 17 on.
   */
  function ProficiencyBonus(level: int): (bonus: int)
    ensures 0 <= bonus <= 6
    ensures bonus == if level < 1 then 0 else if level > 16 then 6 else 2 + (level - 1) / 4
  {
    if level < 1 then 0
    else if level <= 4 then 2
    else if level <= 8 then 3
    else if level <= 12 then 4
    else if level <= 16 then 5
    else 6
  }

  /** A higher level never has a lower proficiency bonus. */
  lemma ProficiencyBonusMonotone(lo: int, hi: int)
    requires lo <= hi
    ensures ProficiencyBonus(lo) <= ProficiencyBonus(hi)
  {
  }

  /** `calculate_attribute_value`: the stub keeps the base value. */
  function CalculateAttributeValue(baseValue: int, modifiers: seq<Modifier>, statId: int, statName: string): int {
    baseValue
  }

  /** `calculate_speed`: the stub keeps the base speed. */
  function CalculateSpeed(baseSpeed: int, modifiers: seq<Modifier>): int {
    baseSpeed
  }

  /** `calculate_skill_or_save_value`: the stub returns 0. */
  function CalculateSkillOrSaveValue(attributeModifier: int, proficiencyBonus: int, isProficient: bool, isExpertise: bool): int {
    0
  }

  /** No modifier, proficiency or expertise changes what the three calculators return. */
  lemma CalculatorsIgnoreModifiers(base: int, m1: seq<Modifier>, m2: seq<Modifier>, statId: int, statName: string,
                                   attributeModifier: int, bonus: int, proficient: bool, expertise: bool)
    ensures CalculateAttributeValue(base, m1, statId, statName) == CalculateAttributeValue(base, m2, statId, statName) == base
    ensures CalculateSpeed(base, m1) == CalculateSpeed(base, m2) == base
    ensures CalculateSkillOrSaveValue(attributeModifier, bonus, proficient, expertise) == 0
  {
  }
}
