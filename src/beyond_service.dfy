/**
 * `DnDBeyondCharacterService.parse_character_data`: the translation of a character
 * document into the stat block the web service stores. The modifier pool only decides
 * the proficiency and expertise flags; every value the stub calculators would adjust
 * stays at its base, and every adjustment is 0.
 */
module BeyondService {
  import opened Wrappers
  import opened Text
  import opened Payload
  import opened BeyondTables

  datatype CharacterStats = CharacterStats(
    isInspired: bool,
    name: string,
    characterClass: string,
    race: string,
    background: string,
    subclass: string,
    level: int,
    alignment: string,
    conditions: string,
    updateLink: string,
    proficiencyBonus: int,
    speed: int,
    gender: string,
    deathSaveSuccess: int,
    deathSaveFailure: int,
    exhaustion: int,
    initiativeAdjustment: int,
    proficiencyBonusAdjustment: int)

  datatype AttributeEntry = AttributeEntry(name: string, value: int, adjustment: int)

  datatype SkillEntry = SkillEntry(name: string, adjustment: int, isProficient: bool, isExpertise: bool)

  datatype SavingThrowEntry = SavingThrowEntry(name: string, adjustment: int, isProficient: bool)

  datatype HitPointsEntry = HitPointsEntry(current: int, max: int, temp: int, nonLethalDamage: int)

  datatype ArmorClassEntry = ArmorClassEntry(base: int, modified: int)

  /** The six sections of the result; `stats`, `hit_points` and `ac` are one-record lists there. */
  datatype StatBlock = StatBlock(
    stats: CharacterStats,
    attributes: seq<AttributeEntry>,
    skills: seq<SkillEntry>,
    savingThrows: seq<SavingThrowEntry>,
    hitPoints: HitPointsEntry,
    ac: ArmorClassEntry)

  /** Either `{"error": ...}` or the stat block. */
  datatype ParseResult = NoData(error: string) | Parsed(block: StatBlock)

  const NoDataMessage: string := "No data found."

  const SourceCategories: seq<string> := ["race", "feats", "magic-items", "class", "background"]

  /** The abilities in the order of `stat_names`; ability `k` has stat ID `k + 1`. */
  const AbilityNames: seq<string> := ["strength", "dexterity", "constitution", "intelligence", "wisdom", "charisma"]

  /** The skills in the order of `skill_names`. */
  const SkillNames: seq<string> := [
    "athletics", "acrobatics", "animal_handling", "arcana", "deception", "history",
    "insight", "intimidation", "investigation", "medicine", "nature", "perception",
    "performance", "persuasion", "religion", "sleight_of_hand", "stealth", "survival"]

  // ---------------------------------------------------------------- modifier pool

  /** The modifier list filed under category `cat`, or no modifiers when the category is absent (PenAndPapAR/ViewsHelper/DNDBeyondWebdata.py:100). */
  function Category(mods: map<string, seq<Modifier>>, cat: string): seq<Modifier> {
    if cat in mods then mods[cat] else []
  }

  /** The pool: the race, feats, magic-items, class and background lists, in that order. */
  function ModifierPool(mods: map<string, seq<Modifier>>): seq<Modifier> {
    Category(mods, "race") + Category(mods, "feats") + Category(mods, "magic-items")
    + Category(mods, "class") + Category(mods, "background")
  }

  /** The lists of the categories `cats`, concatenated in order. */
  function Gathered(mods: map<string, seq<Modifier>>, cats: seq<string>): seq<Modifier>
    decreases |cats|
  {
    if cats == [] then [] else Gathered(mods, cats[..|cats| - 1]) + Category(mods, cats[|cats| - 1])
  }

  lemma GatheredSourceCategories(mods: map<string, seq<Modifier>>)
    ensures Gathered(mods, SourceCategories) == ModifierPool(mods)
  {
    var s := SourceCategories;
    assert s[..1][..0] == [];
    assert Gathered(mods, s[..1]) == Category(mods, "race");
    assert s[..2][..1] == s[..1];
    assert Gathered(mods, s[..2]) == Category(mods, "race") + Category(mods, "feats");
    assert s[..3][..2] == s[..2];
    assert Gathered(mods, s[..3]) == Category(mods, "race") + Category(mods, "feats") + Category(mods, "magic-items");
    assert s[..4][..3] == s[..3];
    assert Gathered(mods, s[..4])
        == Category(mods, "race") + Category(mods, "feats") + Category(mods, "magic-items") + Category(mods, "class");
    assert s[..|s| - 1] == s[..4];
  }

  /** The loop that extends `modifiers` category by category. */
  method CollectModifiers(mods: map<string, seq<Modifier>>) returns (pool: seq<Modifier>)
    ensures pool == ModifierPool(mods)
  {
    pool := [];
    for k := 0 to |SourceCategories|
      invariant pool == Gathered(mods, SourceCategories[..k])
    {
      assert SourceCategories[..k + 1][..k] == SourceCategories[..k];
      pool := pool + Category(mods, SourceCategories[k]);
    }
    assert SourceCategories[..|SourceCategories|] == SourceCategories;
    GatheredSourceCategories(mods);
  }

  /** A modifier is pooled iff one of the five source categories lists it. */
  lemma ModifierPoolMembership(mods: map<string, seq<Modifier>>, m: Modifier)
    ensures m in ModifierPool(mods) <==> exists k :: 0 <= k < |SourceCategories| && m in Category(mods, SourceCategories[k])
  {
    if m in ModifierPool(mods) {
      if m in Category(mods, "race") { assert SourceCategories[0] == "race"; }
      else if m in Category(mods, "feats") { assert SourceCategories[1] == "feats"; }
      else if m in Category(mods, "magic-items") { assert SourceCategories[2] == "magic-items"; }
      else if m in Category(mods, "class") { assert SourceCategories[3] == "class"; }
      else { assert SourceCategories[4] == "background"; }
    }
  }

  /** Categories other than the five are ignored. */
  lemma ModifierPoolIgnoresOtherCategories(mods: map<string, seq<Modifier>>, cat: string, extra: seq<Modifier>)
    requires cat !in SourceCategories
    ensures ModifierPool(mods[cat := extra]) == ModifierPool(mods)
  {
  }

  // ---------------------------------------------------------------- conditions

  /** The display string of one condition entry; entries that are neither objects nor integers have none. */
  function ConditionLabel(cond: Condition): Option<string> {
    match cond
    case Detailed(id, level) =>
      if id == Some(15) then Some(ConditionName(id) + " (Level " + IntToString(level.GetOr(0)) + ")")
      else Some(ConditionName(id))
    case Bare(id) => Some(ConditionName(Some(id)))
    case Other => None
  }

  /** The label of one entry as a list of zero or one strings. */
  function LabelList(cond: Condition): seq<string> {
    match ConditionLabel(cond) case Some(l) => [l] case None => []
  }

  function ConditionLabels(conds: seq<Condition>): seq<string> {
    if conds == [] then [] else LabelList(conds[0]) + ConditionLabels(conds[1..])
  }

  /** The condition labels joined by a comma and a space, or the word "None" when no entry has a label (PenAndPapAR/ViewsHelper/DNDBeyondWebdata.py:140). */
  function ConditionsText(conds: seq<Condition>): string {
    var labels := ConditionLabels(conds);
    if labels == [] then "None" else Join(labels, ", ")
  }

  lemma {:induction false} ConditionLabelsAppend(a: seq<Condition>, b: seq<Condition>)
    ensures ConditionLabels(a + b) == ConditionLabels(a) + ConditionLabels(b)
    decreases |a|
  {
    if a == [] {
      assert a + b == b;
    } else {
      ConditionLabelsAppend(a[1..], b);
      assert (a + b)[0] == a[0];
      assert (a + b)[1..] == a[1..] + b;
      var head := LabelList(a[0]);
      assert ConditionLabels(a + b) == head + (ConditionLabels(a[1..]) + ConditionLabels(b));
      assert head + (ConditionLabels(a[1..]) + ConditionLabels(b)) == (head + ConditionLabels(a[1..])) + ConditionLabels(b);
    }
  }

  /** The loop that appends one display string per object or integer entry. */
  method RenderConditions(conds: seq<Condition>) returns (text: string)
    ensures text == ConditionsText(conds)
  {
    var labels: seq<string> := [];
    for i := 0 to |conds|
      invariant labels == ConditionLabels(conds[..i])
    {
      ConditionLabelsAppend(conds[..i], [conds[i]]);
      ConditionLabelsOne(conds[i]);
      assert conds[..i + 1] == conds[..i] + [conds[i]];
      match conds[i]
      case Detailed(id, level) =>
        var name := ConditionName(id);
        if id == Some(15) {
          labels := labels + [name + " (Level " + IntToString(level.GetOr(0)) + ")"];
        } else {
          labels := labels + [name];
        }
      case Bare(id) =>
        labels := labels + [ConditionName(Some(id))];
      case Other =>
    }
    assert conds[..|conds|] == conds;
    text := if labels == [] then "None" else Join(labels, ", ");
  }

  lemma ConditionLabelsOne(cond: Condition)
    ensures ConditionLabels([cond]) == LabelList(cond)
  {
    assert [cond][1..] == [];
  }

  lemma {:induction false} ConditionLabelsEmptyIff(conds: seq<Condition>)
    ensures ConditionLabels(conds) == [] <==> forall i :: 0 <= i < |conds| ==> conds[i].Other?
    decreases |conds|
  {
    if conds != [] {
      ConditionLabelsEmptyIff(conds[1..]);
      assert forall i :: 1 <= i < |conds| ==> conds[i] == conds[1..][i - 1];
    }
  }

  lemma {:induction false} ConditionLabelsLong(conds: seq<Condition>)
    ensures forall i :: 0 <= i < |ConditionLabels(conds)| ==> |ConditionLabels(conds)[i]| >= 5
    decreases |conds|
  {
    if conds != [] {
      ConditionLabelsLong(conds[1..]);
    }
  }

  /** The text is "None" exactly when no entry is an object or an integer. */
  lemma ConditionsTextIsNoneIff(conds: seq<Condition>)
    ensures ConditionsText(conds) == "None" <==> forall i :: 0 <= i < |conds| ==> conds[i].Other?
  {
    ConditionLabelsEmptyIff(conds);
    var labels := ConditionLabels(conds);
    if labels != [] {
      ConditionLabelsLong(conds);
      JoinLongerThanFirst(labels, ", ");
    }
  }

  lemma {:induction false} JoinLongerThanFirst(parts: seq<string>, sep: string)
    requires |parts| > 0
    ensures |Join(parts, sep)| >= |parts[0]|
  {
  }

  /** An exhaustion object shows its level, 0 when it has none. */
  lemma ExhaustionShowsLevel(level: Option<int>)
    ensures ConditionsText([Detailed(Some(15), level)]) == "Exhaustion" + " (Level " + IntToString(level.GetOr(0)) + ")"
  {
    ConditionLabelsOne(Detailed(Some(15), level));
  }

  /** A bare exhaustion id shows only the name; no entry at all shows "None". */
  lemma BareConditionShowsName()
    ensures ConditionsText([Bare(15)]) == "Exhaustion"
    ensures ConditionsText([]) == "None"
  {
  }

  /** Every entry is an object or an integer. */
  predicate AllObjectsOrIntegers(conds: seq<Condition>) {
    forall i :: 0 <= i < |conds| ==> !conds[i].Other?
  }

  /**
   * There is at most one label per entry; when every entry is an object or an integer, the i-th label is
   * the i-th entry's, so the entries show in their order.
   */
  lemma {:induction false} ConditionsKeepOrder(conds: seq<Condition>)
    ensures |ConditionLabels(conds)| <= |conds|
    ensures AllObjectsOrIntegers(conds) ==>
      |ConditionLabels(conds)| == |conds|
      && (forall i :: 0 <= i < |conds| ==>
            ConditionLabel(conds[i]).Some? && ConditionLabels(conds)[i] == ConditionLabel(conds[i]).value)
    decreases |conds|
  {
    if conds != [] {
      var tail := conds[1..];
      ConditionsKeepOrder(tail);
      if AllObjectsOrIntegers(conds) {
        assert AllObjectsOrIntegers(tail) by {
          assert forall k :: 0 <= k < |tail| ==> tail[k] == conds[k + 1];
        }
        assert !conds[0].Other?;
        var labels := ConditionLabels(conds);
        assert labels == [ConditionLabel(conds[0]).value] + ConditionLabels(tail);
        forall i | 0 <= i < |conds|
          ensures ConditionLabel(conds[i]).Some? && labels[i] == ConditionLabel(conds[i]).value
        {
          if i > 0 {
            assert conds[i] == tail[i - 1];
          }
        }
      }
    }
  }

  /** An entry that is neither an object nor an integer is skipped wherever it stands. */
  lemma OtherEntriesSkipped(a: seq<Condition>, b: seq<Condition>)
    ensures ConditionLabels(a + [Other] + b) == ConditionLabels(a + b)
  {
    ConditionLabelsAppend(a + [Other], b);
    ConditionLabelsAppend(a, [Other]);
    ConditionLabelsOne(Other);
    ConditionLabelsAppend(a, b);
  }

  /** An example: an integer, an entry that is neither an object nor an integer, and an object with an unknown id, in that order. */
  lemma ConditionsTextExample()
    ensures ConditionsText([Bare(1), Other, Detailed(Some(99), None)]) == "Blinded" + ", " + "Unknown Condition"
  {
    var conds := [Bare(1), Other, Detailed(Some(99), None)];
    LabelsInOrder(conds);
    var labels := ConditionLabels(conds);
    assert labels[1..] == ["Unknown Condition"];
  }

  lemma LabelsInOrder(conds: seq<Condition>)
    requires conds == [Bare(1), Other, Detailed(Some(99), None)]
    ensures ConditionLabels(conds) == ["Blinded", "Unknown Condition"]
  {
    assert ConditionLabel(conds[0]) == Some("Blinded");
    assert ConditionLabel(conds[1]) == None;
    assert ConditionLabel(conds[2]) == Some("Unknown Condition");
    assert conds[1..][1..] == [conds[2]];
    assert ConditionLabels(conds[1..][1..]) == ["Unknown Condition"];
  }

  // ---------------------------------------------------------------- attributes

  predicate StatMatches(s: Stat, statId: int) {
    s.id == Some(statId) || s.statId == Some(statId)
  }

  /** `next(s for s in stats if ...)`: the index of the first entry for `statId`. */
  function FindStat(stats: seq<Stat>, statId: int): (found: Option<nat>)
    ensures found.Some? ==> found.value < |stats| && StatMatches(stats[found.value], statId)
    ensures found.Some? ==> forall j :: 0 <= j < found.value ==> !StatMatches(stats[j], statId)
    ensures found.None? <==> forall j :: 0 <= j < |stats| ==> !StatMatches(stats[j], statId)
  {
    if stats == [] then None
    else if StatMatches(stats[0], statId) then Some(0)
    else match FindStat(stats[1..], statId)
      case Some(i) => Some(i + 1)
      case None => None
  }

  /** The base value of ability `statId`: the first matching entry's `value`, 10 by default. */
  function BaseValue(stats: seq<Stat>, statId: int): int {
    match FindStat(stats, statId)
    case Some(i) => stats[i].value.GetOr(10)
    case None => 10
  }

  function AttributeOf(stats: seq<Stat>, pool: seq<Modifier>, k: nat): AttributeEntry
    requires k < |AbilityNames|
  {
    var value := CalculateAttributeValue(BaseValue(stats, k + 1), pool, k + 1, AbilityNames[k]);
    AttributeEntry(AbilityNames[k], value, 0)
  }

  function AttributesOf(stats: seq<Stat>, pool: seq<Modifier>): seq<AttributeEntry> {
    seq(|AbilityNames|, k requires 0 <= k < |AbilityNames| => AttributeOf(stats, pool, k))
  }

  /** The loop over `stat_names` that appends one attribute record per ability. */
  method ResolveAttributes(stats: seq<Stat>, pool: seq<Modifier>) returns (attributes: seq<AttributeEntry>)
    ensures attributes == AttributesOf(stats, pool)
  {
    attributes := [];
    for k := 0 to |AbilityNames|
      invariant attributes == AttributesOf(stats, pool)[..k]
    {
      var statId := k + 1;
      var found := FindStat(stats, statId);
      var baseValue := if found.Some? then stats[found.value].value.GetOr(10) else 10;
      var totalValue := CalculateAttributeValue(baseValue, pool, statId, AbilityNames[k]);
      attributes := attributes + [AttributeEntry(AbilityNames[k], totalValue, 0)];
    }
  }

  /** Each attribute value is the first matching entry's `value`, or 10 when no entry matches. */
  lemma AttributeValueIsFirstMatch(stats: seq<Stat>, pool: seq<Modifier>, k: nat, j: nat)
    requires k < |AbilityNames|
    ensures (forall i :: 0 <= i < |stats| ==> !StatMatches(stats[i], k + 1)) ==> AttributesOf(stats, pool)[k].value == 10
    ensures j < |stats| && StatMatches(stats[j], k + 1) && (forall i :: 0 <= i < j ==> !StatMatches(stats[i], k + 1))
            ==> AttributesOf(stats, pool)[k].value == stats[j].value.GetOr(10)
  {
    var found := FindStat(stats, k + 1);
    if j < |stats| && StatMatches(stats[j], k + 1) && found.Some? {
      if found.value < j {
        assert !StatMatches(stats[found.value], k + 1) || !(forall i :: 0 <= i < j ==> !StatMatches(stats[i], k + 1));
      }
    }
  }

  // ---------------------------------------------------------------- skills and saving throws

  /** What a modifier may grant proficiency or expertise in. */
  datatype Target = SkillTarget(skill: string) | SaveTarget(ability: string, abilityId: int)

  /** The modifier's subType, lower-cased; an absent subType reads as the empty text (PenAndPapAR/ViewsHelper/DNDBeyondWebdata.py:202). */
  function SubTypeText(m: Modifier): string {
    Lower(m.subType.GetOr(""))
  }

  /** The modifier has type `kind` and its lower-cased subType names the target. */
  predicate Grants(m: Modifier, kind: string, target: Target) {
    && m.modifierType == Some(kind)
    && match target
       case SkillTarget(skill) => Contains(SubTypeText(m), skill)
       case SaveTarget(ability, id) =>
         Contains(SubTypeText(m), ability + "-saving-throws")
         || Contains(SubTypeText(m), IntToString(id) + "-saving-throws")
  }

  /** `any(...)` over the pool. */
  function AnyGrants(pool: seq<Modifier>, kind: string, target: Target): (found: bool)
    ensures found <==> exists i :: 0 <= i < |pool| && Grants(pool[i], kind, target)
  {
    if pool == [] then false
    else Grants(pool[0], kind, target) || AnyGrants(pool[1..], kind, target)
  }

  function SkillOf(pool: seq<Modifier>, k: nat): SkillEntry
    requires k < |SkillNames|
  {
    var target := SkillTarget(SkillNames[k]);
    SkillEntry(SkillNames[k], 0, AnyGrants(pool, "proficiency", target), AnyGrants(pool, "expertise", target))
  }

  function SkillsOf(pool: seq<Modifier>): seq<SkillEntry> {
    seq(|SkillNames|, k requires 0 <= k < |SkillNames| => SkillOf(pool, k))
  }

  /** The loop over `skill_names` that appends one skill record per skill. */
  method ResolveSkills(pool: seq<Modifier>) returns (skills: seq<SkillEntry>)
    ensures skills == SkillsOf(pool)
  {
    skills := [];
    for k := 0 to |SkillNames|
      invariant skills == SkillsOf(pool)[..k]
    {
      var target := SkillTarget(SkillNames[k]);
      var isProficient := AnyGrants(pool, "proficiency", target);
      var isExpertise := AnyGrants(pool, "expertise", target);
      skills := skills + [SkillEntry(SkillNames[k], 0, isProficient, isExpertise)];
    }
  }

  function SavingThrowOf(pool: seq<Modifier>, k: nat): SavingThrowEntry
    requires k < |AbilityNames|
  {
    SavingThrowEntry(AbilityNames[k], 0, AnyGrants(pool, "proficiency", SaveTarget(AbilityNames[k], k + 1)))
  }

  function SavingThrowsOf(pool: seq<Modifier>): seq<SavingThrowEntry> {
    seq(|AbilityNames|, k requires 0 <= k < |AbilityNames| => SavingThrowOf(pool, k))
  }

  /** The loop over `saving_throw_names` that appends one saving-throw record per ability. */
  method ResolveSavingThrows(pool: seq<Modifier>) returns (savingThrows: seq<SavingThrowEntry>)
    ensures savingThrows == SavingThrowsOf(pool)
  {
    savingThrows := [];
    for k := 0 to |AbilityNames|
      invariant savingThrows == SavingThrowsOf(pool)[..k]
    {
      var isProficient := AnyGrants(pool, "proficiency", SaveTarget(AbilityNames[k], k + 1));
      savingThrows := savingThrows + [SavingThrowEntry(AbilityNames[k], 0, isProficient)];
    }
  }

  // ---------------------------------------------------------------- the stat block

  /** The race's walking speed, or 30 when the race, its speed or the walking speed is absent (PenAndPapAR/ViewsHelper/DNDBeyondWebdata.py:109). */
  function BaseWalkSpeed(race: Option<Race>): int {
    match race
    case None => 30
    case Some(r) => match r.speed case None => 30 case Some(s) => s.walk.GetOr(30)
  }

  function RaceName(race: Option<Race>): string {
    match race case None => "Unknown" case Some(r) => r.fullName.GetOr("Unknown")
  }

  /** An absent background gives "Unknown" before any key of it is read. */
  function BackgroundName(background: Option<Background>): string {
    match background case None => "Unknown" case Some(b) => DefinitionName(b.definition, "Unknown")
  }

  function ClassNames(classes: seq<CharacterClass>): string {
    Join(seq(|classes|, i requires 0 <= i < |classes| => DefinitionName(classes[i].definition, "Unknown")), ", ")
  }

  function SubclassNames(classes: seq<CharacterClass>): string {
    Join(seq(|classes|, i requires 0 <= i < |classes| => DefinitionName(classes[i].subclassDefinition, "Unknown")), ", ")
  }

  function UpdateLink(id: Option<int>): string {
    "https://www.dndbeyond.com/characters/" + (match id case Some(n) => IntToString(n) case None => "")
  }

  function DeathSaveSuccesses(d: Option<DeathSaves>): int {
    match d case None => 0 case Some(s) => s.successes.GetOr(0)
  }

  function DeathSaveFailures(d: Option<DeathSaves>): int {
    match d case None => 0 case Some(s) => s.failures.GetOr(0)
  }

  /** The `stats` record, given the level, bonus, speed and conditions text computed before it. */
  function StatsRecord(c: Character, level: int, bonus: int, speed: int, conditions: string): CharacterStats {
    CharacterStats(
      isInspired := c.inspiration.GetOr(false),
      name := c.name.GetOr("Unknown"),
      characterClass := ClassNames(c.classes),
      race := RaceName(c.race),
      background := BackgroundName(c.background),
      subclass := SubclassNames(c.classes),
      level := level,
      alignment := AlignmentName(c.alignmentId),
      conditions := conditions,
      updateLink := UpdateLink(c.id),
      proficiencyBonus := bonus,
      speed := speed,
      gender := c.gender.GetOr("Unknown"),
      deathSaveSuccess := DeathSaveSuccesses(c.deathSaves),
      deathSaveFailure := DeathSaveFailures(c.deathSaves),
      exhaustion := c.exhaustion.GetOr(0),
      initiativeAdjustment := 0,
      proficiencyBonusAdjustment := 0)
  }

  function HitPointsOf(c: Character): HitPointsEntry {
    HitPointsEntry(c.currentHp.GetOr(0), c.maxHp.GetOr(0), c.tempHp.GetOr(0), 0)
  }

  function ArmorClassOf(c: Character): ArmorClassEntry {
    ArmorClassEntry(c.armorClass.GetOr(10), 0)
  }

  /** The stat block of a character object. */
  function SheetOf(c: Character): StatBlock {
    var pool := ModifierPool(c.modifiers);
    var level := TotalLevel(c.classes);
    var speed := CalculateSpeed(BaseWalkSpeed(c.race), pool);
    StatBlock(
      StatsRecord(c, level, ProficiencyBonus(level), speed, ConditionsText(c.conditions)),
      AttributesOf(c.stats, pool),
      SkillsOf(pool),
      SavingThrowsOf(pool),
      HitPointsOf(c),
      ArmorClassOf(c))
  }

  /** A falsy document gives exactly the error record; any other gives a stat block. */
  function CharacterSheet(doc: Option<Document>): (r: ParseResult)
    ensures r.NoData? <==> doc.None?
    ensures r.NoData? ==> r.error == "No data found."
  {
    match doc
    case None => NoData(NoDataMessage)
    case Some(d) => Parsed(SheetOf(CharacterOf(d)))
  }

  /** `parse_character_data`. */
  method ParseCharacterData(doc: Option<Document>) returns (r: ParseResult)
    ensures r == CharacterSheet(doc)
  {
    if doc.None? {
      return NoData(NoDataMessage);
    }
    var character := CharacterOf(doc.value);
    var modifiers := CollectModifiers(character.modifiers);
    var level := TotalLevel(character.classes);
    var proficiencyBonus := ProficiencyBonus(level);
    var baseSpeed := BaseWalkSpeed(character.race);
    var speed := CalculateSpeed(baseSpeed, modifiers);
    var conditions := RenderConditions(character.conditions);
    var attributes := ResolveAttributes(character.stats, modifiers);
    var skills := ResolveSkills(modifiers);
    var savingThrows := ResolveSavingThrows(modifiers);
    var stats := StatsRecord(character, level, proficiencyBonus, speed, conditions);
    r := Parsed(StatBlock(stats, attributes, skills, savingThrows, HitPointsOf(character), ArmorClassOf(character)));
  }

  // ---------------------------------------------------------------- properties of the stat block

  /** Always six attributes, eighteen skills and six saving throws, in the fixed order. */
  lemma SheetShape(c: Character)
    ensures |SheetOf(c).attributes| == 6 && |SheetOf(c).skills| == 18 && |SheetOf(c).savingThrows| == 6
    ensures forall k :: 0 <= k < 6 ==> SheetOf(c).attributes[k].name == AbilityNames[k]
    ensures forall k :: 0 <= k < 18 ==> SheetOf(c).skills[k].name == SkillNames[k]
    ensures forall k :: 0 <= k < 6 ==> SheetOf(c).savingThrows[k].name == AbilityNames[k]
  {
  }

  /** The level sums the class levels and the bonus is that level's tier. */
  lemma SheetLevelAndBonus(c: Character)
    ensures SheetOf(c).stats.level == TotalLevel(c.classes)
    ensures SheetOf(c).stats.proficiencyBonus == ProficiencyBonus(TotalLevel(c.classes))
  {
  }

  /** Speed is the base walk speed (30 by default); every adjustment in this revision is 0. */
  lemma SheetHardCodedValues(c: Character)
    ensures SheetOf(c).stats.speed == BaseWalkSpeed(c.race)
    ensures c.race.None? ==> SheetOf(c).stats.speed == 30
    ensures SheetOf(c).stats.initiativeAdjustment == 0 && SheetOf(c).stats.proficiencyBonusAdjustment == 0
    ensures SheetOf(c).ac.modified == 0 && SheetOf(c).hitPoints.nonLethalDamage == 0
    ensures forall k :: 0 <= k < |SheetOf(c).attributes| ==> SheetOf(c).attributes[k].adjustment == 0
    ensures forall k :: 0 <= k < |SheetOf(c).skills| ==> SheetOf(c).skills[k].adjustment == 0
    ensures forall k :: 0 <= k < |SheetOf(c).savingThrows| ==> SheetOf(c).savingThrows[k].adjustment == 0
  {
  }

  /** The three per-ability and per-skill sections of the stat block, over the pooled modifiers. */
  lemma SheetSections(c: Character)
    ensures SheetOf(c).attributes == AttributesOf(c.stats, ModifierPool(c.modifiers))
    ensures SheetOf(c).skills == SkillsOf(ModifierPool(c.modifiers))
    ensures SheetOf(c).savingThrows == SavingThrowsOf(ModifierPool(c.modifiers))
  {
  }

  /**
   * A skill is proficient (expert) iff some pooled modifier has type "proficiency"
   * ("expertise") and the skill name, underscores included, occurs in its lower-cased subType.
   */
  lemma SkillFlags(pool: seq<Modifier>, k: nat)
    requires k < |SkillNames|
    ensures SkillsOf(pool)[k].isProficient <==>
      exists m :: m in pool && m.modifierType == Some("proficiency") && Contains(SubTypeText(m), SkillNames[k])
    ensures SkillsOf(pool)[k].isExpertise <==>
      exists m :: m in pool && m.modifierType == Some("expertise") && Contains(SubTypeText(m), SkillNames[k])
  {
    var target := SkillTarget(SkillNames[k]);
    assert SkillsOf(pool)[k] == SkillOf(pool, k);
    assert forall m :: m in pool && Grants(m, "proficiency", target) ==> exists i :: 0 <= i < |pool| && pool[i] == m;
    assert forall m :: m in pool && Grants(m, "expertise", target) ==> exists i :: 0 <= i < |pool| && pool[i] == m;
  }

  /**
   * A saving throw is proficient iff some pooled modifier has type "proficiency" and its
   * lower-cased subType contains "<name>-saving-throws" or "<id>-saving-throws".
   */
  lemma SavingThrowFlag(pool: seq<Modifier>, k: nat)
    requires k < |AbilityNames|
    ensures SavingThrowsOf(pool)[k].isProficient <==>
      exists m :: m in pool && m.modifierType == Some("proficiency")
                  && (Contains(SubTypeText(m), AbilityNames[k] + "-saving-throws")
                      || Contains(SubTypeText(m), IntToString(k + 1) + "-saving-throws"))
  {
    var target := SaveTarget(AbilityNames[k], k + 1);
    assert SavingThrowsOf(pool)[k] == SavingThrowOf(pool, k);
    assert forall m :: m in pool && Grants(m, "proficiency", target) ==> exists i :: 0 <= i < |pool| && pool[i] == m;
  }

  /** Modifiers only decide the skill and saving-throw flags: everything else ignores them. */
  lemma ModifiersOnlySetFlags(c: Character, mods: map<string, seq<Modifier>>)
    ensures var other := SheetOf(c.(modifiers := mods));
      && other.stats == SheetOf(c).stats
      && other.attributes == SheetOf(c).attributes
      && other.hitPoints == SheetOf(c).hitPoints
      && other.ac == SheetOf(c).ac
      && forall k :: 0 <= k < 18 ==> other.skills[k].name == SheetOf(c).skills[k].name && other.skills[k].adjustment == 0
  {
  }

  /**
   * A subType spelled with hyphens, as "skills-sleight-of-hand", never marks the skills
   * whose names are written with underscores.
   */
  lemma UnderscoredSkillsMissHyphenatedSubTypes(pool: seq<Modifier>, k: nat)
    requires k < |SkillNames| && '_' in SkillNames[k]
    requires forall m :: m in pool ==> '_' !in SubTypeText(m)
    ensures !SkillsOf(pool)[k].isProficient && !SkillsOf(pool)[k].isExpertise
  {
    forall m | m in pool
      ensures !Contains(SubTypeText(m), SkillNames[k])
    {
      MissingCharBlocksContains(SubTypeText(m), SkillNames[k], '_');
    }
    SkillFlags(pool, k);
  }

  /** A "skills-athletics" class proficiency marks Athletics proficient, not expert, with adjustment 0. */
  lemma AthleticsProficiencyExample(mods: map<string, seq<Modifier>>)
    requires mods == map["class" := [Modifier(Some("proficiency"), Some("skills-athletics"), None)]]
    ensures SkillsOf(ModifierPool(mods))[0] == SkillEntry("athletics", 0, true, false)
  {
    var m := Modifier(Some("proficiency"), Some("skills-athletics"), None);
    assert ModifierPool(mods) == [m];
    AthleticsGrant(m);
    assert SkillsOf([m])[0] == SkillOf([m], 0);
  }

  lemma AthleticsGrant(m: Modifier)
    requires m == Modifier(Some("proficiency"), Some("skills-athletics"), None)
    ensures Grants(m, "proficiency", SkillTarget(SkillNames[0]))
    ensures !Grants(m, "expertise", SkillTarget(SkillNames[0]))
  {
    assert SubTypeText(m) == "skills-athletics";
    assert "skills-athletics" == "skills-" + "athletics";
    ContainsAfterPrefix("skills-", "athletics");
  }
}
