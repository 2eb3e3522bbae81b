/**
 * The character document the D&D Beyond character service returns, as both character
 * services read it. Every optional key is an `Option`: `None` is a key the document
 * does not carry, so each `d.get(key, default)` of the services becomes an explicit
 * `GetOr(default)`. A list the document may omit is a `seq`, an omitted list being `[]`.
 */
module Payload {
  import opened Wrappers

  /** A `definition` or `subclassDefinition` object; only its `name` is read. */
  datatype Definition = Definition(name: Option<string>)

  datatype Speed = Speed(walk: Option<int>)

  datatype Race = Race(fullName: Option<string>, speed: Option<Speed>)

  datatype Background = Background(definition: Option<Definition>)

  datatype CharacterClass = CharacterClass(
    level: Option<int>,
    definition: Option<Definition>,
    subclassDefinition: Option<Definition>)

  /** An ability-score entry of `stats`: the ability under `id` or `statId`, and its `value`. */
  datatype Stat = Stat(id: Option<int>, statId: Option<int>, value: Option<int>)

  /** A gameplay modifier: its `type`, its `subType` and its `value`. */
  datatype Modifier = Modifier(modifierType: Option<string>, subType: Option<string>, value: Option<int>)

  /**
   * An entry of `conditions`: an object with optional `id` and `level`, a bare integer
   * (a JSON boolean is a Python int and arrives here as 0 or 1), or anything else.
   */
  datatype Condition =
    | Detailed(conditionId: Option<int>, level: Option<int>)
    | Bare(bareId: int)
    | Other

  datatype DeathSaves = DeathSaves(successes: Option<int>, failures: Option<int>)

  /** An `inventory` entry. */
  datatype Item = Item(definition: Option<Definition>, quantity: Option<int>)

  /** The `currencies` object: gold, silver, copper, electrum and platinum pieces. */
  datatype Currencies = Currencies(gp: Option<int>, sp: Option<int>, cp: Option<int>, ep: Option<int>, pp: Option<int>)

  /** The `data` object of the document. `modifiers` maps a source category to its modifiers. */
  datatype Character = Character(
    id: Option<int>,
    name: Option<string>,
    gender: Option<string>,
    inspiration: Option<bool>,
    race: Option<Race>,
    background: Option<Background>,
    classes: seq<CharacterClass>,
    stats: seq<Stat>,
    alignmentId: Option<int>,
    conditions: seq<Condition>,
    modifiers: map<string, seq<Modifier>>,
    deathSaves: Option<DeathSaves>,
    exhaustion: Option<int>,
    currentHp: Option<int>,
    maxHp: Option<int>,
    tempHp: Option<int>,
    armorClass: Option<int>,
    inventory: seq<Item>,
    currencies: Option<Currencies>)

  /** A non-empty top-level document; its `data` key may be missing. */
  datatype Document = Document(data: Option<Character>)

  /** What `data.get("data", {})` yields when the key is missing: every key absent. */
  const EmptyCharacter: Character :=
    Character(None, None, None, None, None, None, [], [], None, [], map[], None, None,
              None, None, None, None, [], None)

  function CharacterOf(doc: Document): Character {
    doc.data.GetOr(EmptyCharacter)
  }

  /** The name of a definition, or `default` when the definition or its name is absent (PenAndPapAR/ViewsHelper/DNDBeyondWebdata.py:117, Script_DND_DATA/DNDBeyondWebdata.py:30). */
  function DefinitionName(d: Option<Definition>, default: string): string {
    match d
    case Some(def) => def.name.GetOr(default)
    case None => default
  }

  function ClassLevel(c: CharacterClass): int {
    c.level.GetOr(0)
  }

  /** The sum of the class levels, counting an absent level as 0 (PenAndPapAR/ViewsHelper/DNDBeyondWebdata.py:103 and Script_DND_DATA/DNDBeyondWebdata.py:28). */
  function TotalLevel(classes: seq<CharacterClass>): int {
    if classes == [] then 0 else ClassLevel(classes[0]) + TotalLevel(classes[1..])
  }

  /** The total level of two class lists is the sum of their totals. */
  lemma {:induction false} TotalLevelAppend(a: seq<CharacterClass>, b: seq<CharacterClass>)
    ensures TotalLevel(a + b) == TotalLevel(a) + TotalLevel(b)
    decreases |a|
  {
    if a == [] {
      assert a + b == b;
    } else {
      TotalLevelAppend(a[1..], b);
      assert (a + b)[1..] == a[1..] + b;
    }
  }

  /** One class contributes its `level`, or 0 when it has none. */
  lemma TotalLevelSingle(c: CharacterClass)
    ensures TotalLevel([c]) == (if c.level.Some? then c.level.value else 0)
  {
    assert [c][1..] == [];
  }

  /** With no negative class level the total is never negative. */
  lemma {:induction false} TotalLevelNonNegative(classes: seq<CharacterClass>)
    requires forall i :: 0 <= i < |classes| ==> ClassLevel(classes[i]) >= 0
    ensures TotalLevel(classes) >= 0
    decreases |classes|
  {
    if classes != [] {
      TotalLevelNonNegative(classes[1..]);
    }
  }
}
