/**
 * The standalone script's `parse_character_data`: a plain-text, German character report
 * built from the same character document. Its one loop, which gathers the ability scores
 * into a dictionary keyed by ability, is a method; the rest of the report is text built
 * from the document and the gathered scores.
 */
module ScriptReport {
  import opened Wrappers
  import opened Text
  import opened Payload

  const NoDataText := "Keine Daten gefunden."
  const UnknownText := "Unbekannt"

  // ---------------------------------------------------------------- the ability-score table

  /** The key a score is stored under: `id`, unless it is missing or 0, else `statId`. */
  function StatKey(s: Stat): Option<int> {
    if s.id.Some? && s.id.value != 0 then s.id else s.statId
  }

  /** The entry a score contributes: only one with both a key and a value contributes. */
  function StatEntry(s: Stat): Option<(int, int)> {
    if StatKey(s).Some? && s.value.Some? then Some((StatKey(s).value, s.value.value)) else None
  }

  /** The score contributes an entry under `k`. */
  predicate Supplies(s: Stat, k: int) {
    StatEntry(s).Some? && StatEntry(s).value.0 == k
  }

  /**
   * The `stats` dictionary as an insertion-ordered list of (ability, score) pairs, the
   * order in which Python's `dict.items()` yields them.
   */
  type StatTable = seq<(int, int)>

  function TableKeys(t: StatTable): seq<int> {
    seq(|t|, i requires 0 <= i < |t| => t[i].0)
  }

  predicate DistinctKeys(t: StatTable) {
    forall i, j :: 0 <= i < j < |t| ==> t[i].0 != t[j].0
  }

  /** The value stored for key `k`, or None when no entry has that key (the dictionary filled at Script_DND_DATA/DNDBeyondWebdata.py:40). */
  function Lookup(t: StatTable, k: int): Option<int> {
    if t == [] then None else if t[0].0 == k then Some(t[0].1) else Lookup(t[1..], k)
  }

  /**
   * `stats[k] = v`: a new key goes last; an existing key keeps its place and takes the
   * new score.
   */
  function Put(t: StatTable, k: int, v: int): (u: StatTable)
    ensures Lookup(u, k) == Some(v)
    ensures forall key :: key != k ==> Lookup(u, key) == Lookup(t, key)
    ensures k in TableKeys(t) ==> TableKeys(u) == TableKeys(t)
    ensures k !in TableKeys(t) ==> TableKeys(u) == TableKeys(t) + [k]
  {
    if t == [] then [(k, v)]
    else
      assert TableKeys(t) == [t[0].0] + TableKeys(t[1..]);
      if t[0].0 == k then
        var u := [(k, v)] + t[1..];
        assert TableKeys(u) == [k] + TableKeys(t[1..]);
        u
      else
        var rest := Put(t[1..], k, v);
        var u := [t[0]] + rest;
        assert TableKeys(u) == [t[0].0] + TableKeys(rest);
        assert u[1..] == rest;
        u
  }

  /** Storing a score never puts a second entry under the same ability. */
  lemma PutDistinct(t: StatTable, k: int, v: int)
    requires DistinctKeys(t)
    ensures DistinctKeys(Put(t, k, v))
  {
    var u := Put(t, k, v);
    assert forall i :: 0 <= i < |u| ==> u[i].0 == TableKeys(u)[i];
    assert forall i :: 0 <= i < |t| ==> t[i].0 == TableKeys(t)[i];
  }

  function Insert(t: StatTable, entry: Option<(int, int)>): StatTable {
    match entry
    case None => t
    case Some(e) => Put(t, e.0, e.1)
  }

  /** The table after the loop has gone through `stats`. */
  function StatTableOf(stats: seq<Stat>): StatTable {
    if stats == [] then [] else Insert(StatTableOf(stats[..|stats| - 1]), StatEntry(stats[|stats| - 1]))
  }

  /** The loop over `character.get("stats", [])`. */
  method CollectStats(stats: seq<Stat>) returns (table: StatTable)
    ensures table == StatTableOf(stats)
  {
    table := [];
    for i := 0 to |stats|
      invariant table == StatTableOf(stats[..i])
    {
      assert stats[..i + 1][..i] == stats[..i];
      var stat := stats[i];
      var statId := if stat.id.Some? && stat.id.value != 0 then stat.id else stat.statId;
      var value := stat.value;
      if statId.Some? && value.Some? {
        table := Put(table, statId.value, value.value);
      }
    }
    assert stats[..|stats|] == stats;
  }

  /** Each ability appears in the table once. */
  lemma {:induction false} StatTableDistinct(stats: seq<Stat>)
    ensures DistinctKeys(StatTableOf(stats))
    decreases |stats|
  {
    if stats != [] {
      var front := stats[..|stats| - 1];
      StatTableDistinct(front);
      var entry := StatEntry(stats[|stats| - 1]);
      if entry.Some? {
        PutDistinct(StatTableOf(front), entry.value.0, entry.value.1);
      }
    }
  }

  /** One more entry changes the score of its own ability only. */
  lemma InsertLookup(t: StatTable, s: Stat, k: int)
    ensures Lookup(Insert(t, StatEntry(s)), k)
         == if Supplies(s, k) then Some(StatEntry(s).value.1) else Lookup(t, k)
  {
  }

  /** The table holds a score for `k` exactly when some entry supplies `k`. */
  lemma {:induction false} StatTableHasKey(stats: seq<Stat>, k: int)
    ensures Lookup(StatTableOf(stats), k).Some? <==> exists j :: 0 <= j < |stats| && Supplies(stats[j], k)
    decreases |stats|
  {
    if stats != [] {
      var front := stats[..|stats| - 1];
      StatTableHasKey(front, k);
      InsertLookup(StatTableOf(front), stats[|stats| - 1], k);
      assert forall j :: 0 <= j < |front| ==> stats[j] == front[j];
    }
  }

  /** The score the table holds for `k` is the one of the last entry that supplies `k`. */
  lemma {:induction false} StatTableLastWins(stats: seq<Stat>, k: int, v: int)
    requires Lookup(StatTableOf(stats), k) == Some(v)
    ensures exists j :: 0 <= j < |stats| && StatEntry(stats[j]) == Some((k, v))
                        && forall later :: j < later < |stats| ==> !Supplies(stats[later], k)
    decreases |stats|
  {
    var front := stats[..|stats| - 1];
    var last := |stats| - 1;
    InsertLookup(StatTableOf(front), stats[last], k);
    if Supplies(stats[last], k) {
      assert StatEntry(stats[last]) == Some((k, v));
    } else {
      StatTableLastWins(front, k, v);
      var j :| 0 <= j < |front| && StatEntry(front[j]) == Some((k, v))
               && forall later :: j < later < |front| ==> !Supplies(front[later], k);
      assert stats[j] == front[j];
      assert forall later :: j < later < |stats| ==> !Supplies(stats[later], k) by {
        forall later | j < later < |stats| ensures !Supplies(stats[later], k) {
          if later < last {
            assert stats[later] == front[later];
          }
        }
      }
    }
  }

  /** The abilities the entries supply, in order, each kept at its first occurrence. */
  function FirstOccurrences(stats: seq<Stat>): seq<int> {
    if stats == [] then []
    else
      var earlier := FirstOccurrences(stats[..|stats| - 1]);
      match StatEntry(stats[|stats| - 1])
      case Some(e) => if e.0 in earlier then earlier else earlier + [e.0]
      case None => earlier
  }

  /** The abilities stay in the order in which they were first supplied. */
  lemma {:induction false} StatTableOrder(stats: seq<Stat>)
    ensures TableKeys(StatTableOf(stats)) == FirstOccurrences(stats)
    decreases |stats|
  {
    if stats != [] {
      StatTableOrder(stats[..|stats| - 1]);
    }
  }

  // ---------------------------------------------------------------- the report text

  const StatNames: map<int, string> := map[
    1 := "Stärke", 2 := "Geschicklichkeit", 3 := "Konstitution",
    4 := "Intelligenz", 5 := "Weisheit", 6 := "Charisma"]

  /** The German name of ability `k`, or "Unbekannt" for an id outside 1..6 (Script_DND_DATA/DNDBeyondWebdata.py:42). */
  function StatName(k: int): string {
    if k in StatNames then StatNames[k] else UnknownText
  }

  function StatLine(e: (int, int)): string {
    StatName(e.0) + ": " + IntToString(e.1)
  }

  function StatLines(t: StatTable): seq<string> {
    seq(|t|, i requires 0 <= i < |t| => StatLine(t[i]))
  }

  function StatsText(t: StatTable): string {
    Join(StatLines(t), "\n")
  }

  function ClassEntry(c: CharacterClass): string {
    DefinitionName(c.definition, UnknownText) + " (Level " + IntToString(ClassLevel(c)) + ")"
  }

  function ClassesText(classes: seq<CharacterClass>): string {
    Join(seq(|classes|, i requires 0 <= i < |classes| => ClassEntry(classes[i])), ", ")
  }

  function ItemLine(item: Item): string {
    DefinitionName(item.definition, UnknownText) + " (Menge: " + IntToString(item.quantity.GetOr(1)) + ")"
  }

  function EquipmentText(inventory: seq<Item>): string {
    Join(seq(|inventory|, i requires 0 <= i < |inventory| => ItemLine(inventory[i])), "\n")
  }

  /** The five currency lines, platinum first; a missing coin count is 0. */
  function CurrencyLines(currencies: Option<Currencies>): seq<string> {
    var c := currencies.GetOr(Currencies(None, None, None, None, None));
    [ "Platin: " + IntToString(c.pp.GetOr(0)),
      "Gold: " + IntToString(c.gp.GetOr(0)),
      "Silber: " + IntToString(c.sp.GetOr(0)),
      "Kupfer: " + IntToString(c.cp.GetOr(0)),
      "Electrum: " + IntToString(c.ep.GetOr(0)) ]
  }

  function CurrencyText(currencies: Option<Currencies>): string {
    Join(CurrencyLines(currencies), "\n")
  }

  function RaceText(race: Option<Race>): string {
    match race
    case Some(r) => r.fullName.GetOr(UnknownText)
    case None => UnknownText
  }

  function BackgroundText(background: Option<Background>): string {
    match background
    case Some(b) => DefinitionName(b.definition, UnknownText)
    case None => UnknownText
  }

  /**
   * The report's layout, one part per line of the f-string: the header, then the
   * abilities, the equipment and the currency, each after an empty line and a heading.
   */
  function ReportParts(c: Character, table: StatTable): seq<string> {
    HeaderLines(c) + SectionParts(StatsText(table), EquipmentText(c.inventory), CurrencyText(c.currencies))
  }

  /** The header lines, up to the abilities' heading. */
  function HeaderLines(c: Character): seq<string> {
    [ "Name: " + c.name.GetOr(UnknownText),
      "Level: " + IntToString(TotalLevel(c.classes)),
      "Rasse: " + RaceText(c.race),
      "Hintergrund: " + BackgroundText(c.background),
      "Klassen: " + ClassesText(c.classes),
      "",
      "Attribute:" ]
  }

  /** The abilities, then the equipment and the currency after an empty line and a heading each. */
  function SectionParts(stats: string, equipment: string, currency: string): seq<string> {
    [stats, "", "Ausrüstung:", equipment, "", "Währung:", currency]
  }

  /** The report for a document; `None` is an empty or missing document. */
  function Report(doc: Option<Document>): (text: string)
    ensures doc.None? ==> text == NoDataText
    ensures doc.Some? ==> |text| >= 6 && text[..6] == "Name: "
  {
    match doc
    case None => NoDataText
    case Some(d) =>
      var c := CharacterOf(d);
      var parts := ReportParts(c, StatTableOf(c.stats));
      assert Join(parts, "\n") == parts[0] + "\n" + Join(parts[1..], "\n");
      assert parts[0][..6] == "Name: ";
      Join(parts, "\n")
  }

  /** `parse_character_data` of the script. */
  method ParseCharacterData(doc: Option<Document>) returns (text: string)
    ensures text == Report(doc)
  {
    if doc.None? {
      return NoDataText;
    }
    var character := CharacterOf(doc.value);
    var stats := CollectStats(character.stats);
    text := Join(ReportParts(character, stats), "\n");
  }

  // ---------------------------------------------------------------- reading the report back

  lemma IntToStringOneLine(i: int)
    ensures '\n' !in IntToString(i)
  {
    var s := IntToString(i);
    forall k | 0 <= k < |s| ensures s[k] != '\n' {
    }
  }

  /** No line of the ability block breaks. */
  lemma StatLinesOneLine(t: StatTable)
    ensures forall i :: 0 <= i < |t| ==> '\n' !in StatLines(t)[i]
  {
    forall i | 0 <= i < |t| ensures '\n' !in StatLines(t)[i] {
      IntToStringOneLine(t[i].1);
      assert '\n' !in StatName(t[i].0);
    }
  }

  /** A non-empty ability block reads back as one line per ability, in table order. */
  lemma StatsTextLines(t: StatTable)
    requires |t| >= 1
    ensures Split(StatsText(t), '\n') == StatLines(t)
    ensures |Split(StatsText(t), '\n')| == |t|
  {
    StatLinesOneLine(t);
    SplitJoin(StatLines(t), '\n');
  }

  /** The currency block reads back as its five lines. */
  lemma CurrencyTextLines(currencies: Option<Currencies>)
    ensures Split(CurrencyText(currencies), '\n') == CurrencyLines(currencies)
  {
    var c := currencies.GetOr(Currencies(None, None, None, None, None));
    IntToStringOneLine(c.pp.GetOr(0));
    IntToStringOneLine(c.gp.GetOr(0));
    IntToStringOneLine(c.sp.GetOr(0));
    IntToStringOneLine(c.cp.GetOr(0));
    IntToStringOneLine(c.ep.GetOr(0));
    SplitJoin(CurrencyLines(currencies), '\n');
  }

  lemma SplitEachCons(x: string, rest: seq<string>, c: char)
    ensures SplitEach([x] + rest, c) == Split(x, c) + SplitEach(rest, c)
  {
    assert ([x] + rest)[1..] == rest;
  }

  lemma RegroupRight<T>(a: seq<T>, b: seq<T>, c: seq<T>, d: seq<T>, e: seq<T>)
    ensures a + (b + (c + (d + e))) == a + b + c + d + e
  {
  }

  lemma RegroupLeft<T>(a: seq<T>, b: seq<T>, c: seq<T>, d: seq<T>, e: seq<T>, f: seq<T>)
    ensures a + (b + c + d + e + f) == a + b + c + d + e + f
  {
  }

  /** Seven parts, of which the two pairs of headings hold no separator, split section by section. */
  lemma SplitSections(a: string, h1: string, h2: string, b: string, h3: string, h4: string, c: string, sep: char)
    requires sep !in h1 && sep !in h2 && sep !in h3 && sep !in h4
    ensures SplitEach([a, h1, h2, b, h3, h4, c], sep)
         == Split(a, sep) + [h1, h2] + Split(b, sep) + [h3, h4] + Split(c, sep)
  {
    var tail := [b, h3, h4, c];
    SplitHeadedSection(b, h3, h4, c, sep);
    assert [h1, h2, b, h3, h4, c] == [h1, h2] + tail;
    SplitHeadingPair(h1, h2, tail, sep);
    assert [a, h1, h2, b, h3, h4, c] == [a] + [h1, h2, b, h3, h4, c];
    SplitEachCons(a, [h1, h2, b, h3, h4, c], sep);
    RegroupRight(Split(a, sep), [h1, h2], Split(b, sep), [h3, h4], Split(c, sep));
  }

  /** The last section of the report: a text, two heading lines and another text. */
  lemma SplitHeadedSection(b: string, h3: string, h4: string, c: string, sep: char)
    requires sep !in h3 && sep !in h4
    ensures SplitEach([b, h3, h4, c], sep) == Split(b, sep) + ([h3, h4] + Split(c, sep))
  {
    SplitEachCons(c, [], sep);
    assert [h3, h4, c] == [h3, h4] + [c];
    SplitHeadingPair(h3, h4, [c], sep);
    assert [b, h3, h4, c] == [b] + [h3, h4, c];
    SplitEachCons(b, [h3, h4, c], sep);
  }

  /** Two lines without a separator split into themselves. */
  lemma SplitHeadingPair(h1: string, h2: string, rest: seq<string>, sep: char)
    requires sep !in h1 && sep !in h2
    ensures SplitEach([h1, h2] + rest, sep) == [h1, h2] + SplitEach(rest, sep)
  {
    SplitWithoutSeparator(h1, sep);
    SplitWithoutSeparator(h2, sep);
    SplitEachCons(h2, rest, sep);
    assert [h1, h2] + rest == [h1] + ([h2] + rest);
    SplitEachCons(h1, [h2] + rest, sep);
  }

  lemma SectionLines(stats: string, equipment: string, currency: string)
    ensures SplitEach(SectionParts(stats, equipment, currency), '\n')
         == Split(stats, '\n') + ["", "Ausrüstung:"] + Split(equipment, '\n') + ["", "Währung:"] + Split(currency, '\n')
  {
    SplitSections(stats, "", "Ausrüstung:", equipment, "", "Währung:", currency, '\n');
  }

  lemma HeaderOneLine(c: Character)
    requires '\n' !in c.name.GetOr(UnknownText)
    requires '\n' !in RaceText(c.race)
    requires '\n' !in BackgroundText(c.background)
    requires '\n' !in ClassesText(c.classes)
    ensures SplitEach(HeaderLines(c), '\n') == HeaderLines(c)
  {
    IntToStringOneLine(TotalLevel(c.classes));
    SplitEachWithoutSeparator(HeaderLines(c), '\n');
  }

  /**
   * When the name, race, background and class names hold no line break, the report reads
   * back line by line as its header, then each section after an empty line and a heading.
   */
  lemma ReportLines(d: Document)
    requires '\n' !in CharacterOf(d).name.GetOr(UnknownText)
    requires '\n' !in RaceText(CharacterOf(d).race)
    requires '\n' !in BackgroundText(CharacterOf(d).background)
    requires '\n' !in ClassesText(CharacterOf(d).classes)
    ensures var c := CharacterOf(d);
      Split(Report(Some(d)), '\n')
      == HeaderLines(c)
         + Split(StatsText(StatTableOf(c.stats)), '\n')
         + ["", "Ausrüstung:"]
         + Split(EquipmentText(c.inventory), '\n')
         + ["", "Währung:"]
         + CurrencyLines(c.currencies)
  {
    var c := CharacterOf(d);
    var stats := StatsText(StatTableOf(c.stats));
    var equipment := EquipmentText(c.inventory);
    var currency := CurrencyText(c.currencies);
    var parts := ReportParts(c, StatTableOf(c.stats));
    assert Report(Some(d)) == Join(parts, ['\n']);
    SplitJoinEach(parts, '\n');
    SplitEachAppend(HeaderLines(c), SectionParts(stats, equipment, currency), '\n');
    HeaderOneLine(c);
    SectionLines(stats, equipment, currency);
    CurrencyTextLines(c.currencies);
    RegroupLeft(HeaderLines(c), Split(stats, '\n'), ["", "Ausrüstung:"], Split(equipment, '\n'), ["", "Währung:"],
                CurrencyLines(c.currencies));
  }
}
