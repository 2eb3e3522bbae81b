# PenAndPapAR character services in Dafny

This project models the logic of the PenAndPapAR backend that turns a D&D Beyond
character into the data the application stores, and proves properties of that model.
It covers three parts:

- **The stat-block translator** (`DnDBeyondCharacterService` in
  `PenAndPapAR/ViewsHelper/DNDBeyondWebdata.py`):
  - extracting the character ID from a URL;
  - the condition and alignment tables;
  - the proficiency-bonus tiers;
  - the three stub calculators;
  - `parse_character_data`. It pools the modifiers of five source categories, sums the
    class levels, renders the conditions string, resolves six attributes, sets the
    proficiency and expertise flags of 18 skills and 6 saving throws, and emits a
    fixed-shape stat block.
- **The POST helpers of `PenAndPapAR/views.py`**:
  - `validate_post_request` reports the first missing or empty topic and fills the
    template defaults (views.py lines 17-77) into every record before it;
  - `generate_character_trait` checks the supplied trait names against a name list and
    appends a default record for every name left;
  - `generate_character_id` scans the existing IDs for the lowest free number.
- **The German text report of `Script_DND_DATA/DNDBeyondWebdata.py`**. It gathers the
  ability scores into an insertion-ordered table and renders name, level, race,
  background, classes, attributes, equipment and currency. Its `extract_character_id`
  is the same function as the translator's, modelled once as
  `CharacterUrl.ExtractCharacterId`.

Layout:

- `src/wrappers.dfy`: `Option` and `Result`.
- `src/text.dfy`: Python's `str(int)`, `int(str)`, the `04d` format, ASCII `lower()`,
  substring search, `join` and a line splitter used to read the report back.
- `src/payload.dfy`: the character document. Every optional key is an `Option`, so each
  `.get(key, default)` becomes an explicit default.
- `src/character_url.dfy`: the URL scanner.
- `src/beyond_tables.dfy`: the lookup tables, the bonus tiers and the stub calculators.
- `src/beyond_service.dfy`: the translator's `parse_character_data`.
- `src/post_views.dfy`: the three POST helpers. The lists and dictionaries they change
  in place are classes with a `seq` or `map` field: `RequestData`, `NameList` and
  `RecordList`.
- `src/script_report.dfy`: the standalone script's report.

Each loop of the source is a method proved equal to a specification function, and the
properties are proved about those functions. In the text report, Python's insertion-ordered
`stats` dictionary is a sequence of (ability, score) pairs. A falsy document (`None` or
`{}`) is `None` of `Option<Document>`.

## Model

| member | source | states |
|---|---|---|
| CharacterUrl.ExtractCharacterId | PenAndPapAR/ViewsHelper/DNDBeyondWebdata.py:7-9 | None exactly when no position has `characters/` followed by a digit; otherwise a non-empty all-digit string that is the greedy digit run after the leftmost such position |
| CharacterUrl.DigitRun | PenAndPapAR/ViewsHelper/DNDBeyondWebdata.py:8 | the `\d+` group is all digits, a slice of the URL at the given position, and cannot be extended by another digit |
| CharacterUrl.FirstMatchFrom | PenAndPapAR/ViewsHelper/DNDBeyondWebdata.py:8 | the search result is a match position with no match before it, and None means no match anywhere from the start |
| CharacterUrl.DigitRunIs | PenAndPapAR/ViewsHelper/DNDBeyondWebdata.py:8 | any maximal digit string at a position is exactly what the greedy group takes there |
| CharacterUrl.ExtractWrittenId | Script_DND_DATA/DNDBeyondWebdata.py:5-7 | a URL made of `characters/`, digits `d` and a rest not starting with a digit gives back `d` |
| BeyondTables.ConditionName | PenAndPapAR/ViewsHelper/DNDBeyondWebdata.py:25-43 | IDs 1 to 15 give their table names; the result is "Unknown Condition" exactly when the ID is missing or outside 1 to 15 |
| BeyondTables.AlignmentName | PenAndPapAR/ViewsHelper/DNDBeyondWebdata.py:46-58 | IDs 1 to 9 give their table names; the result is "Unknown" exactly when the ID is missing or outside 1 to 9 |
| BeyondTables.ProficiencyBonus | PenAndPapAR/ViewsHelper/DNDBeyondWebdata.py:61-73 | the bonus lies in 0..6; it is 0 below level 1, 6 above 16, and 2 + (level - 1) / 4 in between |
| BeyondTables.ProficiencyBonusMonotone | PenAndPapAR/ViewsHelper/DNDBeyondWebdata.py:61-73 | a higher level never has a lower bonus |
| BeyondTables.CalculatorsIgnoreModifiers | PenAndPapAR/ViewsHelper/DNDBeyondWebdata.py:75-88 | the attribute and speed calculators return their base whatever the modifiers; the skill/save calculator always returns 0 |
| Payload.TotalLevelAppend | PenAndPapAR/ViewsHelper/DNDBeyondWebdata.py:103 | the level sum of two class lists is the sum of their sums |
| Payload.TotalLevelSingle | Script_DND_DATA/DNDBeyondWebdata.py:28 | one class adds its level, or 0 when it has none |
| Payload.TotalLevelNonNegative | PenAndPapAR/ViewsHelper/DNDBeyondWebdata.py:103 | with no negative class level the total is not negative |
| BeyondService.GatheredSourceCategories | PenAndPapAR/ViewsHelper/DNDBeyondWebdata.py:98-100 | extending category by category over the five categories yields race, feats, magic-items, class and background lists concatenated in that order |
| BeyondService.CollectModifiers | PenAndPapAR/ViewsHelper/DNDBeyondWebdata.py:98-100 | the extend loop produces exactly the modifier pool |
| BeyondService.ModifierPoolMembership | PenAndPapAR/ViewsHelper/DNDBeyondWebdata.py:99-100 | a modifier is pooled iff one of the five source categories lists it |
| BeyondService.ModifierPoolIgnoresOtherCategories | PenAndPapAR/ViewsHelper/DNDBeyondWebdata.py:99 | changing a category outside the five leaves the pool unchanged |
| BeyondService.ConditionLabelsAppend | PenAndPapAR/ViewsHelper/DNDBeyondWebdata.py:126-138 | the labels of two entry lists one after the other are their labels one after the other: input order is kept |
| BeyondService.RenderConditions | PenAndPapAR/ViewsHelper/DNDBeyondWebdata.py:126-140 | the append loop and the join produce the conditions text |
| BeyondService.ConditionLabelsEmptyIff | PenAndPapAR/ViewsHelper/DNDBeyondWebdata.py:126-138 | no label is produced iff every entry is neither an object nor an integer |
| BeyondService.ConditionsTextIsNoneIff | PenAndPapAR/ViewsHelper/DNDBeyondWebdata.py:140 | the text is "None" iff every entry is skipped (no condition name is "None") |
| BeyondService.ExhaustionShowsLevel | PenAndPapAR/ViewsHelper/DNDBeyondWebdata.py:131-133 | for every level value, an exhaustion object (ID 15) shows "Exhaustion (Level N)" with N its level, or 0 when it has none |
| BeyondService.BareConditionShowsName | PenAndPapAR/ViewsHelper/DNDBeyondWebdata.py:136-140 | a bare exhaustion ID shows only the name, and no entry shows "None" |
| BeyondService.ConditionsKeepOrder | PenAndPapAR/ViewsHelper/DNDBeyondWebdata.py:126-138 | for every condition list: at most one label per entry, and when every entry is an object or an integer, exactly one label per entry, the i-th label being the i-th entry's, so labels follow input order |
| BeyondService.OtherEntriesSkipped | PenAndPapAR/ViewsHelper/DNDBeyondWebdata.py:126-138 | an entry that is neither an object nor an integer adds no label, wherever it stands in the list |
| BeyondService.ConditionsTextExample | PenAndPapAR/ViewsHelper/DNDBeyondWebdata.py:126-140 | an example: an integer ID, an entry of another type and an object with an unknown ID give "Blinded, Unknown Condition" |
| BeyondService.FindStat | PenAndPapAR/ViewsHelper/DNDBeyondWebdata.py:164 | the found index is the first stat whose `id` or `statId` is the ability's; None iff no stat matches |
| BeyondService.ResolveAttributes | PenAndPapAR/ViewsHelper/DNDBeyondWebdata.py:162-171 | the attribute loop produces the six attribute records |
| BeyondService.AttributeValueIsFirstMatch | PenAndPapAR/ViewsHelper/DNDBeyondWebdata.py:164-166 | each attribute value is the first matching stat's `value` (10 if it has none), or 10 when no stat matches |
| BeyondService.AnyGrants | PenAndPapAR/ViewsHelper/DNDBeyondWebdata.py:200-211 | `any(...)` holds iff some pooled modifier grants the target |
| BeyondService.ResolveSkills | PenAndPapAR/ViewsHelper/DNDBeyondWebdata.py:194-223 | the skill loop produces the eighteen skill records |
| BeyondService.ResolveSavingThrows | PenAndPapAR/ViewsHelper/DNDBeyondWebdata.py:234-258 | the saving-throw loop produces the six saving-throw records |
| BeyondService.CharacterSheet | PenAndPapAR/ViewsHelper/DNDBeyondWebdata.py:92-93 | a falsy document, and only that, gives the error record "No data found." |
| BeyondService.ParseCharacterData | PenAndPapAR/ViewsHelper/DNDBeyondWebdata.py:91-301 | the method computes the error record or the stat block of the document |
| BeyondService.SheetShape | PenAndPapAR/ViewsHelper/DNDBeyondWebdata.py:154-258 | always 6 attributes, 18 skills and 6 saving throws, named in the fixed order |
| BeyondService.SheetLevelAndBonus | PenAndPapAR/ViewsHelper/DNDBeyondWebdata.py:103-106 | the level is the sum of class levels and the proficiency bonus is that level's tier |
| BeyondService.SheetHardCodedValues | PenAndPapAR/ViewsHelper/DNDBeyondWebdata.py:109-294 | speed is the base walk speed, 30 by default; every adjustment, `ac_modified` and `non_lethal_damage` is 0 |
| BeyondService.SheetSections | PenAndPapAR/ViewsHelper/DNDBeyondWebdata.py:296-298 | the stat block's attributes, skills and saving throws are those resolved over the modifier pool |
| BeyondService.SkillFlags | PenAndPapAR/ViewsHelper/DNDBeyondWebdata.py:200-211 | a skill is proficient (expert) iff some pooled modifier of type "proficiency" ("expertise") has the skill name in its lower-cased subType |
| BeyondService.SavingThrowFlag | PenAndPapAR/ViewsHelper/DNDBeyondWebdata.py:240-247 | a save is proficient iff some pooled "proficiency" modifier's lower-cased subType contains "<name>-saving-throws" or "<id>-saving-throws" |
| BeyondService.ModifiersOnlySetFlags | PenAndPapAR/ViewsHelper/DNDBeyondWebdata.py:112-171 | replacing the modifiers changes neither the stats record, the attributes, the hit points, the AC nor the skills' names and adjustments |
| BeyondService.UnderscoredSkillsMissHyphenatedSubTypes | PenAndPapAR/ViewsHelper/DNDBeyondWebdata.py:174-211 | a skill whose name has an underscore is never flagged by subTypes without underscores |
| BeyondService.AthleticsProficiencyExample | PenAndPapAR/ViewsHelper/DNDBeyondWebdata.py:200-223 | a class "skills-athletics" proficiency marks athletics proficient and not expert |
| PostViews.WithDefaultsChanges | PenAndPapAR/views.py:326-329 | filling adds the template keys; a missing or None template key takes the default; every other value is kept |
| PostViews.WithDefaultsIdempotent | PenAndPapAR/views.py:326-329 | filling a filled record changes nothing |
| PostViews.FillRecord | PenAndPapAR/views.py:327-329 | the loop over the template items fills the record in any key order |
| PostViews.IndexOf | PenAndPapAR/views.py:327 | `list.index` gives the first position of the topic |
| PostViews.PresentPrefix | PenAndPapAR/views.py:322-324 | the topics before the returned count are present and non-empty, and the topic at the count is not |
| PostViews.FirstInvalidTopic | PenAndPapAR/views.py:322-330 | a returned topic is in the list and absent or empty; None iff every topic is present and non-empty |
| PostViews.FillTopicIdempotent | PenAndPapAR/views.py:326-329 | filling a topic's filled records changes nothing |
| PostViews.FilledData | PenAndPapAR/views.py:322-329 | filling never adds or removes a topic |
| PostViews.FillTopicInPlace | PenAndPapAR/views.py:326-329 | each record of the topic is filled where it is stored; no other topic changes |
| PostViews.ValidatePostRequest | PenAndPapAR/views.py:320-330 | returns the first absent or empty topic, or None; the body afterwards has exactly the topics before it filled |
| PostViews.FilledDataAt | PenAndPapAR/views.py:322-329 | a topic is filled with its template iff it is among the topics processed; every other topic keeps its records |
| PostViews.FilledDataKeepsPresence | PenAndPapAR/views.py:322-329 | filling does not change which topics are present and non-empty |
| PostViews.ValidationIdempotent | PenAndPapAR/views.py:320-330 | validating the validated body returns the same answer and changes nothing |
| PostViews.RemoveFirst | PenAndPapAR/views.py:338 | `list.remove` drops the first occurrence of the name and keeps every other entry in its order; the list has one entry and one copy of the name fewer |
| PostViews.AppendDefaults | PenAndPapAR/views.py:340-366 | the list keeps its records, followed by one default record per remaining name, in list order |
| PostViews.GenerateCharacterTrait | PenAndPapAR/views.py:333-368 | the names supplied are removed in turn; on a refused name it returns the error and appends nothing (a record without the name key gives `MissingNameKey`, which stands for the `KeyError` raised at line 335); otherwise it returns an empty list and appends the defaults for the names left |
| PostViews.DefaultRecordsAreNamedTemplates | PenAndPapAR/views.py:342-366 | each default record is the field's template from lines 39-60 with the trait's name |
| PostViews.CheckTraitsAccepts | PenAndPapAR/views.py:334-338 | the check accepts iff every record carries a name and the list holds all of them, counted with repetition; the names left are the list's minus the supplied ones |
| PostViews.DefaultRecordsNamed | PenAndPapAR/views.py:341-366 | the appended defaults carry exactly the remaining names, in order |
| PostViews.CompletedTraitsCoverList | PenAndPapAR/views.py:333-366 | after success the records name every listed trait as often as the list does |
| PostViews.Unsupplied | PenAndPapAR/views.py:341 | the names left to default: a listed name is among them iff no record supplied it, kept in list order |
| PostViews.CheckTraitsKeepsOrder | PenAndPapAR/views.py:334-338 | for a list without repeated names (as the lists at lines 121-143 are), an accepted record list leaves exactly the names it did not supply, in list order |
| PostViews.DefaultsFollowListOrder | PenAndPapAR/views.py:333-366 | for a list without repeated names, the defaults a successful call appends name the traits the records left out, in list order |
| PostViews.FormatCharacterId | PenAndPapAR/views.py:317 | the generated ID starts with `#`, is followed only by digits, at least four of them, and reads back as its number |
| PostViews.GenerateCharacterId | PenAndPapAR/views.py:307-318 | returns `#` and the length of the prefix of IDs numbered 0, 1, 2, ...; an ID `int` cannot read raises |
| PostViews.GeneratedIdIsLowestFree | PenAndPapAR/views.py:309-317 | over increasing non-negative IDs, the number is the lowest no ID carries and the generated ID is new |
| ScriptReport.Put | Script_DND_DATA/DNDBeyondWebdata.py:40 | storing a score sets that ability only; a new ability goes last and an existing one keeps its place |
| ScriptReport.PutDistinct | Script_DND_DATA/DNDBeyondWebdata.py:40 | storing never duplicates an ability |
| ScriptReport.CollectStats | Script_DND_DATA/DNDBeyondWebdata.py:35-40 | the loop produces the stats table of the entries |
| ScriptReport.StatTableDistinct | Script_DND_DATA/DNDBeyondWebdata.py:35-40 | each ability appears once in the table |
| ScriptReport.InsertLookup | Script_DND_DATA/DNDBeyondWebdata.py:37-40 | an entry changes only the score of the ability it supplies; an entry without key or value changes nothing |
| ScriptReport.StatTableHasKey | Script_DND_DATA/DNDBeyondWebdata.py:36-40 | the table has a score for an ability iff some entry supplies it (key is `id` unless missing or 0, else `statId`; value not None) |
| ScriptReport.StatTableLastWins | Script_DND_DATA/DNDBeyondWebdata.py:36-40 | the stored score comes from the last entry that supplies that ability |
| ScriptReport.StatTableOrder | Script_DND_DATA/DNDBeyondWebdata.py:35-42 | the abilities appear in the order they were first supplied |
| ScriptReport.Report | Script_DND_DATA/DNDBeyondWebdata.py:22-54 | a falsy document gives exactly "Keine Daten gefunden."; any other report starts with "Name: " |
| ScriptReport.ParseCharacterData | Script_DND_DATA/DNDBeyondWebdata.py:22-54 | the method computes the report of the document |
| ScriptReport.StatLinesOneLine | Script_DND_DATA/DNDBeyondWebdata.py:42 | no ability line contains a line break |
| ScriptReport.StatsTextLines | Script_DND_DATA/DNDBeyondWebdata.py:42 | a non-empty ability block reads back as one "<name>: <value>" line per table entry, in table order |
| ScriptReport.CurrencyTextLines | Script_DND_DATA/DNDBeyondWebdata.py:46-52 | the currency block reads back as its five lines, Platin, Gold, Silber, Kupfer, Electrum |
| ScriptReport.SectionLines | Script_DND_DATA/DNDBeyondWebdata.py:54 | the attributes, equipment and currency sections each follow an empty line and their heading |
| ScriptReport.HeaderOneLine | Script_DND_DATA/DNDBeyondWebdata.py:27-54 | with no line break in the names, the header is seven lines |
| ScriptReport.ReportLines | Script_DND_DATA/DNDBeyondWebdata.py:54 | the report reads back line by line as Name, Level, Rasse, Hintergrund, Klassen, Attribute, Ausrüstung, Währung in that order |
| Text.IntToString | Script_DND_DATA/DNDBeyondWebdata.py:42 | `str(i)` is non-empty and all digits after an optional leading minus |
| Text.IntToStringRoundTrip | PenAndPapAR/views.py:312 | `int(str(i)) == i` |
| Text.ZeroPad | PenAndPapAR/views.py:317 | the `0N` format pads with leading zeros to at least N characters and keeps the digits at the end |
| Text.ZeroPadRoundTrip | PenAndPapAR/views.py:317 | a zero-padded number still parses to the number |
| Text.MissingCharBlocksContains | PenAndPapAR/ViewsHelper/DNDBeyondWebdata.py:202 | a name with a character the subType lacks is never a substring of it |
| Text.JoinAppend | PenAndPapAR/ViewsHelper/DNDBeyondWebdata.py:140 | joining two non-empty lists is joining each and putting the separator between |
| Text.SplitJoin | Script_DND_DATA/DNDBeyondWebdata.py:42 | lines without a line break joined by line breaks split back into the same lines |

## Left out

- JSON `null` is not told apart from a missing key: `Option` has one `None`. Where the source would fail on a present `null` (`character.get("race", {}).get(...)` on a `null` race), the model takes the default. Where the source passes a present `null` through, the model shows the default too: an exhaustion object with `"level": null` renders "(Level None)" in the source (PenAndPapAR/ViewsHelper/DNDBeyondWebdata.py lines 131-133) but "(Level 0)" in the model, and a stat whose value is `null` gives an `attribute_value` of None in the source but 10 in the model.
- Python's `int(str)` is modelled for an optional sign followed by ASCII digits; the whitespace, underscores and non-ASCII digits Python also accepts are not modelled. `\d` and `str.lower()` are modelled on ASCII only.
- PostViews.ValidatePostRequest: requires at most six topics. The source indexes the six-entry template list by the topic's position and would raise `IndexError` on a later topic; its only caller passes six topics.
- PostViews.GenerateCharacterTrait: on a refused name the source returns a `Response` object, which its caller then tries to `extend` a list with. The model returns the error and does not model that call site. A record without the name key makes the source raise `KeyError` (views.py line 335); the model returns `MissingNameKey` in its place.
- PostViews.GenerateCharacterId: the existing IDs are a parameter. The database query and its ordering (by character-ID string) are not modelled; the lowest-free property is proved for IDs whose numbers increase.
- The database, the Django views `get`, `post` and `put`, and the serializers, models and URLs are not part of this model. `post` first reads `character_source_link` from the first stats record (views.py lines 150-162): when it is set, it fetches and parses that D&D Beyond character, answers with the error if there is one, and otherwise validates the parsed result in place of the request body. It then validates the topics, generates the attribute, saving-throw and skill defaults, then a character ID, and stores the records.
- `update_character_stats` (views.py lines 370-380) refers to names it never defines and is never called.
- `fetch_character_data`, `get_character_info`, `DjangoDBService` and both `__main__` blocks perform network requests, console input and printing.
- `Script_DND_DATA/DNDPictureDATA.py` (OCR, PDF rendering, a neural classifier) is not part of this model.
- BeyondService.ParseCharacterData: the values the source computes and then discards (the `attribute_modifier` lookups and the `calculate_skill_or_save_value` results) are not computed.
- Condition entries that are JSON types other than objects and integers are collapsed into one `Other` case. Modifier values are never read by the source or the model; they are kept as optional integers, so other JSON types there cannot be represented. Floats are not modelled.
