/**
 * The helpers `CharacterStatsView.post` calls to normalise a request before it is stored:
 * `validate_post_request`, `generate_character_trait` and `generate_character_id`, with the
 * default templates they fill in. The Python lists and dictionaries these helpers change
 * in place are objects here: a `RequestData` for the request body, a `NameList` for a list
 * of trait names and a `RecordList` for a list of trait records.
 */
module PostViews {
  import opened Wrappers
  import opened Text

  /** A JSON scalar as a request record holds it; `Null` is Python's None. */
  datatype Value = Null | Bool(b: bool) | Int(i: int) | Str(s: string)

  /** One record (a JSON object) of a topic's list. */
  type Record = map<string, Value>

  /** A template: its keys and their default values. */
  type Template = map<string, Value>

  const CharacterStatsTemplate: Template := map[
    "character_is_inspired" := Bool(false),
    "character_name" := Null,
    "character_class" := Null,
    "character_race" := Null,
    "character_background" := Null,
    "character_subclass" := Null,
    "character_level" := Int(1),
    "character_alignment" := Null,
    "character_conditions" := Null,
    "character_source_link" := Null,
    "character_proficiency_bonus" := Int(2),
    "character_speed" := Int(30),
    "character_gender" := Null,
    "character_death_save_success" := Null,
    "character_death_save_failure" := Null,
    "character_exhaustion" := Null,
    "character_initiative_adjustment" := Null,
    "character_proficiency_bonus_adjustment" := Int(0)]

  const AttributeTemplate: Template := map[
    "attribute_name" := Str("strength"),
    "attribute_value" := Int(10),
    "attribute_adjustment" := Int(0)]

  const AcTemplate: Template := map[
    "ac_base" := Int(10),
    "ac_modified" := Int(0)]

  const SavingThrowTemplate: Template := map[
    "saving_throw_name" := Str("strength"),
    "saving_throw_adjustment" := Int(0),
    "saving_throw_is_proficient" := Bool(false)]

  const SkillsTemplate: Template := map[
    "skill_name" := Str("athletics"),
    "skill_adjustment" := Int(0),
    "skill_is_proficient" := Bool(false),
    "skill_is_expertise" := Bool(false)]

  const HitPointsTemplate: Template := map[
    "hit_points_current" := Int(30),
    "hit_points_max" := Int(30),
    "hit_points_temp" := Int(0),
    "non_lethal_damage" := Int(0)]

  /** The templates, by position of their topic in the topic list. */
  const Templates: seq<Template> := [
    CharacterStatsTemplate, AttributeTemplate, AcTemplate,
    SavingThrowTemplate, SkillsTemplate, HitPointsTemplate]

  // ---------------------------------------------------------------- validate_post_request

  /** The request body: each topic's list of records. */
  class RequestData {
    var topics: map<string, seq<Record>>

    constructor (topics: map<string, seq<Record>>)
      ensures this.topics == topics
    {
      this.topics := topics;
    }
  }

  /**
   * The record after filling: each template key that is missing or None takes the
   * template's default; every other key keeps its value.
   */
  function WithDefaults(r: Record, t: Template): Record {
    map k | k in r.Keys + t.Keys :: if k in t && (k !in r || r[k] == Null) then t[k] else r[k]
  }

  /** Only the missing or None template keys change; set values and extra keys stay. */
  lemma WithDefaultsChanges(r: Record, t: Template)
    ensures WithDefaults(r, t).Keys == r.Keys + t.Keys
    ensures forall k :: k in r && r[k] != Null ==> WithDefaults(r, t)[k] == r[k]
    ensures forall k :: k in t && (k !in r || r[k] == Null) ==> WithDefaults(r, t)[k] == t[k]
  {
  }

  /** Filling a filled record changes nothing. */
  lemma WithDefaultsIdempotent(r: Record, t: Template)
    ensures WithDefaults(WithDefaults(r, t), t) == WithDefaults(r, t)
  {
    var once := WithDefaults(r, t);
    var twice := WithDefaults(once, t);
    assert twice.Keys == once.Keys;
    forall k | k in once ensures twice[k] == once[k] {
    }
  }

  /** `filled` is `r` with the template keys in `done` filled in. */
  predicate FilledOn(filled: Record, r: Record, t: Template, done: set<string>) {
    && filled.Keys == r.Keys + (t.Keys * done)
    && forall k :: k in filled ==>
         filled[k] == (if k in t && k in done && (k !in r || r[k] == Null) then t[k] else r[k])
  }

  lemma FilledOnAll(filled: Record, r: Record, t: Template)
    requires FilledOn(filled, r, t, t.Keys)
    ensures filled == WithDefaults(r, t)
  {
    var expected := WithDefaults(r, t);
    assert filled.Keys == expected.Keys;
    forall k | k in filled ensures filled[k] == expected[k] {
    }
  }

  /** Filling one more template key extends the keys done by that key. */
  lemma FilledOnStep(filled: Record, r: Record, t: Template, done: set<string>, key: string)
    requires key in t && key !in done && FilledOn(filled, r, t, done)
    ensures FilledOn(if key !in filled || filled[key] == Null then filled[key := t[key]] else filled, r, t, done + {key})
  {
    var next := if key !in filled || filled[key] == Null then filled[key := t[key]] else filled;
    assert key in filled <==> key in r;
    assert key in filled ==> filled[key] == r[key];
    assert next.Keys == r.Keys + (t.Keys * (done + {key}));
  }

  /** The loop over the template's items; their order does not matter, as each sets only its own key. */
  method FillRecord(r: Record, t: Template) returns (filled: Record)
    ensures filled == WithDefaults(r, t)
  {
    filled := r;
    var pending := t.Keys;
    while pending != {}
      invariant pending <= t.Keys
      invariant FilledOn(filled, r, t, t.Keys - pending)
      decreases |pending|
    {
      var key :| key in pending;
      ghost var done := t.Keys - pending;
      FilledOnStep(filled, r, t, done, key);
      if key !in filled || filled[key] == Null {
        filled := filled[key := t[key]];
      }
      pending := pending - {key};
      assert t.Keys - pending == done + {key};
    }
    FilledOnAll(filled, r, t);
  }

  /** `list.index`: the position of the first occurrence. */
  function IndexOf(names: seq<string>, name: string): (i: nat)
    requires name in names
    ensures i < |names| && names[i] == name
    ensures forall j :: 0 <= j < i ==> names[j] != name
  {
    if names[0] == name then 0 else 1 + IndexOf(names[1..], name)
  }

  /** The topic is in the body and its list is not empty. */
  predicate TopicPresent(data: map<string, seq<Record>>, topic: string) {
    topic in data && data[topic] != []
  }

  /** How many topics, from the front of the list, are present. */
  function PresentPrefix(names: seq<string>, data: map<string, seq<Record>>): (n: nat)
    ensures n <= |names|
    ensures forall i :: 0 <= i < n ==> TopicPresent(data, names[i])
    ensures n < |names| ==> !TopicPresent(data, names[n])
  {
    if names == [] || !TopicPresent(data, names[0]) then 0
    else 1 + PresentPrefix(names[1..], data)
  }

  /** What `validate_post_request` returns: the first absent or empty topic, or None. */
  function FirstInvalidTopic(names: seq<string>, data: map<string, seq<Record>>): (invalid: Option<string>)
    ensures invalid.Some? ==> invalid.value in names && !TopicPresent(data, invalid.value)
    ensures invalid.None? <==> forall i :: 0 <= i < |names| ==> TopicPresent(data, names[i])
  {
    var n := PresentPrefix(names, data);
    if n < |names| then Some(names[n]) else None
  }

  function FillTopic(records: seq<Record>, t: Template): seq<Record> {
    seq(|records|, i requires 0 <= i < |records| => WithDefaults(records[i], t))
  }

  /** Filling a filled list changes nothing. */
  lemma FillTopicIdempotent(records: seq<Record>, t: Template)
    ensures FillTopic(FillTopic(records, t), t) == FillTopic(records, t)
  {
    forall i | 0 <= i < |records| ensures FillTopic(FillTopic(records, t), t)[i] == FillTopic(records, t)[i] {
      WithDefaultsIdempotent(records[i], t);
    }
  }

  /** The template of a topic: the one at the topic's first position in the topic list. */
  function TemplateFor(names: seq<string>, topic: string): Template
    requires topic in names && |names| <= |Templates|
  {
    Templates[IndexOf(names, topic)]
  }

  /** The body once the topics `names[..n]` have been filled, one after the other. */
  function FilledData(data: map<string, seq<Record>>, names: seq<string>, n: nat): (filled: map<string, seq<Record>>)
    requires n <= |names| <= |Templates|
    ensures filled.Keys == data.Keys
  {
    if n == 0 then data
    else
      var before := FilledData(data, names, n - 1);
      var topic := names[n - 1];
      if topic in before then before[topic := FillTopic(before[topic], TemplateFor(names, topic))] else before
  }

  /** The loop over one topic's records, filling each record where it is stored. */
  method FillTopicInPlace(data: RequestData, topic: string, template: Template)
    requires topic in data.topics
    modifies data
    ensures data.topics == old(data.topics)[topic := FillTopic(old(data.topics)[topic], template)]
  {
    ghost var body := data.topics;
    ghost var records := body[topic];
    FillTopicStart(records, template);
    assert body[topic := records] == body;
    var count := |data.topics[topic]|;
    for j := 0 to count
      invariant data.topics == body[topic := FillTopic(records[..j], template) + records[j..]]
    {
      var stat := FillRecord(data.topics[topic][j], template);
      FillTopicStep(records, j, template);
      data.topics := data.topics[topic := data.topics[topic][j := stat]];
    }
    assert records[..count] == records;
    assert FillTopic(records[..count], template) + records[count..] == FillTopic(records, template);
  }

  lemma FillTopicStart(records: seq<Record>, t: Template)
    ensures FillTopic(records[..0], t) + records[0..] == records
  {
    assert records[..0] == [];
  }

  /** Filling the record at `j` moves the filled prefix one record on. */
  lemma FillTopicStep(records: seq<Record>, j: nat, t: Template)
    requires j < |records|
    ensures var current := FillTopic(records[..j], t) + records[j..];
      |current| == |records| && current[j] == records[j]
      && FillTopic(records[..j + 1], t) + records[j + 1..] == current[j := WithDefaults(records[j], t)]
  {
    var current := FillTopic(records[..j], t) + records[j..];
    var next := FillTopic(records[..j + 1], t) + records[j + 1..];
    assert |next| == |records|;
    forall i | 0 <= i < |records| ensures next[i] == current[j := WithDefaults(records[j], t)][i] {
      if i < j {
        assert records[..j + 1][i] == records[..j][i];
      }
    }
  }

  /**
   * `validate_post_request`. Requires at most six topics: the template of a topic is
   * looked up by its position in the topic list.
   */
  method ValidatePostRequest(fieldNames: seq<string>, data: RequestData) returns (invalid: Option<string>)
    requires |fieldNames| <= |Templates|
    modifies data
    ensures invalid == FirstInvalidTopic(fieldNames, old(data.topics))
    ensures data.topics == FilledData(old(data.topics), fieldNames, PresentPrefix(fieldNames, old(data.topics)))
  {
    ghost var original := data.topics;
    for n := 0 to |fieldNames|
      invariant data.topics == FilledData(original, fieldNames, n)
      invariant n <= PresentPrefix(fieldNames, original)
    {
      var topic := fieldNames[n];
      FilledDataKeepsPresence(original, fieldNames, n, topic);
      if topic !in data.topics || |data.topics[topic]| == 0 {
        PresentPrefixStops(fieldNames, original, n);
        assert data.topics == FilledData(original, fieldNames, PresentPrefix(fieldNames, original));
        return Some(topic);
      }
      PresentPrefixGrows(fieldNames, original, n);
      var template := Templates[IndexOf(fieldNames, topic)];
      FilledDataNext(original, fieldNames, n);
      FillTopicInPlace(data, topic, template);
    }
    assert PresentPrefix(fieldNames, original) == |fieldNames|;
    assert data.topics == FilledData(original, fieldNames, PresentPrefix(fieldNames, original));
    invalid := None;
  }

  lemma PresentPrefixStops(names: seq<string>, data: map<string, seq<Record>>, n: nat)
    requires n <= PresentPrefix(names, data) && n < |names| && !TopicPresent(data, names[n])
    ensures PresentPrefix(names, data) == n
  {
  }

  lemma PresentPrefixGrows(names: seq<string>, data: map<string, seq<Record>>, n: nat)
    requires n <= PresentPrefix(names, data) && n < |names| && TopicPresent(data, names[n])
    ensures n + 1 <= PresentPrefix(names, data)
  {
  }

  lemma FilledDataNext(data: map<string, seq<Record>>, names: seq<string>, n: nat)
    requires n < |names| <= |Templates| && names[n] in data
    ensures var before := FilledData(data, names, n);
      FilledData(data, names, n + 1) == before[names[n] := FillTopic(before[names[n]], TemplateFor(names, names[n]))]
  {
  }

  /**
   * What filling means: each topic among the first `n` has every record filled with its
   * template, once, however often the topic is listed; every other topic is as it was.
   */
  lemma {:induction false} FilledDataAt(data: map<string, seq<Record>>, names: seq<string>, n: nat, topic: string)
    requires n <= |names| <= |Templates| && topic in data
    ensures FilledData(data, names, n)[topic]
         == if topic in names[..n] then FillTopic(data[topic], TemplateFor(names, topic)) else data[topic]
    decreases n
  {
    if n > 0 {
      FilledDataAt(data, names, n - 1, topic);
      assert names[..n] == names[..n - 1] + [names[n - 1]];
      if topic == names[n - 1] && topic in names[..n - 1] {
        FillTopicIdempotent(data[topic], TemplateFor(names, topic));
      }
    }
  }

  lemma SameBody(a: map<string, seq<Record>>, b: map<string, seq<Record>>)
    requires a.Keys == b.Keys
    requires forall k :: k in a ==> a[k] == b[k]
    ensures a == b
  {
  }

  /** Filling never changes which topics are present. */
  lemma FilledDataKeepsPresence(data: map<string, seq<Record>>, names: seq<string>, n: nat, topic: string)
    requires n <= |names| <= |Templates|
    ensures TopicPresent(FilledData(data, names, n), topic) <==> TopicPresent(data, topic)
  {
    if topic in data {
      FilledDataAt(data, names, n, topic);
    }
  }

  /** Validating a validated body reports the same topic and changes nothing more. */
  lemma ValidationIdempotent(names: seq<string>, data: map<string, seq<Record>>)
    requires |names| <= |Templates|
    ensures var once := FilledData(data, names, PresentPrefix(names, data));
      && PresentPrefix(names, once) == PresentPrefix(names, data)
      && FirstInvalidTopic(names, once) == FirstInvalidTopic(names, data)
      && FilledData(once, names, PresentPrefix(names, once)) == once
  {
    var n := PresentPrefix(names, data);
    var once := FilledData(data, names, n);
    forall topic ensures TopicPresent(once, topic) <==> TopicPresent(data, topic) {
      FilledDataKeepsPresence(data, names, n, topic);
    }
    PresentPrefixSame(names, data, once);
    var twice := FilledData(once, names, n);
    forall topic | topic in once ensures twice[topic] == once[topic] {
      FilledDataAt(data, names, n, topic);
      FilledDataAt(once, names, n, topic);
      if topic in names[..n] {
        FillTopicIdempotent(data[topic], TemplateFor(names, topic));
      }
    }
    SameBody(twice, once);
  }

  lemma {:induction false} PresentPrefixSame(names: seq<string>, d1: map<string, seq<Record>>, d2: map<string, seq<Record>>)
    requires forall topic :: TopicPresent(d1, topic) <==> TopicPresent(d2, topic)
    ensures PresentPrefix(names, d1) == PresentPrefix(names, d2)
    decreases |names|
  {
    if names != [] {
      PresentPrefixSame(names[1..], d1, d2);
    }
  }

  // ---------------------------------------------------------------- generate_character_trait

  /** A list of trait names, changed in place. */
  class NameList {
    var items: seq<string>

    constructor (items: seq<string>)
      ensures this.items == items
    {
      this.items := items;
    }
  }

  /** A list of trait records, changed in place. */
  class RecordList {
    var items: seq<Record>

    constructor (items: seq<Record>)
      ensures this.items == items
    {
      this.items := items;
    }
  }

  /** Why a trait list is refused: a name not (or no longer) in the list, or no name key at all. */
  datatype TraitError = InvalidTraitName(name: Value) | MissingNameKey

  /** Python's `list.remove`: drop the first occurrence of `x`, keeping the others in order. */
  function RemoveFirst(names: seq<string>, x: string): (rest: seq<string>)
    requires x in names
    ensures |rest| == |names| - 1
    ensures rest == names[..IndexOf(names, x)] + names[IndexOf(names, x) + 1..]
    ensures multiset(rest) == multiset(names) - multiset{x}
  {
    var rest := if names[0] == x then names[1..] else [names[0]] + RemoveFirst(names[1..], x);
    RemoveFirstStep(names, x, rest);
    rest
  }

  /** One step of `RemoveFirst`: a kept head goes before the tail without its first `x`. */
  lemma RemoveFirstStep(names: seq<string>, x: string, rest: seq<string>)
    requires x in names
    requires names[0] == x ==> rest == names[1..]
    requires names[0] != x ==>
      x in names[1..] && rest == [names[0]] + names[1..][..IndexOf(names[1..], x)] + names[1..][IndexOf(names[1..], x) + 1..]
    ensures |rest| == |names| - 1
    ensures rest == names[..IndexOf(names, x)] + names[IndexOf(names, x) + 1..]
    ensures multiset(rest) == multiset(names) - multiset{x}
  {
    var i := IndexOf(names, x);
    if names[0] != x {
      RemoveFirstSlices(names, x);
    }
    RemoveAtMultiset(names, i, rest);
  }

  lemma RemoveFirstSlices(names: seq<string>, x: string)
    requires names != [] && x in names[1..] && names[0] != x
    ensures [names[0]] + names[1..][..IndexOf(names[1..], x)] == names[..IndexOf(names, x)]
    ensures names[1..][IndexOf(names[1..], x) + 1..] == names[IndexOf(names, x) + 1..]
  {
    var j := IndexOf(names[1..], x);
    assert IndexOf(names, x) == j + 1;
  }

  /** Dropping the entry at `i` takes one copy of it out of the multiset. */
  lemma RemoveAtMultiset(names: seq<string>, i: nat, rest: seq<string>)
    requires i < |names|
    requires rest == names[..i] + names[i + 1..]
    ensures multiset(rest) == multiset(names) - multiset{names[i]}
  {
    assert names == names[..i] + [names[i]] + names[i + 1..];
  }

  /** The outcome of the check loop: the names still in the list and the error that stopped it, if any. */
  datatype Checked = Checked(remaining: seq<string>, error: Option<TraitError>)

  /** The first loop: each record's name must still be in the list, and is removed from it. */
  function CheckTraits(names: seq<string>, traits: seq<Record>, key: string): Checked
    decreases |traits|
  {
    if traits == [] then Checked(names, None)
    else if key !in traits[0] then Checked(names, Some(MissingNameKey))
    else match traits[0][key]
      case Str(s) =>
        if s in names then CheckTraits(RemoveFirst(names, s), traits[1..], key)
        else Checked(names, Some(InvalidTraitName(Str(s))))
      case v => Checked(names, Some(InvalidTraitName(v)))
  }

  /** The default record the second loop appends for a missing name; other fields get none. */
  function DefaultRecord(field: string, name: string): Option<Record> {
    if field == "attribute" then
      Some(map["attribute_name" := Str(name), "attribute_value" := Int(10), "attribute_adjustment" := Int(0)])
    else if field == "saving_throw" then
      Some(map["saving_throw_name" := Str(name), "saving_throw_adjustment" := Int(0),
               "saving_throw_is_proficient" := Bool(false)])
    else if field == "skill" then
      Some(map["skill_name" := Str(name), "skill_adjustment" := Int(0),
               "skill_is_proficient" := Bool(false), "skill_is_expertise" := Bool(false)])
    else None
  }

  function DefaultRecords(field: string, names: seq<string>): seq<Record> {
    if names == [] then []
    else
      DefaultRecords(field, names[..|names| - 1])
      + (match DefaultRecord(field, names[|names| - 1]) case Some(r) => [r] case None => [])
  }

  /** The second loop: a default record per name, in list order, appended where the list is stored. */
  method AppendDefaults(traitData: RecordList, names: seq<string>, field: string)
    modifies traitData
    ensures traitData.items == old(traitData.items) + DefaultRecords(field, names)
  {
    for j := 0 to |names|
      invariant traitData.items == old(traitData.items) + DefaultRecords(field, names[..j])
    {
      assert names[..j + 1][..j] == names[..j];
      var record := DefaultRecord(field, names[j]);
      if record.Some? {
        traitData.items := traitData.items + [record.value];
      }
    }
    assert names[..|names|] == names;
  }

  /**
   * `generate_character_trait`: on a refused name it stops, keeping the names removed so
   * far and appending nothing; otherwise it appends a default record per name left, in
   * list order, and returns an empty list.
   */
  method GenerateCharacterTrait(nameList: NameList, traitData: RecordList, field: string)
    returns (r: Result<seq<Record>, TraitError>)
    modifies nameList, traitData
    ensures nameList.items == CheckTraits(old(nameList.items), old(traitData.items), field + "_name").remaining
    ensures CheckTraits(old(nameList.items), old(traitData.items), field + "_name").error.Some? ==>
      r == Failure(CheckTraits(old(nameList.items), old(traitData.items), field + "_name").error.value)
      && traitData.items == old(traitData.items)
    ensures CheckTraits(old(nameList.items), old(traitData.items), field + "_name").error.None? ==>
      r == Success([])
      && traitData.items == old(traitData.items) + DefaultRecords(field, nameList.items)
  {
    var key := field + "_name";
    var traits := traitData.items;
    for i := 0 to |traits|
      invariant traitData.items == traits
      invariant CheckTraits(old(nameList.items), traits, key) == CheckTraits(nameList.items, traits[i..], key)
    {
      assert traits[i..][1..] == traits[i + 1..];
      if key !in traits[i] {
        return Failure(MissingNameKey);
      }
      var name := traits[i][key];
      if !name.Str? || name.s !in nameList.items {
        return Failure(InvalidTraitName(name));
      }
      nameList.items := RemoveFirst(nameList.items, name.s);
    }
    var missingTraits: seq<Record> := [];
    AppendDefaults(traitData, nameList.items, field);
    r := Success(missingTraits);
  }

  /** A default record is its template with the trait's name in place of the template's name. */
  lemma DefaultRecordsAreNamedTemplates(name: string)
    ensures DefaultRecord("attribute", name) == Some(AttributeTemplate["attribute_name" := Str(name)])
    ensures DefaultRecord("saving_throw", name) == Some(SavingThrowTemplate["saving_throw_name" := Str(name)])
    ensures DefaultRecord("skill", name) == Some(SkillsTemplate["skill_name" := Str(name)])
  {
    DefaultAttributeRecord(name);
    DefaultSavingThrowRecord(name);
    DefaultSkillRecord(name);
  }

  lemma DefaultAttributeRecord(name: string)
    ensures DefaultRecord("attribute", name) == Some(AttributeTemplate["attribute_name" := Str(name)])
  {
    SameRecord(DefaultRecord("attribute", name).value, AttributeTemplate["attribute_name" := Str(name)]);
  }

  lemma DefaultSavingThrowRecord(name: string)
    ensures DefaultRecord("saving_throw", name) == Some(SavingThrowTemplate["saving_throw_name" := Str(name)])
  {
    SameRecord(DefaultRecord("saving_throw", name).value, SavingThrowTemplate["saving_throw_name" := Str(name)]);
  }

  lemma DefaultSkillRecord(name: string)
    ensures DefaultRecord("skill", name) == Some(SkillsTemplate["skill_name" := Str(name)])
  {
    SameRecord(DefaultRecord("skill", name).value, SkillsTemplate["skill_name" := Str(name)]);
  }

  lemma SameRecord(a: Record, b: Record)
    requires a.Keys == b.Keys
    requires forall k :: k in a ==> a[k] == b[k]
    ensures a == b
  {
  }

  /** Every record carries a string under the name key. */
  predicate AllNamed(traits: seq<Record>, key: string) {
    forall i :: 0 <= i < |traits| ==> key in traits[i] && traits[i][key].Str?
  }

  /** The names the records carry, in order. */
  function SuppliedNames(traits: seq<Record>, key: string): seq<string>
    requires AllNamed(traits, key)
  {
    if traits == [] then [] else [traits[0][key].s] + SuppliedNames(traits[1..], key)
  }

  /**
   * The check loop accepts exactly the record lists that all carry a name and whose names,
   * counted with repetition, the list holds; the names left are the list's minus those.
   */
  lemma {:induction false} CheckTraitsAccepts(names: seq<string>, traits: seq<Record>, key: string)
    ensures CheckTraits(names, traits, key).error.None?
        <==> AllNamed(traits, key) && multiset(SuppliedNames(traits, key)) <= multiset(names)
    ensures CheckTraits(names, traits, key).error.None? ==>
      AllNamed(traits, key)
      && multiset(CheckTraits(names, traits, key).remaining) == multiset(names) - multiset(SuppliedNames(traits, key))
    decreases |traits|
  {
    if traits != [] && key in traits[0] && traits[0][key].Str? {
      var s := traits[0][key].s;
      var rest := traits[1..];
      NamedCons(traits, key);
      if s in names {
        var left := RemoveFirst(names, s);
        CheckTraitsAccepts(left, rest, key);
        assert CheckTraits(names, traits, key) == CheckTraits(left, rest, key);
        if AllNamed(rest, key) {
          MultisetConsWithin(s, multiset(SuppliedNames(rest, key)), multiset(names));
        }
      } else if AllNamed(rest, key) {
        assert s in multiset(SuppliedNames(traits, key));
      }
    }
  }

  /** A record list with a name at its head splits into that name and the rest. */
  lemma NamedCons(traits: seq<Record>, key: string)
    requires traits != [] && key in traits[0] && traits[0][key].Str?
    ensures AllNamed(traits, key) <==> AllNamed(traits[1..], key)
    ensures AllNamed(traits, key) ==> SuppliedNames(traits, key) == [traits[0][key].s] + SuppliedNames(traits[1..], key)
  {
    assert forall i :: 1 <= i < |traits| ==> traits[i] == traits[1..][i - 1];
  }

  lemma MultisetConsWithin(s: string, rest: multiset<string>, names: multiset<string>)
    requires s in names
    ensures multiset{s} + rest <= names <==> rest <= names - multiset{s}
    ensures multiset{s} + rest <= names ==> names - (multiset{s} + rest) == (names - multiset{s}) - rest
  {
  }

  lemma {:induction false} SuppliedNamesAppend(a: seq<Record>, b: seq<Record>, key: string)
    requires AllNamed(a, key) && AllNamed(b, key)
    ensures AllNamed(a + b, key)
    ensures SuppliedNames(a + b, key) == SuppliedNames(a, key) + SuppliedNames(b, key)
    decreases |a|
  {
    if a == [] {
      assert a + b == b;
    } else {
      assert (a + b)[1..] == a[1..] + b;
      SuppliedNamesAppend(a[1..], b, key);
    }
  }

  /** For the three trait fields, the default records carry exactly the missing names. */
  lemma {:induction false} DefaultRecordsNamed(field: string, names: seq<string>)
    requires field == "attribute" || field == "saving_throw" || field == "skill"
    ensures AllNamed(DefaultRecords(field, names), field + "_name")
    ensures SuppliedNames(DefaultRecords(field, names), field + "_name") == names
    decreases |names|
  {
    var key := field + "_name";
    if names != [] {
      var front := names[..|names| - 1];
      var last := names[|names| - 1];
      DefaultRecordsNamed(field, front);
      var record := DefaultRecord(field, last).value;
      if field == "attribute" {
        assert key == "attribute_name";
      } else if field == "saving_throw" {
        assert key == "saving_throw_name";
      } else {
        assert key == "skill_name";
      }
      assert SuppliedNames([record], key) == [last];
      SuppliedNamesAppend(DefaultRecords(field, front), [record], key);
      assert names == front + [last];
    }
  }

  /**
   * After a successful call the record list names every listed trait as often as the
   * list does: the records sent plus the defaults appended for the rest.
   */
  lemma CompletedTraitsCoverList(names: seq<string>, traits: seq<Record>, field: string)
    requires field == "attribute" || field == "saving_throw" || field == "skill"
    requires CheckTraits(names, traits, field + "_name").error.None?
    ensures var completed := traits + DefaultRecords(field, CheckTraits(names, traits, field + "_name").remaining);
      AllNamed(completed, field + "_name")
      && multiset(SuppliedNames(completed, field + "_name")) == multiset(names)
  {
    var key := field + "_name";
    var remaining := CheckTraits(names, traits, key).remaining;
    CheckTraitsAccepts(names, traits, key);
    DefaultRecordsNamed(field, remaining);
    SuppliedNamesAppend(traits, DefaultRecords(field, remaining), key);
  }

  /** No name occurs twice in the list. */
  predicate Distinct(names: seq<string>) {
    forall i, j :: 0 <= i < j < |names| ==> names[i] != names[j]
  }

  /** The listed names that `supplied` does not hold, in list order. */
  function Unsupplied(names: seq<string>, supplied: seq<string>): (left: seq<string>)
    ensures forall n :: n in left <==> n in names && n !in supplied
  {
    if names == [] then []
    else (if names[0] in supplied then [] else [names[0]]) + Unsupplied(names[1..], supplied)
  }

  lemma {:induction false} UnsuppliedNothing(names: seq<string>)
    ensures Unsupplied(names, []) == names
    decreases |names|
  {
    if names != [] {
      UnsuppliedNothing(names[1..]);
    }
  }

  /** Removing a name from a list without repetitions leaves it without repetitions. */
  lemma RemoveFirstDistinct(names: seq<string>, x: string)
    requires x in names && Distinct(names)
    ensures Distinct(RemoveFirst(names, x))
  {
    var i := IndexOf(names, x);
    var rest := RemoveFirst(names, x);
    forall p, q | 0 <= p < q < |rest|
      ensures rest[p] != rest[q]
    {
      var p' := if p < i then p else p + 1;
      var q' := if q < i then q else q + 1;
      assert rest[p] == names[p'] && rest[q] == names[q'];
    }
  }

  /** Supplying a name the list does not hold leaves nothing else out. */
  lemma {:induction false} UnsuppliedSkipsAbsent(names: seq<string>, s: string, supplied: seq<string>)
    requires s !in names
    ensures Unsupplied(names, [s] + supplied) == Unsupplied(names, supplied)
    decreases |names|
  {
    if names != [] {
      assert names[0] in [s] + supplied <==> names[0] in supplied;
      assert s !in names[1..] by {
        assert forall k :: 0 <= k < |names[1..]| ==> names[1..][k] == names[k + 1];
      }
      UnsuppliedSkipsAbsent(names[1..], s, supplied);
    }
  }

  /** In a list without repetitions, removing `s` and then the others leaves what supplying all of them leaves. */
  lemma {:induction false} UnsuppliedRemoveFirst(names: seq<string>, s: string, supplied: seq<string>)
    requires s in names && Distinct(names)
    ensures Unsupplied(RemoveFirst(names, s), supplied) == Unsupplied(names, [s] + supplied)
    decreases |names|
  {
    assert Distinct(names[1..]) by {
      assert forall k :: 0 <= k < |names[1..]| ==> names[1..][k] == names[k + 1];
    }
    if names[0] == s {
      assert s !in names[1..] by {
        assert forall k :: 0 <= k < |names[1..]| ==> names[1..][k] == names[k + 1];
      }
      UnsuppliedSkipsAbsent(names[1..], s, supplied);
    } else {
      UnsuppliedRemoveFirst(names[1..], s, supplied);
      var rest := RemoveFirst(names[1..], s);
      assert ([names[0]] + rest)[1..] == rest;
      assert names[0] in [s] + supplied <==> names[0] in supplied;
    }
  }

  /**
   * For a list without repetitions, an accepted record list leaves exactly the names it
   * did not supply, in the list's own order.
   */
  lemma {:induction false} CheckTraitsKeepsOrder(names: seq<string>, traits: seq<Record>, key: string)
    requires Distinct(names)
    ensures CheckTraits(names, traits, key).error.None? ==>
      AllNamed(traits, key)
      && CheckTraits(names, traits, key).remaining == Unsupplied(names, SuppliedNames(traits, key))
    decreases |traits|
  {
    if traits == [] {
      UnsuppliedNothing(names);
    } else if key in traits[0] && traits[0][key].Str? && traits[0][key].s in names {
      var s := traits[0][key].s;
      var rest := traits[1..];
      NamedCons(traits, key);
      var left := RemoveFirst(names, s);
      RemoveFirstDistinct(names, s);
      CheckTraitsKeepsOrder(left, rest, key);
      assert CheckTraits(names, traits, key) == CheckTraits(left, rest, key);
      if CheckTraits(left, rest, key).error.None? {
        UnsuppliedRemoveFirst(names, s, SuppliedNames(rest, key));
      }
    }
  }

  /**
   * For a list without repetitions, the defaults a successful call appends name the traits
   * the records left out, in the list's order.
   */
  lemma DefaultsFollowListOrder(names: seq<string>, traits: seq<Record>, field: string)
    requires field == "attribute" || field == "saving_throw" || field == "skill"
    requires Distinct(names)
    requires CheckTraits(names, traits, field + "_name").error.None?
    ensures AllNamed(traits, field + "_name")
    ensures var defaults := DefaultRecords(field, CheckTraits(names, traits, field + "_name").remaining);
      AllNamed(defaults, field + "_name")
      && SuppliedNames(defaults, field + "_name") == Unsupplied(names, SuppliedNames(traits, field + "_name"))
  {
    var key := field + "_name";
    CheckTraitsKeepsOrder(names, traits, key);
    DefaultRecordsNamed(field, CheckTraits(names, traits, key).remaining);
  }

  // ---------------------------------------------------------------- generate_character_id

  /** `int(i[1:])`: the number after the first character, None when `int` would raise. */
  function NumericPart(id: string): Option<int> {
    ParseInt(if |id| == 0 then "" else id[1..])
  }

  /** `f"#{n:04d}"`: reads back as `n`. */
  function FormatCharacterId(n: nat): (id: string)
    ensures |id| >= 5 && id[0] == '#' && AllDigits(id[1..])
    ensures NumericPart(id) == Some(n)
  {
    var digits := ZeroPad(NatToString(n), 4);
    ZeroPadRoundTrip(n, 4);
    assert ("#" + digits)[1..] == digits;
    "#" + digits
  }

  /** The first `k` IDs carry the numbers 0, 1, ..., k - 1. */
  predicate CountsUpTo(ids: seq<string>, k: int) {
    0 <= k <= |ids| && forall j :: 0 <= j < k ==> NumericPart(ids[j]) == Some(j)
  }

  /** The scan stops after `k` IDs: they count up, and the next one, if any, carries another number. */
  predicate StopsAt(ids: seq<string>, k: int) {
    CountsUpTo(ids, k) && (k < |ids| ==> NumericPart(ids[k]).Some? && NumericPart(ids[k]).value != k)
  }

  /**
   * `generate_character_id` over the existing IDs in the order the query returns them:
   * `#` and the length of the counting prefix, or the ID `int` cannot read.
   */
  method GenerateCharacterId(existingIds: seq<string>) returns (r: Result<string, string>)
    ensures r.Success? ==> exists k :: StopsAt(existingIds, k) && r.value == FormatCharacterId(k)
    ensures r.Failure? ==>
      exists k :: CountsUpTo(existingIds, k) && k < |existingIds| && NumericPart(existingIds[k]).None?
                  && r.error == existingIds[k]
  {
    var minFreeId: nat := 0;
    while minFreeId < |existingIds|
      invariant CountsUpTo(existingIds, minFreeId)
      decreases |existingIds| - minFreeId
    {
      var numericId := NumericPart(existingIds[minFreeId]);
      if numericId.None? {
        return Failure(existingIds[minFreeId]);
      }
      if numericId.value == minFreeId {
        minFreeId := minFreeId + 1;
      } else {
        break;
      }
    }
    assert StopsAt(existingIds, minFreeId);
    r := Success(FormatCharacterId(minFreeId));
  }

  /** Some existing ID carries the number `n`. */
  predicate Taken(ids: seq<string>, n: int) {
    exists j :: 0 <= j < |ids| && NumericPart(ids[j]) == Some(n)
  }

  /**
   * Over IDs whose numbers are non-negative and strictly increasing, the scan stops at
   * the lowest number no ID carries, so the generated ID is new.
   */
  lemma GeneratedIdIsLowestFree(ids: seq<string>, k: int)
    requires StopsAt(ids, k)
    requires forall j :: 0 <= j < |ids| ==> NumericPart(ids[j]).Some? && NumericPart(ids[j]).value >= 0
    requires forall i, j :: 0 <= i < j < |ids| ==> NumericPart(ids[i]).value < NumericPart(ids[j]).value
    ensures forall j :: 0 <= j < |ids| ==> NumericPart(ids[j]) != Some(k)
    ensures forall n :: 0 <= n < k ==> Taken(ids, n)
    ensures k >= 0 && FormatCharacterId(k) !in ids
  {
    forall n | 0 <= n < k ensures Taken(ids, n) {
      assert 0 <= n < |ids| && NumericPart(ids[n]) == Some(n);
    }
    if k < |ids| {
      assert k > 0 ==> NumericPart(ids[k - 1]) == Some(k - 1);
      assert NumericPart(ids[k]).value > k;
    }
    forall j | 0 <= j < |ids| ensures ids[j] != FormatCharacterId(k) {
      assert NumericPart(FormatCharacterId(k)) == Some(k);
    }
  }
}
