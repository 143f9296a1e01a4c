/**
 * The row builder for spell records (src/types/spell-json.ts): the raw JSON
 * record `SpellJson`, the display record `Spell` it becomes, and the
 * field-by-field normaliser `MapSpellJsonToSpell`.
 */
module Spells {
  import opened Wrappers

  /** A spell's range in the data file: either an integer range code or free text. */
  datatype RangeValue = RangeCode(code: int) | RangeText(text: string)

  /** The raw record as stored in the bundled JSON data; every `?` field of the source is an `Option`. */
  datatype SpellJson = SpellJson(
    name: string,
    level: int,
    school: int,
    castingTime: int,
    duration: Option<string>,
    range: Option<RangeValue>,
    area: Option<string>,
    attack: Option<string>,
    save: Option<string>,
    damageAndEffect: Option<string>,
    ritual: Option<bool>,
    concentration: Option<bool>,
    verbal: Option<bool>,
    somatic: Option<bool>,
    material: Option<string>,
    source: int,
    details: Option<string>,
    link: Option<string>)

  /**
   * The display record. Its declaration (types/spell) is not part of this
   * model; its shape is the object literal that the normaliser builds.
   */
  datatype Spell = Spell(
    name: string,
    level: int,
    school: string,
    castingTime: string,
    duration: Option<string>,
    range: Option<RangeValue>,
    area: Option<string>,
    attack: Option<string>,
    save: Option<string>,
    damageAndEffect: Option<string>,
    ritual: Option<bool>,
    concentration: Option<bool>,
    verbal: Option<bool>,
    somatic: Option<bool>,
    material: Option<string>,
    source: string,
    details: Option<string>)

  /**
   * The three code-to-name lookup tables (enums/schools, enums/casting-times,
   * enums/sources). Their contents are not part of this model, so every
   * statement below holds for any tables at all.
   */
  datatype EnumNames = EnumNames(
    schoolName: int -> string,
    castingTimeName: int -> string,
    sourceName: int -> string)

  /** The fields that the normaliser copies without looking at them. */
  datatype CopiedFields = CopiedFields(
    name: string,
    level: int,
    duration: Option<string>,
    range: Option<RangeValue>,
    area: Option<string>,
    attack: Option<string>,
    save: Option<string>,
    damageAndEffect: Option<string>,
    ritual: Option<bool>,
    concentration: Option<bool>,
    verbal: Option<bool>,
    somatic: Option<bool>,
    material: Option<string>,
    details: Option<string>)

  function JsonCopiedFields(j: SpellJson): CopiedFields {
    CopiedFields(j.name, j.level, j.duration, j.range, j.area, j.attack, j.save,
                 j.damageAndEffect, j.ritual, j.concentration, j.verbal, j.somatic,
                 j.material, j.details)
  }

  function SpellCopiedFields(s: Spell): CopiedFields {
    CopiedFields(s.name, s.level, s.duration, s.range, s.area, s.attack, s.save,
                 s.damageAndEffect, s.ritual, s.concentration, s.verbal, s.somatic,
                 s.material, s.details)
  }

  /**
   * The normaliser as the source writes it: total, with no branch and no
   * failure path. The display `source` is looked up from the SCHOOL code.
   */
  function MapSpellJsonToSpell(names: EnumNames, json: SpellJson): (r: Spell)
    ensures SpellCopiedFields(r) == JsonCopiedFields(json)
    ensures r.school == names.schoolName(json.school)
    ensures r.castingTime == names.castingTimeName(json.castingTime)
    ensures r.source == names.sourceName(json.school)
  {
    Spell(
      name := json.name,
      level := json.level,
      school := names.schoolName(json.school),
      castingTime := names.castingTimeName(json.castingTime),
      duration := json.duration,
      range := json.range,
      area := json.area,
      attack := json.attack,
      save := json.save,
      damageAndEffect := json.damageAndEffect,
      ritual := json.ritual,
      concentration := json.concentration,
      verbal := json.verbal,
      somatic := json.somatic,
      material := json.material,
      source := names.sourceName(json.school),
      details := json.details)
  }

  /** An optional field is absent in the row exactly when it is absent in the record: no default is substituted. */
  lemma AbsentStaysAbsent(names: EnumNames, json: SpellJson)
    ensures var r := MapSpellJsonToSpell(names, json);
      (r.duration.None? <==> json.duration.None?) && (r.range.None? <==> json.range.None?) &&
      (r.area.None? <==> json.area.None?) && (r.attack.None? <==> json.attack.None?) &&
      (r.save.None? <==> json.save.None?) &&
      (r.damageAndEffect.None? <==> json.damageAndEffect.None?) &&
      (r.ritual.None? <==> json.ritual.None?) &&
      (r.concentration.None? <==> json.concentration.None?) &&
      (r.verbal.None? <==> json.verbal.None?) && (r.somatic.None? <==> json.somatic.None?) &&
      (r.material.None? <==> json.material.None?) && (r.details.None? <==> json.details.None?)
  {
  }

  /** The record's `source` code is never read: records that differ only there give the same row. */
  lemma SourceCodeNeverRead(names: EnumNames, a: SpellJson, b: SpellJson)
    requires a.(source := b.source) == b
    ensures MapSpellJsonToSpell(names, a) == MapSpellJsonToSpell(names, b)
  {
  }

  /** The record's `link` is accepted but dropped: records that differ only there give the same row. */
  lemma LinkNeverRead(names: EnumNames, a: SpellJson, b: SpellJson)
    requires a.(link := b.link) == b
    ensures MapSpellJsonToSpell(names, a) == MapSpellJsonToSpell(names, b)
  {
  }

  /** The row is determined by the copied fields and the school and casting-time codes alone. */
  lemma RowDeterminedByCopiedFieldsAndCodes(names: EnumNames, a: SpellJson, b: SpellJson)
    requires JsonCopiedFields(a) == JsonCopiedFields(b)
    requires a.school == b.school && a.castingTime == b.castingTime
    ensures MapSpellJsonToSpell(names, a) == MapSpellJsonToSpell(names, b)
  {
  }

  /** Tables whose school and source lookups disagree on code 1, used to exhibit the source-from-school defect. */
  function WitnessNames(): EnumNames {
    EnumNames(
      schoolName := c => if c == 1 then "Conjuration" else "Abjuration",
      castingTimeName := c => "1 Action",
      sourceName := c => if c == 1 then "Xanathar's Guide to Everything" else "Player's Handbook")
  }

  /** A record with school code 1 from source code 0. */
  function WitnessRecord(): SpellJson {
    SpellJson("Misty Step", 2, 1, 0, Some("Instantaneous"), None, None, None, None, None,
              None, None, Some(true), None, None, 0, None, None)
  }

  /** As written, the row's source name is not the name of the record's source code. */
  lemma SourceFromSchoolCounterexample()
    ensures MapSpellJsonToSpell(WitnessNames(), WitnessRecord()).source
         != WitnessNames().sourceName(WitnessRecord().source)
  {
  }

  /** The evidently intended normaliser: identical except that `source` is looked up from the source code. */
  function MapSpellJsonToSpellIntended(names: EnumNames, json: SpellJson): (r: Spell)
    ensures SpellCopiedFields(r) == JsonCopiedFields(json)
    ensures r.school == names.schoolName(json.school)
    ensures r.castingTime == names.castingTimeName(json.castingTime)
    ensures r.source == names.sourceName(json.source)
  {
    MapSpellJsonToSpell(names, json).(source := names.sourceName(json.source))
  }

  /** The intended normaliser ignores the school code when naming the source, and still drops `link`. */
  lemma IntendedSourceFollowsSourceCode(names: EnumNames, a: SpellJson, b: SpellJson)
    requires a.(school := b.school, link := b.link) == b
    ensures MapSpellJsonToSpellIntended(names, a).source == MapSpellJsonToSpellIntended(names, b).source
  {
  }
}
