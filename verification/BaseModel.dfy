/**
 * The configuration model the folder models build on: a value tree, its
 * top-level keys and the language-override sections. Only the behaviour the
 * folder models rely on is modelled here.
 */
module BaseModel {
  import opened Values

  /** A selector-scoped section such as `"[javascript]": { ... }`. */
  datatype Override = Override(identifier: string, contents: Json)

  /** A configuration model as a value: contents, keys and overrides. */
  datatype ConfigurationModel = ConfigurationModel(contents: Json, keys: seq<string>, overrides: seq<Override>)

  /** The model with no settings at all. */
  const EmptyModel := ConfigurationModel(EmptyObject, [], [])

  /** Keys written `[selector]` introduce an override section. */
  predicate IsOverrideKey(key: string) {
    |key| >= 2 && key[0] == '[' && key[|key| - 1] == ']'
  }

  /** The override sections of a parsed settings object, in iteration order. */
  function OverridesOf(raw: Raw): (os: seq<Override>)
    ensures |os| <= |raw|
    decreases |raw|
  {
    if raw == [] then []
    else
      var front, last := raw[..|raw| - 1], raw[|raw| - 1];
      OverridesOf(front) +
        (if IsOverrideKey(last.key) then [SectionOf(last)] else [])
  }

  /** The section a `[selector]` key introduces: the selector without its brackets, and the key's value. */
  function SectionOf(p: Property): (section: Override)
    requires IsOverrideKey(p.key)
  {
    Override(p.key[1..|p.key| - 1], p.value)
  }

  /**
   * Every override section comes from a `[selector]` property, and every such
   * property yields its section, in iteration order.
   */
  lemma {:induction false} OverridesOfSections(raw: Raw)
    ensures forall o :: o in OverridesOf(raw) ==>
      exists i :: 0 <= i < |raw| && IsOverrideKey(raw[i].key) && o == SectionOf(raw[i])
    ensures forall i :: 0 <= i < |raw| && IsOverrideKey(raw[i].key) ==> SectionOf(raw[i]) in OverridesOf(raw)
    decreases |raw|
  {
    if raw != [] {
      var front, last := raw[..|raw| - 1], raw[|raw| - 1];
      OverridesOfSections(front);
      forall o | o in OverridesOf(raw)
        ensures exists i :: 0 <= i < |raw| && IsOverrideKey(raw[i].key) && o == SectionOf(raw[i])
      {
        if o in OverridesOf(front) {
          var i :| 0 <= i < |front| && IsOverrideKey(front[i].key) && o == SectionOf(front[i]);
          assert raw[i] == front[i];
        } else {
          assert IsOverrideKey(raw[|raw| - 1].key) && o == SectionOf(raw[|raw| - 1]);
        }
      }
      forall i | 0 <= i < |raw| && IsOverrideKey(raw[i].key)
        ensures SectionOf(raw[i]) in OverridesOf(raw)
      {
        if i < |raw| - 1 {
          assert raw[i] == front[i];
        }
      }
    }
  }

  /**
   * The base `processRaw`: the model of a parsed settings object, with one
   * key per property and the override sections extracted.
   */
  function ProcessRaw(raw: Raw): (m: ConfigurationModel)
    ensures m.contents.Obj? && m.keys == PropertyKeys(raw)
  {
    ConfigurationModel(ValuesTree(raw), PropertyKeys(raw), OverridesOf(raw))
  }

  /** The model has one top-level key per key of the parsed settings. */
  lemma ProcessRawKeys(raw: Raw, k: string)
    ensures k in ProcessRaw(raw).contents.fields <==> k in ProcessRaw(raw).keys
  {
    FieldsKeys(raw, k);
  }
}
