/** JSON values, parsed settings objects and the value tree built from them. */
module Values {

  /** A JSON value as the settings parser produces it (numbers are kept as integers). */
  datatype Json =
    | Null
    | Bool(b: bool)
    | Num(n: int)
    | Str(s: string)
    | Arr(items: seq<Json>)
    | Obj(fields: map<string, Json>)

  /** The empty object `{}` every model starts from. */
  const EmptyObject: Json := Obj(map[])

  /** One top-level property of a parsed settings object. */
  datatype Property = Property(key: string, value: Json)

  /** A parsed settings object: its top-level properties in iteration order. */
  type Raw = seq<Property>

  /** `Object.keys(raw)`: the property keys, in iteration order. */
  function PropertyKeys(raw: Raw): (ks: seq<string>)
    ensures |ks| == |raw|
  {
    seq(|raw|, i requires 0 <= i < |raw| => raw[i].key)
  }

  lemma PropertyKeysAppend(a: Raw, b: Raw)
    ensures PropertyKeys(a + b) == PropertyKeys(a) + PropertyKeys(b)
  {
  }

  /** A key is listed by `PropertyKeys` exactly when some property carries it. */
  lemma PropertyKeysMembership(raw: Raw, k: string)
    ensures k in PropertyKeys(raw) <==> exists p :: p in raw && p.key == k
  {
    if k in PropertyKeys(raw) {
      var i :| 0 <= i < |raw| && PropertyKeys(raw)[i] == k;
      assert raw[i] in raw;
    }
    if exists p :: p in raw && p.key == k {
      var p :| p in raw && p.key == k;
      var i :| 0 <= i < |raw| && raw[i] == p;
      assert PropertyKeys(raw)[i] == k;
    }
  }

  /**
   * The flat key/value object of a parsed settings object; a key given twice
   * keeps its last value.
   */
  function Fields(raw: Raw): (m: map<string, Json>)
    decreases |raw|
  {
    if raw == [] then map[]
    else Fields(raw[..|raw| - 1])[raw[|raw| - 1].key := raw[|raw| - 1].value]
  }

  /** The flat object has exactly the keys of the parsed settings. */
  lemma {:induction false} FieldsKeys(raw: Raw, k: string)
    ensures k in Fields(raw) <==> k in PropertyKeys(raw)
    decreases |raw|
  {
    if raw != [] {
      var front := raw[..|raw| - 1];
      FieldsKeys(front, k);
      PropertyKeysAppend(front, [raw[|raw| - 1]]);
      assert raw == front + [raw[|raw| - 1]];
      assert PropertyKeys([raw[|raw| - 1]]) == [raw[|raw| - 1].key];
    }
  }

  /** Every property of `raw` whose key is not repeated later keeps its value in `Fields(raw)`. */
  lemma {:induction false} FieldsValue(raw: Raw, i: nat)
    requires i < |raw|
    requires forall j :: i < j < |raw| ==> raw[j].key != raw[i].key
    ensures raw[i].key in Fields(raw) && Fields(raw)[raw[i].key] == raw[i].value
    decreases |raw|
  {
    if i < |raw| - 1 {
      var front := raw[..|raw| - 1];
      FieldsValue(front, i);
    }
  }

  /**
   * The value tree of a parsed settings object. Splitting dotted keys into
   * nested objects is not modelled: the tree is the flat object itself.
   */
  function ValuesTree(raw: Raw): (t: Json)
    ensures t.Obj?
  {
    Obj(Fields(raw))
  }

  /**
   * Deep merge of `source` into `target`: where both hold an object the two
   * are merged key by key, anywhere else the source value replaces the
   * target value (scalars and arrays are never combined).
   */
  function MergeJson(target: Json, source: Json): (r: Json)
    ensures target.Obj? && source.Obj? ==>
      r.Obj? && r.fields.Keys == target.fields.Keys + source.fields.Keys
    ensures !(target.Obj? && source.Obj?) ==> r == source
  {
    if target.Obj? && source.Obj? then
      Obj(map k | k in target.fields.Keys + source.fields.Keys ::
        if k !in source.fields then target.fields[k]
        else if k in target.fields then MergeJson(target.fields[k], source.fields[k])
        else source.fields[k])
    else source
  }

  /** Merging into `{}` gives the source object back. */
  lemma MergeIntoEmpty(source: Json)
    ensures MergeJson(EmptyObject, source) == source
  {
    if source.Obj? {
      var r := MergeJson(EmptyObject, source);
      assert r.fields == source.fields;
    }
  }

  /** A key only one side holds keeps that side's value. */
  lemma MergeJsonOneSide(target: Json, source: Json, k: string)
    requires target.Obj? && source.Obj?
    requires k in target.fields || k in source.fields
    requires !(k in target.fields && k in source.fields)
    ensures MergeJson(target, source).fields[k] ==
      if k in source.fields then source.fields[k] else target.fields[k]
  {
  }
}
