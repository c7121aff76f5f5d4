/**
 * The per-folder configuration layer: a folder's settings filtered by the
 * schema registry, the standalone configuration files (tasks, launch) each
 * under its own top-level key, and the consolidated model that merges them.
 *
 * The registry is passed to every operation that consults it as
 * `props: ConfigurationProperties`.
 */
module ConfigurationModels {
  import opened Values
  import opened Schema
  import opened BaseModel

  datatype Option<T> = None | Some(value: T)

  /** The names of the standalone configuration files, in declaration order. */
  const WorkspaceStandaloneConfigurations: seq<string> := ["tasks", "launch"]

  // ---------------------------------------------------------------------------
  // Registry lookups

  /** A property may be set by folder settings unless its schema marks it executable. */
  function IsNotExecutable(key: string, props: ConfigurationProperties): (r: bool)
    ensures key !in props ==> r
    ensures key in props ==> (r <==> !props[key].isExecutable)
  {
    if key !in props then true  // properties nobody registered are not checked
    else !props[key].isExecutable
  }

  /** The registered scope of a property; an unregistered property counts as workspace-scoped. */
  function GetScope(key: string, props: ConfigurationProperties): (s: ConfigurationScope)
    ensures key !in props ==> s == Workspace
    ensures key in props ==> s == props[key].scope
  {
    if key in props then props[key].scope else Workspace
  }

  // ---------------------------------------------------------------------------
  // Selecting properties of a parsed settings object

  /** What a selection keeps: admitted properties, rejected ones, or those of one scope. */
  datatype Criterion = NotExecutable | Executable | InScope(scope: ConfigurationScope)

  predicate Meets(key: string, props: ConfigurationProperties, c: Criterion) {
    match c
    case NotExecutable => IsNotExecutable(key, props)
    case Executable => !IsNotExecutable(key, props)
    case InScope(s) => GetScope(key, props) == s
  }

  /** The properties of `raw` that meet `c`, in iteration order and with their values. */
  function Select(raw: Raw, props: ConfigurationProperties, c: Criterion): (r: Raw)
    ensures |r| <= |raw|
    decreases |raw|
  {
    if raw == [] then []
    else
      var front, last := raw[..|raw| - 1], raw[|raw| - 1];
      Select(front, props, c) + (if Meets(last.key, props, c) then [last] else [])
  }

  /** The properties the admission filter lets through. */
  function Admitted(raw: Raw, props: ConfigurationProperties): (admitted: Raw) {
    Select(raw, props, NotExecutable)
  }

  /** The keys the admission filter rejects, in iteration order. */
  function Unsupported(raw: Raw, props: ConfigurationProperties): (rejected: seq<string>) {
    PropertyKeys(Select(raw, props, Executable))
  }

  /** The model built from the properties of one scope, carrying `overrides` along. */
  function ScopedProjection(raw: Raw, overrides: seq<Override>, scope: ConfigurationScope,
                            props: ConfigurationProperties): (m: ConfigurationModel)
  {
    var selected := Select(raw, props, InScope(scope));
    ConfigurationModel(ValuesTree(selected), PropertyKeys(selected), overrides)
  }

  /** A selection keeps only properties of `raw`, unchanged, that meet its criterion. */
  lemma {:induction false} SelectSound(raw: Raw, props: ConfigurationProperties, c: Criterion, p: Property)
    requires p in Select(raw, props, c)
    ensures p in raw && Meets(p.key, props, c)
    decreases |raw|
  {
    var front, last := raw[..|raw| - 1], raw[|raw| - 1];
    assert raw == front + [last];
    if p in Select(front, props, c) {
      SelectSound(front, props, c, p);
    }
  }

  /** A selection misses no property that meets its criterion. */
  lemma {:induction false} SelectComplete(raw: Raw, props: ConfigurationProperties, c: Criterion, p: Property)
    requires p in raw && Meets(p.key, props, c)
    ensures p in Select(raw, props, c)
    decreases |raw|
  {
    var front := raw[..|raw| - 1];
    if p != raw[|raw| - 1] {
      assert raw == front + [raw[|raw| - 1]];
      SelectComplete(front, props, c, p);
    }
  }

  /** Selection keeps the iteration order: it distributes over concatenation. */
  lemma {:induction false} SelectAppend(a: Raw, b: Raw, props: ConfigurationProperties, c: Criterion)
    ensures Select(a + b, props, c) == Select(a, props, c) + Select(b, props, c)
    decreases |b|
  {
    if b == [] {
      assert a + b == a;
    } else {
      var front, last := b[..|b| - 1], b[|b| - 1];
      var ab := a + b;
      assert ab[..|ab| - 1] == a + front && ab[|ab| - 1] == last;
      var tail := if Meets(last.key, props, c) then [last] else [];
      SelectAppend(a, front, props, c);
      calc {
        Select(ab, props, c);
        Select(a + front, props, c) + tail;
        (Select(a, props, c) + Select(front, props, c)) + tail;
        { SeqAssoc(Select(a, props, c), Select(front, props, c), tail); }
        Select(a, props, c) + (Select(front, props, c) + tail);
        Select(a, props, c) + Select(b, props, c);
      }
    }
  }

  lemma SeqAssoc<T>(x: seq<T>, y: seq<T>, z: seq<T>)
    ensures (x + y) + z == x + (y + z)
  {
  }

  /** A key is selected exactly when some property carries it and the key meets the criterion. */
  lemma SelectKeys(raw: Raw, props: ConfigurationProperties, c: Criterion, k: string)
    ensures k in PropertyKeys(Select(raw, props, c)) <==> k in PropertyKeys(raw) && Meets(k, props, c)
  {
    PropertyKeysMembership(raw, k);
    PropertyKeysMembership(Select(raw, props, c), k);
    if k in PropertyKeys(raw) && Meets(k, props, c) {
      var p :| p in raw && p.key == k;
      SelectComplete(raw, props, c, p);
    }
    if k in PropertyKeys(Select(raw, props, c)) {
      var p :| p in Select(raw, props, c) && p.key == k;
      SelectSound(raw, props, c, p);
    }
  }

  // ---------------------------------------------------------------------------
  // Properties of the admission filter

  /**
   * Every property of the parsed settings ends up in exactly one place: the
   * admitted object or the unsupported keys.
   */
  lemma {:induction false} AdmissionPartition(raw: Raw, props: ConfigurationProperties)
    ensures multiset(Admitted(raw, props)) + multiset(Select(raw, props, Executable)) == multiset(raw)
    ensures |Admitted(raw, props)| + |Unsupported(raw, props)| == |raw|
    decreases |raw|
  {
    if raw != [] {
      var front, last := raw[..|raw| - 1], raw[|raw| - 1];
      assert raw == front + [last];
      AdmissionPartition(front, props);
    }
  }

  /**
   * A key is rejected exactly when the registry has a schema for it that is
   * marked executable; a key the registry does not know is always admitted.
   */
  lemma UnsupportedExactlyExecutable(raw: Raw, props: ConfigurationProperties, k: string)
    ensures k in Unsupported(raw, props) <==> k in PropertyKeys(raw) && k in props && props[k].isExecutable
    ensures k in PropertyKeys(Admitted(raw, props)) <==>
      k in PropertyKeys(raw) && (k !in props || !props[k].isExecutable)
    ensures k in PropertyKeys(raw) && k !in props ==>
      k in PropertyKeys(Admitted(raw, props)) && k !in Unsupported(raw, props)
  {
    SelectKeys(raw, props, Executable, k);
    SelectKeys(raw, props, NotExecutable, k);
  }

  /** No key is both among the filtered model's keys and among the unsupported keys. */
  lemma AdmittedDisjointFromUnsupported(raw: Raw, props: ConfigurationProperties, k: string)
    ensures !(k in BaseModel.ProcessRaw(Admitted(raw, props)).keys && k in Unsupported(raw, props))
  {
    UnsupportedExactlyExecutable(raw, props, k);
  }

  /** Admitted properties keep their values, and come in the order of the parsed settings. */
  lemma AdmittedKeepsValuesAndOrder(raw: Raw, props: ConfigurationProperties, i: nat)
    requires i <= |raw|
    ensures forall p :: p in Admitted(raw, props) ==> p in raw
    ensures Admitted(raw, props) == Admitted(raw[..i], props) + Admitted(raw[i..], props)
    ensures Unsupported(raw, props) == Unsupported(raw[..i], props) + Unsupported(raw[i..], props)
  {
    forall p | p in Admitted(raw, props) ensures p in raw {
      SelectSound(raw, props, NotExecutable, p);
    }
    assert raw == raw[..i] + raw[i..];
    SelectAppend(raw[..i], raw[i..], props, NotExecutable);
    SelectAppend(raw[..i], raw[i..], props, Executable);
    PropertyKeysAppend(Select(raw[..i], props, Executable), Select(raw[i..], props, Executable));
  }

  // ---------------------------------------------------------------------------
  // Properties of the scope projections

  /**
   * A projection keeps exactly the keys whose scope is the requested one, a
   * key without a schema counting as workspace-scoped.
   */
  lemma ProjectionMembership(raw: Raw, overrides: seq<Override>, scope: ConfigurationScope,
                             props: ConfigurationProperties, k: string)
    ensures k in ScopedProjection(raw, overrides, scope, props).keys <==>
      k in PropertyKeys(raw) && (if k in props then props[k].scope == scope else scope == Workspace)
    ensures ScopedProjection(raw, overrides, scope, props).overrides == overrides
  {
    SelectKeys(raw, props, InScope(scope), k);
  }

  /**
   * The workspace and folder projections share no key, and a key without a
   * schema appears in the workspace projection only.
   */
  lemma ProjectionsDisjoint(raw: Raw, overrides: seq<Override>, props: ConfigurationProperties, k: string)
    ensures !(k in ScopedProjection(raw, overrides, Workspace, props).keys &&
              k in ScopedProjection(raw, overrides, Folder, props).keys)
    ensures k in PropertyKeys(raw) && k !in props ==>
      k in ScopedProjection(raw, overrides, Workspace, props).keys &&
      k !in ScopedProjection(raw, overrides, Folder, props).keys
  {
    ProjectionMembership(raw, overrides, Workspace, props, k);
    ProjectionMembership(raw, overrides, Folder, props, k);
  }

  /**
   * The projections read the parsed settings before admission filtering: a
   * rejected executable key of the requested scope is still projected.
   */
  lemma ProjectionIgnoresAdmission(raw: Raw, overrides: seq<Override>, props: ConfigurationProperties, k: string)
    requires k in PropertyKeys(raw) && k in props && props[k].isExecutable
    ensures k in Unsupported(raw, props)
    ensures k in ScopedProjection(raw, overrides, props[k].scope, props).keys
  {
    UnsupportedExactlyExecutable(raw, props, k);
    ProjectionMembership(raw, overrides, props[k].scope, props, k);
  }

  // ---------------------------------------------------------------------------
  // Merging layers

  /** The contents after merging the first `n` layers, in order, into `{}`. */
  function MergedContents(layers: seq<ConfigurationModel>, n: nat): (merged: Json)
    requires n <= |layers|
  {
    if n == 0 then EmptyObject
    else MergeJson(MergedContents(layers, n - 1), layers[n - 1].contents)
  }

  /** The overrides after merging the first `n` layers, in order, into `[]`. */
  function MergedOverrides(layers: seq<ConfigurationModel>, n: nat): (merged: seq<Override>)
    requires n <= |layers|
  {
    if n == 0 then []
    else MergedOverrides(layers, n - 1) + layers[n - 1].overrides
  }

  /**
   * Overrides accumulate: merging never drops or combines sections, and the
   * sections of the first `m` layers come before those of the later ones.
   */
  lemma {:induction false} MergedOverridesBlocks(layers: seq<ConfigurationModel>, m: nat, n: nat)
    requires m <= n <= |layers|
    ensures MergedOverrides(layers, n) == MergedOverrides(layers, m) + MergedOverrides(layers[m..], n - m)
  {
    if n > m {
      MergedOverridesBlocks(layers, m, n - 1);
      assert layers[m..][n - m - 1] == layers[n - 1];
    }
  }

  /** The merged contents hold exactly the top-level keys of the merged layers. */
  lemma {:induction false} MergedContentsKeys(layers: seq<ConfigurationModel>, n: nat, k: string)
    requires n <= |layers|
    requires forall i :: 0 <= i < n ==> layers[i].contents.Obj?
    ensures MergedContents(layers, n).Obj?
    ensures k in MergedContents(layers, n).fields <==> exists i :: 0 <= i < n && k in layers[i].contents.fields
  {
    if n > 0 {
      MergedContentsKeys(layers, n - 1, k);
    }
  }

  /** A top-level key only one merged layer holds keeps that layer's value. */
  lemma {:induction false} MergedContentsOwned(layers: seq<ConfigurationModel>, n: nat, j: nat, k: string)
    requires n <= |layers|
    requires forall i :: 0 <= i < n ==> layers[i].contents.Obj?
    requires j < n && k in layers[j].contents.fields
    requires forall i :: 0 <= i < n && i != j ==> k !in layers[i].contents.fields
    ensures MergedContents(layers, n).Obj? && k in MergedContents(layers, n).fields
    ensures MergedContents(layers, n).fields[k] == layers[j].contents.fields[k]
  {
    MergedContentsKeys(layers, n - 1, k);
    if j < n - 1 {
      MergedContentsOwned(layers, n - 1, j, k);
    }
    MergeJsonOneSide(MergedContents(layers, n - 1), layers[n - 1].contents, k);
  }

  /** On a collision, a later layer's non-object value replaces what earlier layers set. */
  lemma MergedContentsLastWins(layers: seq<ConfigurationModel>, n: nat, k: string)
    requires 0 < n <= |layers| && forall i :: 0 <= i < n ==> layers[i].contents.Obj?
    requires k in layers[n - 1].contents.fields && !layers[n - 1].contents.fields[k].Obj?
    ensures MergedContents(layers, n).Obj?
    ensures MergedContents(layers, n).fields[k] == layers[n - 1].contents.fields[k]
  {
    MergedContentsKeys(layers, n - 1, k);
  }

  // ---------------------------------------------------------------------------
  // Keys of the consolidated model

  /** The key `<tag>.<key>` under which a scoped model's key is listed. */
  function Qualified(tag: string, key: string): (qualified: string) {
    tag + "." + key
  }

  /** `keys.map(key => `${tag}.${key}`)`. */
  function Prefixed(tag: string, keys: seq<string>): (r: seq<string>)
    ensures |r| == |keys|
  {
    seq(|keys|, i requires 0 <= i < |keys| => Qualified(tag, keys[i]))
  }

  /**
   * The keys one scoped model contributes while its tag is compared with the
   * first `n` names of `allowList`.
   */
  function AllowListedKeys(tag: string, keys: seq<string>, allowList: seq<string>, n: nat): (ks: seq<string>)
    requires n <= |allowList|
  {
    if n == 0 then []
    else
      AllowListedKeys(tag, keys, allowList, n - 1) +
        (if tag == allowList[n - 1] then Prefixed(tag, keys) else [])
  }

  /**
   * Against a list of distinct names, a scoped model contributes its prefixed
   * keys once if its tag is listed, and nothing otherwise.
   */
  lemma {:induction false} AllowListedKeysOnce(tag: string, keys: seq<string>, allowList: seq<string>, n: nat)
    requires n <= |allowList|
    requires forall i, j :: 0 <= i < j < |allowList| ==> allowList[i] != allowList[j]
    ensures AllowListedKeys(tag, keys, allowList, n) ==
      if exists i :: 0 <= i < n && allowList[i] == tag then Prefixed(tag, keys) else []
  {
    if n > 0 {
      AllowListedKeysOnce(tag, keys, allowList, n - 1);
      if tag == allowList[n - 1] {
        assert !exists i :: 0 <= i < n - 1 && allowList[i] == tag;
      }
    }
  }

  /** The standalone names are distinct, so each scoped model is matched at most once. */
  lemma StandaloneKeysOnce(tag: string, keys: seq<string>)
    ensures AllowListedKeys(tag, keys, WorkspaceStandaloneConfigurations, |WorkspaceStandaloneConfigurations|) ==
      if tag in WorkspaceStandaloneConfigurations then Prefixed(tag, keys) else []
  {
    var names := WorkspaceStandaloneConfigurations;
    AllowListedKeysOnce(tag, keys, names, |names|);
    assert (tag in names) <==> exists i :: 0 <= i < |names| && names[i] == tag;
  }

  /** The prefixed keys the first `n` scoped models contribute, model after model. */
  function StandaloneKeys(configs: seq<ScopedConfigurationModel>, n: nat): (ks: seq<string>)
    requires n <= |configs|
    reads configs
  {
    if n == 0 then []
    else
      StandaloneKeys(configs, n - 1) +
        AllowListedKeys(configs[n - 1].scope, configs[n - 1].keys,
                        WorkspaceStandaloneConfigurations, |WorkspaceStandaloneConfigurations|)
  }

  /** `k` is `<tag>.<key>` for one of the keys of `c`, whose tag is a standalone name. */
  predicate Contributes(c: ScopedConfigurationModel, k: string)
    reads c
  {
    c.scope in WorkspaceStandaloneConfigurations &&
    exists j :: 0 <= j < |c.keys| && k == Qualified(c.scope, c.keys[j])
  }

  /** The keys one scoped model contributes are exactly the ones `Contributes` names. */
  lemma OwnKeysMembership(c: ScopedConfigurationModel, k: string)
    ensures var own := AllowListedKeys(c.scope, c.keys, WorkspaceStandaloneConfigurations,
                                       |WorkspaceStandaloneConfigurations|);
      k in own <==> Contributes(c, k)
  {
    StandaloneKeysOnce(c.scope, c.keys);
    var own := Prefixed(c.scope, c.keys);
    if c.scope in WorkspaceStandaloneConfigurations && k in own {
      var j :| 0 <= j < |own| && own[j] == k;
      assert k == Qualified(c.scope, c.keys[j]);
    }
    if Contributes(c, k) {
      var j :| 0 <= j < |c.keys| && k == Qualified(c.scope, c.keys[j]);
      assert own[j] == k;
    }
  }

  /**
   * A key is contributed by the first `n` scoped models exactly when one of
   * them contributes it: it is `<tag>.<key>` for a model whose tag is a
   * standalone name and one of that model's keys.
   */
  lemma {:induction false} StandaloneKeysMembership(configs: seq<ScopedConfigurationModel>, n: nat, k: string)
    requires n <= |configs|
    ensures k in StandaloneKeys(configs, n) <==> exists i :: 0 <= i < n && Contributes(configs[i], k)
  {
    if n > 0 {
      StandaloneKeysMembership(configs, n - 1, k);
      OwnKeysMembership(configs[n - 1], k);
      if exists i :: 0 <= i < n && Contributes(configs[i], k) {
        var i :| 0 <= i < n && Contributes(configs[i], k);
        if i < n - 1 {
          assert exists i :: 0 <= i < n - 1 && Contributes(configs[i], k);
        }
      }
    }
  }

  /** The current models of the scoped configurations, in order. */
  function Models(configs: seq<ScopedConfigurationModel>): (ms: seq<ConfigurationModel>)
    reads configs
    ensures |ms| == |configs|
    decreases |configs|
  {
    if configs == [] then []
    else Models(configs[..|configs| - 1]) + [configs[|configs| - 1].Model()]
  }

  lemma {:induction false} ModelsAt(configs: seq<ScopedConfigurationModel>, i: nat)
    requires i < |configs|
    ensures Models(configs)[i] == configs[i].Model()
    decreases |configs|
  {
    if i < |configs| - 1 {
      ModelsAt(configs[..|configs| - 1], i);
    }
  }

  /** A sequence holding each scoped configuration's current model, in order, is `Models`. */
  lemma {:induction false} ModelsOf(configs: seq<ScopedConfigurationModel>, ms: seq<ConfigurationModel>)
    requires |ms| == |configs|
    requires forall i :: 0 <= i < |configs| ==> ms[i] == configs[i].Model()
    ensures Models(configs) == ms
    decreases |configs|
  {
    if configs != [] {
      ModelsOf(configs[..|configs| - 1], ms[..|ms| - 1]);
      assert ms == ms[..|ms| - 1] + [ms[|ms| - 1]];
    }
  }

  // ---------------------------------------------------------------------------
  // The three models

  /** A standalone configuration file whose whole contents sit under its scope tag. */
  class ScopedConfigurationModel {
    const name: string
    const scope: string
    var contents: Json
    var keys: seq<string>
    var overrides: seq<Override>

    function Model(): (m: ConfigurationModel)
      reads this
    {
      ConfigurationModel(contents, keys, overrides)
    }

    /** The contents have exactly one top-level key: the scope tag. */
    ghost predicate Valid()
      reads this
    {
      contents.Obj? && contents.fields.Keys == {scope}
    }

    constructor (parsed: Raw, name: string, scope: string)
      ensures this.name == name && this.scope == scope
      ensures Valid() && contents.fields[scope] == ValuesTree(parsed)
      ensures keys == PropertyKeys(parsed) && overrides == OverridesOf(parsed)
    {
      this.name := name;
      this.scope := scope;
      contents, keys, overrides := EmptyObject, [], [];
      new;
      Update(parsed);
    }

    /** The base update, then the contents wrapped under the scope tag. */
    method Update(parsed: Raw)
      modifies this
      ensures Valid() && contents.fields[scope] == ValuesTree(parsed)
      ensures keys == PropertyKeys(parsed) && overrides == OverridesOf(parsed)
    {
      var m := BaseModel.ProcessRaw(parsed);
      contents, keys, overrides := m.contents, m.keys, m.overrides;
      var wrapped := map[scope := contents];
      contents := Obj(wrapped);
    }
  }

  /** A folder's settings file, filtered by the registry's executable flag. */
  class FolderSettingsModel {
    /** The last parsed settings, before filtering; an unset snapshot iterates like `{}`. */
    var raw: Raw
    /** The keys the last filtering rejected; `None` until the settings are first processed. */
    var unsupportedKeys: Option<seq<string>>
    var contents: Json
    var keys: seq<string>
    var overrides: seq<Override>
    /** The registry the last filtering consulted. */
    ghost var schemas: ConfigurationProperties

    function Model(): (m: ConfigurationModel)
      reads this
    {
      ConfigurationModel(contents, keys, overrides)
    }

    /** The model is the admitted part of the snapshot, the unsupported keys the rejected part. */
    ghost predicate Valid()
      reads this
    {
      && (unsupportedKeys.None? ==> raw == [])
      && (unsupportedKeys.Some? ==> unsupportedKeys.value == Unsupported(raw, schemas))
      && Model() == BaseModel.ProcessRaw(Admitted(raw, schemas))
    }

    /** `parsed` is `None` when the settings text is empty, and then nothing is processed. */
    constructor (parsed: Option<Raw>, props: ConfigurationProperties)
      ensures Valid()
      ensures parsed.None? ==> raw == [] && unsupportedKeys == None && Model() == EmptyModel
      ensures parsed.Some? ==>
        raw == parsed.value && schemas == props && unsupportedKeys == Some(Unsupported(raw, props))
    {
      raw := [];
      unsupportedKeys := None;
      contents, keys, overrides := EmptyObject, [], [];
      schemas := props;
      new;
      if parsed.Some? {
        ProcessRaw(parsed.value, props);
      }
    }

    /** Keep the snapshot, then build the model from the admitted properties only. */
    method ProcessRaw(raw: Raw, props: ConfigurationProperties)
      modifies this
      ensures Valid()
      ensures this.raw == raw && schemas == props
      ensures unsupportedKeys == Some(Unsupported(raw, props))
      ensures Model() == BaseModel.ProcessRaw(Admitted(raw, props))
    {
      this.raw := raw;
      var processedRaw: Raw := [];
      unsupportedKeys := Some([]);
      var i := 0;
      while i < |raw|
        invariant 0 <= i <= |raw|
        invariant this.raw == raw
        invariant processedRaw == Admitted(raw[..i], props)
        invariant unsupportedKeys == Some(Unsupported(raw[..i], props))
      {
        assert raw[..i + 1][..i] == raw[..i];
        var key := raw[i].key;
        assert Select(raw[..i + 1], props, Executable) ==
          Select(raw[..i], props, Executable) + (if IsNotExecutable(key, props) then [] else [raw[i]]);
        if IsNotExecutable(key, props) {
          assert Select(raw[..i + 1], props, Executable) == Select(raw[..i], props, Executable);
          processedRaw := processedRaw + [raw[i]];
        } else {
          PropertyKeysAppend(Select(raw[..i], props, Executable), [raw[i]]);
          assert PropertyKeys([raw[i]]) == [key];
          unsupportedKeys := Some(unsupportedKeys.value + [key]);
        }
        i := i + 1;
      }
      assert raw[..|raw|] == raw;
      var m := BaseModel.ProcessRaw(processedRaw);
      contents, keys, overrides := m.contents, m.keys, m.overrides;
      schemas := props;
    }

    /** Filter the stored snapshot again against the current registry, without parsing. */
    method Reprocess(props: ConfigurationProperties)
      modifies this
      ensures Valid()
      ensures raw == old(raw) && schemas == props
      ensures unsupportedKeys == Some(Unsupported(raw, props))
      ensures Model() == BaseModel.ProcessRaw(Admitted(raw, props))
    {
      ProcessRaw(raw, props);
    }

    /** The rejected keys of the snapshot: those the registry marks executable. */
    function UnsupportedKeys(): (ks: seq<string>)
      reads this
      ensures Valid() ==> ks == Unsupported(raw, schemas)
      ensures Valid() ==>
        forall k :: k in ks <==> k in PropertyKeys(raw) && k in schemas && schemas[k].isExecutable
    {
      UnsupportedExactlyExecutableAll(raw, schemas);
      if unsupportedKeys.Some? then unsupportedKeys.value else []
    }

    method CreateWorkspaceConfigurationModel(props: ConfigurationProperties) returns (m: ConfigurationModel)
      ensures m == ScopedProjection(raw, overrides, Workspace, props)
      ensures forall k :: k in m.keys <==> k in PropertyKeys(raw) && (k !in props || props[k].scope == Workspace)
    {
      m := CreateScopedConfigurationModel(Workspace, props);
    }

    method CreateFolderScopedConfigurationModel(props: ConfigurationProperties) returns (m: ConfigurationModel)
      ensures m == ScopedProjection(raw, overrides, Folder, props)
      ensures forall k :: k in m.keys <==> k in PropertyKeys(raw) && k in props && props[k].scope == Folder
    {
      m := CreateScopedConfigurationModel(Folder, props);
    }

    /** The model of the snapshot's properties of one scope, with this model's overrides. */
    method CreateScopedConfigurationModel(scope: ConfigurationScope, props: ConfigurationProperties)
      returns (m: ConfigurationModel)
      ensures m == ScopedProjection(raw, overrides, scope, props)
      ensures forall k :: k in m.keys <==> k in PropertyKeys(raw) && GetScope(k, props) == scope
    {
      var workspaceRaw: Raw := [];
      var i := 0;
      while i < |raw|
        invariant 0 <= i <= |raw|
        invariant workspaceRaw == Select(raw[..i], props, InScope(scope))
      {
        assert raw[..i + 1][..i] == raw[..i];
        if GetScope(raw[i].key, props) == scope {
          workspaceRaw := workspaceRaw + [raw[i]];
        }
        i := i + 1;
      }
      assert raw[..|raw|] == raw;
      m := ConfigurationModel(ValuesTree(workspaceRaw), PropertyKeys(workspaceRaw), overrides);
      forall k
        ensures k in m.keys <==> k in PropertyKeys(raw) && GetScope(k, props) == scope
      {
        SelectKeys(raw, props, InScope(scope), k);
      }
    }
  }

  lemma UnsupportedExactlyExecutableAll(raw: Raw, props: ConfigurationProperties)
    ensures forall k :: k in Unsupported(raw, props) <==>
      k in PropertyKeys(raw) && k in props && props[k].isExecutable
  {
    forall k
      ensures k in Unsupported(raw, props) <==> k in PropertyKeys(raw) && k in props && props[k].isExecutable
    {
      UnsupportedExactlyExecutable(raw, props, k);
    }
  }

  /** The consolidated configuration of one folder. */
  class FolderConfigurationModel {
    const workspaceSettingsConfig: FolderSettingsModel
    const scopedConfigs: seq<ScopedConfigurationModel>
    /** Workspace: the settings model is the base layer; Folder: its folder-scoped projection is. */
    const scope: ConfigurationScope
    var contents: Json
    var overrides: seq<Override>

    /** The first layer consolidation merges. */
    function BaseLayer(props: ConfigurationProperties): (base: ConfigurationModel)
      reads workspaceSettingsConfig
    {
      if scope == Workspace then workspaceSettingsConfig.Model()
      else ScopedProjection(workspaceSettingsConfig.raw, workspaceSettingsConfig.overrides, Folder, props)
    }

    /** Every layer consolidation merges, in merge order. */
    function Layers(props: ConfigurationProperties): (ls: seq<ConfigurationModel>)
      reads workspaceSettingsConfig, scopedConfigs
    {
      [BaseLayer(props)] + Models(scopedConfigs)
    }

    /**
     * Outside a workspace folder the base layer is the folder projection of the
     * unfiltered snapshot: a folder-scoped key the filter rejects as executable
     * is still among the keys of the first layer consolidation merges.
     */
    lemma FolderBaseLayerKeepsRejected(props: ConfigurationProperties, k: string)
      requires scope != Workspace
      requires k in PropertyKeys(workspaceSettingsConfig.raw)
      requires k in props && props[k].isExecutable && props[k].scope == Folder
      ensures k in Unsupported(workspaceSettingsConfig.raw, props)
      ensures k in Layers(props)[0].keys
    {
      ProjectionIgnoresAdmission(workspaceSettingsConfig.raw, workspaceSettingsConfig.overrides, props, k);
    }

    /**
     * Outside a workspace folder the keys and the contents disagree: an admitted
     * settings key that is not folder-scoped (unregistered, or of another scope)
     * is listed by `keys`, yet the base layer consolidation merges does not hold it.
     */
    lemma FolderKeysBeyondBaseLayer(props: ConfigurationProperties, k: string)
      requires scope != Workspace
      requires workspaceSettingsConfig.Valid() && workspaceSettingsConfig.schemas == props
      requires k in PropertyKeys(workspaceSettingsConfig.raw)
      requires IsNotExecutable(k, props) && GetScope(k, props) != Folder
      ensures k in workspaceSettingsConfig.keys
      ensures k !in Layers(props)[0].keys
    {
      UnsupportedExactlyExecutable(workspaceSettingsConfig.raw, props, k);
      ProjectionMembership(workspaceSettingsConfig.raw, workspaceSettingsConfig.overrides, Folder, props, k);
    }

    constructor (workspaceSettingsConfig: FolderSettingsModel, scopedConfigs: seq<ScopedConfigurationModel>,
                 scope: ConfigurationScope, props: ConfigurationProperties)
      ensures this.workspaceSettingsConfig == workspaceSettingsConfig
      ensures this.scopedConfigs == scopedConfigs && this.scope == scope
      ensures contents == MergedContents(Layers(props), |Layers(props)|)
      ensures overrides == MergedOverrides(Layers(props), |Layers(props)|)
    {
      this.workspaceSettingsConfig := workspaceSettingsConfig;
      this.scopedConfigs := scopedConfigs;
      this.scope := scope;
      contents, overrides := EmptyObject, [];
      new;
      Consolidate(props);
    }

    /** `doMerge(this, source)`: deep-merge the contents, append the overrides. */
    method DoMerge(source: ConfigurationModel)
      modifies this
      ensures contents == MergeJson(old(contents), source.contents)
      ensures overrides == old(overrides) + source.overrides
    {
      contents := MergeJson(contents, source.contents);
      overrides := overrides + source.overrides;
    }

    /**
     * Start from empty contents and overrides, merge the base layer, then
     * every scoped model in order. Nothing of the previous state survives.
     */
    method Consolidate(props: ConfigurationProperties)
      modifies this
      ensures contents == MergedContents(Layers(props), |Layers(props)|)
      ensures overrides == MergedOverrides(Layers(props), |Layers(props)|)
    {
      ghost var layers := Layers(props);
      forall j | 0 <= j < |scopedConfigs|
        ensures layers[j + 1] == scopedConfigs[j].Model()
      {
        ModelsAt(scopedConfigs, j);
      }
      contents := EmptyObject;
      overrides := [];
      var base: ConfigurationModel;
      if Workspace == scope {
        base := workspaceSettingsConfig.Model();
      } else {
        base := workspaceSettingsConfig.CreateFolderScopedConfigurationModel(props);
      }
      DoMerge(base);
      var i := 0;
      while i < |scopedConfigs|
        invariant 0 <= i <= |scopedConfigs|
        invariant contents == MergedContents(layers, i + 1)
        invariant overrides == MergedOverrides(layers, i + 1)
      {
        var source := scopedConfigs[i].Model();
        assert source == old(scopedConfigs[i].Model()) == layers[i + 1];
        DoMerge(source);
        i := i + 1;
      }
      forall j | 0 <= j < |scopedConfigs|
        ensures layers[1..][j] == scopedConfigs[j].Model()
      {
        assert scopedConfigs[j].Model() == old(scopedConfigs[j].Model());
      }
      ModelsOf(scopedConfigs, layers[1..]);
      assert BaseLayer(props) == layers[0];
      assert layers == [layers[0]] + layers[1..];
    }

    /**
     * The settings model's keys, then `<tag>.<key>` for every key of every
     * scoped model whose tag is a standalone configuration name.
     */
    method Keys() returns (ks: seq<string>)
      ensures ks == workspaceSettingsConfig.keys + StandaloneKeys(scopedConfigs, |scopedConfigs|)
    {
      ks := workspaceSettingsConfig.keys;
      var i := 0;
      while i < |scopedConfigs|
        invariant 0 <= i <= |scopedConfigs|
        invariant ks == workspaceSettingsConfig.keys + StandaloneKeys(scopedConfigs, i)
      {
        var scopedConfigModel := scopedConfigs[i];
        ghost var before := ks;
        var j := 0;
        while j < |WorkspaceStandaloneConfigurations|
          invariant 0 <= j <= |WorkspaceStandaloneConfigurations|
          invariant ks == before + AllowListedKeys(scopedConfigModel.scope, scopedConfigModel.keys,
                                                   WorkspaceStandaloneConfigurations, j)
        {
          var scope := WorkspaceStandaloneConfigurations[j];
          if scopedConfigModel.scope == scope {
            SeqAssoc(before, AllowListedKeys(scopedConfigModel.scope, scopedConfigModel.keys,
                                             WorkspaceStandaloneConfigurations, j),
                     Prefixed(scope, scopedConfigModel.keys));
            ks := ks + Prefixed(scope, scopedConfigModel.keys);
          }
          j := j + 1;
        }
        SeqAssoc(workspaceSettingsConfig.keys, StandaloneKeys(scopedConfigs, i),
                 AllowListedKeys(scopedConfigModel.scope, scopedConfigModel.keys,
                                 WorkspaceStandaloneConfigurations, |WorkspaceStandaloneConfigurations|));
        i := i + 1;
      }
    }

    /** Filter the settings again against the current registry, then consolidate. */
    method Update(props: ConfigurationProperties)
      modifies this, workspaceSettingsConfig
      ensures workspaceSettingsConfig.Valid() && workspaceSettingsConfig.schemas == props
      ensures workspaceSettingsConfig.raw == old(workspaceSettingsConfig.raw)
      ensures workspaceSettingsConfig.Model() == BaseModel.ProcessRaw(Admitted(workspaceSettingsConfig.raw, props))
      ensures contents == MergedContents(Layers(props), |Layers(props)|)
      ensures overrides == MergedOverrides(Layers(props), |Layers(props)|)
    {
      workspaceSettingsConfig.Reprocess(props);
      Consolidate(props);
    }
  }
}
