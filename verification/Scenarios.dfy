/**
 * Worked examples of the folder models on small inputs, each with its exact
 * outcome.
 */
module Scenarios {
  import opened Values
  import opened Schema
  import opened BaseModel
  import opened ConfigurationModels

  lemma SelectOne(p: Property, props: ConfigurationProperties, c: Criterion)
    ensures Select([p], props, c) == if Meets(p.key, props, c) then [p] else []
  {
    assert [p][..0] == [];
  }

  lemma OneProperty(p: Property)
    ensures Fields([p]) == map[p.key := p.value]
    ensures PropertyKeys([p]) == [p.key]
  {
    assert [p][..0] == [];
  }

  lemma TwoProperties(p: Property, q: Property)
    requires p.key != q.key
    ensures Fields([p, q]) == map[p.key := p.value, q.key := q.value]
    ensures PropertyKeys([p, q]) == [p.key, q.key]
  {
    assert [p, q][..1] == [p];
    OneProperty(p);
  }

  /** A tasks file `{"a": 1}` is namespaced under `tasks`, while its keys stay unqualified. */
  method Namespacing() returns (contents: Json, keys: seq<string>)
    ensures contents == Obj(map["tasks" := Obj(map["a" := Num(1)])])
    ensures keys == ["a"]
  {
    var parsed := [Property("a", Num(1))];
    var tasks := new ScopedConfigurationModel(parsed, "tasks", "tasks");
    assert Fields(parsed) == map["a" := Num(1)];
    assert PropertyKeys(parsed) == ["a"];
    contents, keys := tasks.contents, tasks.keys;
    assert contents.fields == map["tasks" := Obj(map["a" := Num(1)])];
  }

  /**
   * A key nobody registered is admitted; once the registry marks it executable,
   * reprocessing the same snapshot rejects it and drops it from the model.
   */
  method ReactiveAdmission() returns (before: seq<string>, after: seq<string>,
                                      keptBefore: bool, keptAfter: bool)
    ensures before == [] && keptBefore
    ensures after == ["foo.bar"] && !keptAfter
  {
    var parsed := [Property("foo.bar", Num(1))];
    var unknown: ConfigurationProperties := map[];
    var executable: ConfigurationProperties := map["foo.bar" := PropertySchema(Window, true)];
    SelectOne(parsed[0], unknown, Executable);
    SelectOne(parsed[0], unknown, NotExecutable);
    SelectOne(parsed[0], executable, Executable);
    SelectOne(parsed[0], executable, NotExecutable);
    OneProperty(parsed[0]);
    var settings := new FolderSettingsModel(Some(parsed), unknown);
    before := settings.UnsupportedKeys();
    keptBefore := "foo.bar" in settings.keys;
    settings.Reprocess(executable);
    after := settings.UnsupportedKeys();
    keptAfter := "foo.bar" in settings.keys;
  }

  /**
   * Reprocessing twice against an unchanged registry leaves the same model
   * and the same unsupported keys as reprocessing once.
   */
  method ReprocessIsIdempotent(settings: FolderSettingsModel, props: ConfigurationProperties)
    returns (once: ConfigurationModel, onceUnsupported: seq<string>)
    modifies settings
    ensures settings.Valid() && settings.raw == old(settings.raw)
    ensures settings.Model() == once && settings.UnsupportedKeys() == onceUnsupported
  {
    settings.Reprocess(props);
    once, onceUnsupported := settings.Model(), settings.UnsupportedKeys();
    settings.Reprocess(props);
  }

  /**
   * Settings `{"x": 1, "y": 1}` consolidated with a tasks file `{"z": 2}`: the
   * tasks contents sit beside the settings.
   */
  method ConsolidatedContents() returns (contents: Json)
    ensures contents == Obj(map["x" := Num(1), "y" := Num(1), "tasks" := Obj(map["z" := Num(2)])])
  {
    var props: ConfigurationProperties := map[];
    var settingsRaw := [Property("x", Num(1)), Property("y", Num(1))];
    var settings := new FolderSettingsModel(Some(settingsRaw), props);
    assert settings.contents == Obj(map["x" := Num(1), "y" := Num(1)]) by {
      SettingsExample(settingsRaw, props);
    }
    var tasks := new ScopedConfigurationModel([Property("z", Num(2))], "tasks", "tasks");
    assert tasks.contents == Obj(map["tasks" := Obj(map["z" := Num(2)])]) by {
      TasksExample(tasks);
    }
    var folder := new FolderConfigurationModel(settings, [tasks], Workspace, props);
    FolderExample(folder, props);
    contents := folder.contents;
  }

  /** The same folder lists the settings keys, then the tasks key qualified by its tag. */
  method ConsolidatedKeys() returns (keys: seq<string>)
    ensures keys == ["x", "y", "tasks.z"]
  {
    var props: ConfigurationProperties := map[];
    var settingsRaw := [Property("x", Num(1)), Property("y", Num(1))];
    var settings := new FolderSettingsModel(Some(settingsRaw), props);
    assert settings.keys == ["x", "y"] by {
      SettingsExample(settingsRaw, props);
    }
    var tasks := new ScopedConfigurationModel([Property("z", Num(2))], "tasks", "tasks");
    assert tasks.keys == ["z"] by {
      OneProperty(Property("z", Num(2)));
    }
    var folder := new FolderConfigurationModel(settings, [tasks], Workspace, props);
    FolderKeysExample(folder);
    keys := folder.Keys();
  }

  /** The settings `{"x": 1, "y": 1}` pass the filter whole when nothing is registered. */
  lemma SettingsExample(settingsRaw: Raw, props: ConfigurationProperties)
    requires settingsRaw == [Property("x", Num(1)), Property("y", Num(1))] && props == map[]
    ensures BaseModel.ProcessRaw(Admitted(settingsRaw, props)).contents == Obj(map["x" := Num(1), "y" := Num(1)])
    ensures BaseModel.ProcessRaw(Admitted(settingsRaw, props)).keys == ["x", "y"]
  {
    var x, y := settingsRaw[0], settingsRaw[1];
    SelectOne(x, props, NotExecutable);
    SelectOne(y, props, NotExecutable);
    SelectAppend([x], [y], props, NotExecutable);
    assert [x] + [y] == settingsRaw;
    TwoProperties(x, y);
  }

  /** The tasks file `{"z": 2}` as a scoped model. */
  lemma TasksExample(tasks: ScopedConfigurationModel)
    requires tasks.scope == "tasks" && tasks.Valid()
    requires tasks.contents.fields["tasks"] == ValuesTree([Property("z", Num(2))])
    requires tasks.keys == PropertyKeys([Property("z", Num(2))])
    ensures tasks.contents == Obj(map["tasks" := Obj(map["z" := Num(2)])]) && tasks.keys == ["z"]
  {
    OneProperty(Property("z", Num(2)));
    assert tasks.contents.fields == map["tasks" := Obj(map["z" := Num(2)])];
  }

  /** Merging the two example layers into `{}`. */
  lemma MergedExample(settings: ConfigurationModel, tasks: ConfigurationModel)
    requires settings.contents == Obj(map["x" := Num(1), "y" := Num(1)])
    requires tasks.contents == Obj(map["tasks" := Obj(map["z" := Num(2)])])
    ensures MergedContents([settings, tasks], 2) ==
      Obj(map["x" := Num(1), "y" := Num(1), "tasks" := Obj(map["z" := Num(2)])])
  {
    TwoLayers(settings, tasks);
    MergeIntoEmpty(settings.contents);
    MergeDisjoint(settings.contents, tasks.contents);
    assert settings.contents.fields + tasks.contents.fields ==
      map["x" := Num(1), "y" := Num(1), "tasks" := Obj(map["z" := Num(2)])];
  }

  /** A workspace folder with one scoped model consolidates the two example layers. */
  lemma FolderExample(folder: FolderConfigurationModel, props: ConfigurationProperties)
    requires folder.scope == Workspace && |folder.scopedConfigs| == 1
    requires folder.workspaceSettingsConfig.contents == Obj(map["x" := Num(1), "y" := Num(1)])
    requires folder.scopedConfigs[0].contents == Obj(map["tasks" := Obj(map["z" := Num(2)])])
    ensures MergedContents(folder.Layers(props), |folder.Layers(props)|) ==
      Obj(map["x" := Num(1), "y" := Num(1), "tasks" := Obj(map["z" := Num(2)])])
  {
    var settings, tasks := folder.workspaceSettingsConfig.Model(), folder.scopedConfigs[0].Model();
    ModelsOf(folder.scopedConfigs, [tasks]);
    assert folder.Layers(props) == [settings, tasks];
    MergedExample(settings, tasks);
  }

  /** A folder whose settings have the keys `x`, `y` and one tasks model with the key `z`. */
  lemma FolderKeysExample(folder: FolderConfigurationModel)
    requires folder.workspaceSettingsConfig.keys == ["x", "y"] && |folder.scopedConfigs| == 1
    requires folder.scopedConfigs[0].scope == "tasks" && folder.scopedConfigs[0].keys == ["z"]
    ensures folder.workspaceSettingsConfig.keys + StandaloneKeys(folder.scopedConfigs, |folder.scopedConfigs|) ==
      ["x", "y", "tasks.z"]
  {
    var c := folder.scopedConfigs[0];
    assert StandaloneKeys(folder.scopedConfigs, 1) == ["tasks.z"] by {
      assert StandaloneKeys(folder.scopedConfigs, 1) ==
        AllowListedKeys(c.scope, c.keys, WorkspaceStandaloneConfigurations, |WorkspaceStandaloneConfigurations|);
      assert AllowListedKeys("tasks", ["z"], WorkspaceStandaloneConfigurations,
                             |WorkspaceStandaloneConfigurations|) == ["tasks.z"] by {
        StandaloneKeysOnce("tasks", ["z"]);
        assert "tasks" in WorkspaceStandaloneConfigurations;
        TasksZ();
      }
    }
    assert ["x", "y"] + ["tasks.z"] == ["x", "y", "tasks.z"];
  }

  lemma TasksZ()
    ensures Prefixed("tasks", ["z"]) == ["tasks.z"]
  {
    assert Qualified("tasks", "z") == "tasks.z";
  }

  lemma TwoLayers(a: ConfigurationModel, b: ConfigurationModel)
    ensures MergedContents([a, b], 2) == MergeJson(MergeJson(EmptyObject, a.contents), b.contents)
  {
    assert MergedContents([a, b], 1) == MergeJson(EmptyObject, a.contents);
  }

  lemma MergeDisjoint(target: Json, source: Json)
    requires target.Obj? && source.Obj?
    requires target.fields.Keys !! source.fields.Keys
    ensures MergeJson(target, source) == Obj(target.fields + source.fields)
  {
    var r := MergeJson(target, source);
    assert r.fields == target.fields + source.fields;
  }
}
