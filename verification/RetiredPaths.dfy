/** The retired model-selection paths: migration drops them and no write brings them back.
    A path is retired when it is one of the listed keys of the models and llm sections; the
    registry refuses a write at or below one and of a section that holds one, and the startup
    migrations move what is still of use to its new place and remove the rest. */
module RetiredPaths {
  import opened Text
  import opened ConfigTree

  const MODELS_KEYS := {"mode", "custom", "automatic", "assign", "roles", "chat", "coder", "research", "max_tokens",
                        "classifier", "router", "orchestrator", "vision"}
  const LLM_KEYS := {"roles", "default_model", "meta", "workloads"}

  /** RETIRED_MODEL_PATHS: all are a section and a key. */
  predicate Retired(section: string, key: string) {
    (section == "models" && key in MODELS_KEYS) || (section == "llm" && key in LLM_KEYS)
  }

  /** Some retired path is a prefix of the written one. */
  predicate IsRetiredPath(id: string) {
    var parts := Parts(id);
    |parts| >= 2 && Retired(parts[0], parts[1])
  }

  predicate ContainsRetired(prefix: string, value: Tree) {
    exists k :: k in Fields(value) && IsRetiredPath(prefix + "." + k)
  }

  /** No value sits at a retired path. */
  ghost predicate Clean(t: Tree) {
    forall section, key :: Retired(section, key) && section in Fields(t) ==> key !in Fields(Fields(t)[section])
  }

  // ---- writes ----

  predicate Refused(id: string, value: Tree) {
    IsRetiredPath(id) || ((id == "models" || id == "llm") && ContainsRetired(id, value))
  }

  lemma RetiredKeysDotFree(section: string, key: string)
    requires Retired(section, key)
    ensures DotFree(section) && DotFree(key)
  {
  }

  lemma RefusedSection(id: string, value: Tree, key: string)
    requires Retired(id, key) && key in Fields(value)
    ensures Refused(id, value)
  {
    RetiredKeysDotFree(id, key);
    PartsConcat(id, key);
    PartsDotFree(id);
    PartsDotFree(key);
    assert IsRetiredPath(id + "." + key);
  }

  /** The retired settings by name. */
  predicate Listed(section: string, key: string) {
    if section == "models" then
      || key == "mode" || key == "custom" || key == "automatic" || key == "assign" || key == "roles" || key == "chat"
      || key == "coder" || key == "research" || key == "max_tokens" || key == "classifier" || key == "router"
      || key == "orchestrator" || key == "vision"
    else section == "llm" && (key == "roles" || key == "default_model" || key == "meta" || key == "workloads")
  }

  lemma RetiredIsListed(section: string, key: string)
    ensures Retired(section, key) <==> Listed(section, key)
  {
  }

  /** The path is the name or leads on from it. */
  predicate Under(path: string, name: string) {
    path == name || name + "." <= path
  }

  lemma {:induction false} FirstPart(path: string) returns (rest: string)
    ensures DotFree(Parts(path)[0])
    ensures if |Parts(path)| == 1 then path == Parts(path)[0]
            else path == Parts(path)[0] + "." + rest && Parts(rest) == Parts(path)[1..]
  {
    rest := "";
    if path != "" {
      if path[0] == '.' {
        rest := path[1..];
        assert Parts(path)[0] == "" && path == "" + "." + rest;
      } else {
        rest := FirstPart(path[1..]);
        assert path == [path[0]] + path[1..];
      }
    }
  }

  lemma RetiredPathMeans(path: string)
    ensures IsRetiredPath(path) <==> exists section, key :: Listed(section, key) && Under(path, section + "." + key)
  {
    hide Retired, Listed, Parts;
    var rest := FirstPart(path);
    if IsRetiredPath(path) {
      var more := FirstPart(rest);
      var section, key := Parts(path)[0], Parts(path)[1];
      RetiredIsListed(section, key);
      assert path == section + "." + key || path == section + "." + key + "." + more by {
        assert section + "." + (key + "." + more) == section + "." + key + "." + more;
      }
      assert Under(path, section + "." + key);
    }
    if section, key :| Listed(section, key) && Under(path, section + "." + key) {
      RetiredIsListed(section, key);
      UnderRetired(path, section, key);
    }
  }

  lemma UnderRetired(path: string, section: string, key: string)
    requires Retired(section, key) && Under(path, section + "." + key)
    ensures IsRetiredPath(path)
  {
    hide Retired, Parts;
    var name := section + "." + key;
    RetiredKeysDotFree(section, key);
    PartsConcat(section, key);
    PartsDotFree(section);
    PartsDotFree(key);
    if path != name {
      var rest := path[|name| + 1..];
      assert path == name + "." + rest;
      PartsConcat(name, rest);
    }
  }

  /** A write is refused if and only if it is at or below a retired setting, or is a whole
      section with a key at or below one. */
  lemma RefusedMeans(id: string, value: Tree)
    ensures Refused(id, value)
       <==> || (exists section, key :: Listed(section, key) && Under(id, section + "." + key))
            || ((id == "models" || id == "llm")
                && exists k, section, key ::
                     k in Fields(value) && Listed(section, key) && Under(id + "." + k, section + "." + key))
  {
    hide IsRetiredPath, Listed, Under;
    RetiredPathMeans(id);
    forall k ensures IsRetiredPath(id + "." + k)
                <==> exists section, key :: Listed(section, key) && Under(id + "." + k, section + "." + key)
    {
      RetiredPathMeans(id + "." + k);
    }
  }

  /** A write that is not refused keeps every retired path empty. */
  lemma WriteKeepsClean(t: Tree, id: string, value: Tree)
    requires Clean(t) && !Refused(id, value)
    ensures Clean(Put(t, Parts(id), value))
  {
    hide Refused, Retired, IsRetiredPath;
    var parts := Parts(id);
    var u := Put(t, parts, value);
    forall section, key | Retired(section, key) && section in Fields(u) ensures key !in Fields(Fields(u)[section]) {
      if parts[0] == section {
        if |parts| == 1 {
          PartsSingle(id, section);
          assert Fields(u)[section] == value by { assert parts[1..] == []; }
          if key in Fields(value) {
            RefusedSection(id, value, key);
          }
        } else {
          NotRetired(id, value, section, key);
          assert parts[1..][0] == parts[1];
        }
      }
    }
  }

  lemma NotRetired(id: string, value: Tree, section: string, key: string)
    requires !Refused(id, value) && Retired(section, key) && |Parts(id)| >= 2 && Parts(id)[0] == section
    ensures Parts(id)[1] != key
  {
  }

  // ---- migration ----

  function Without(t: Tree, keys: set<string>): Tree {
    if t.Dict? then Dict(t.fields - keys) else t
  }

  /** d.get(key, default) used as a section: no field when absent or not a dict. */
  function At(t: Tree, key: string): Option<Tree> {
    if key in Fields(t) then Some(Fields(t)[key]) else None
  }

  function PrimaryModel(cfg: Tree): (t: Tree)
    requires cfg.Dict?
    ensures t.Dict?
  {
    var llm := if At(cfg, "llm").Some? && At(cfg, "llm").value.Dict? then At(cfg, "llm").value.fields else map[];
    var named := if "primary_model" in llm && llm["primary_model"].Str? then llm else llm["primary_model" := Str("")];
    Dict(cfg.fields["llm" := Dict(named - {"workloads"})])
  }

  predicate Numeric(t: Tree) {
    t.Num? || t.Flag?
  }

  function Float(t: Tree): real
    requires Numeric(t)
  {
    match t
    case Num(n) => n
    case Flag(b) => if b then 1.0 else 0.0
  }

  /** first: the first numeric value of a dict, in its own order. */
  function Temperature(cfg: Tree, first: map<string, Tree> -> Option<Tree>): (t: Tree)
    requires cfg.Dict?
    ensures t.Dict?
  {
    if !(At(cfg, "runtime").Some? && At(cfg, "runtime").value.Dict?) then cfg
    else
      var runtime := At(cfg, "runtime").value.fields;
      if "temperature" in runtime then Dict(cfg.fields["runtime" := Dict(runtime - {"temperatures"})])
      else if "temperatures" in runtime && runtime["temperatures"].Dict? then
        var temps := runtime["temperatures"].fields;
        var picked := if "chat" in temps && temps["chat"] != Null then Some(temps["chat"]) else first(temps);
        var set_ := if picked.Some? && Numeric(picked.value) then runtime["temperature" := Num(Float(picked.value))]
            else runtime;
        Dict(cfg.fields["runtime" := Dict(set_ - {"temperatures"})])
      else cfg
  }

  function RecallThreshold(cfg: Tree): (t: Tree)
    requires cfg.Dict?
    ensures t.Dict?
  {
    if !(At(cfg, "runtime").Some? && At(cfg, "runtime").value.Dict?) then cfg
    else
      var runtime := At(cfg, "runtime").value.fields;
      if "memory_distance_threshold" in runtime && runtime["memory_distance_threshold"] == Num(0.5) then
        Dict(cfg.fields["runtime" := Dict(runtime["memory_distance_threshold" := Num(0.8)])])
      else cfg
  }

  function DropLegacy(cfg: Tree): (t: Tree)
    requires cfg.Dict?
    ensures t.Dict?
  {
    var f1 := if "llm" in cfg.fields then cfg.fields["llm" := Without(cfg.fields["llm"], LLM_KEYS)] else cfg.fields;
    var f2 := f1 - {"experience"};
    var f3 := if "runtime" in f2 then f2["runtime" := Without(f2["runtime"], {"lightweight_mode"})] else f2;
    if "models" in f3 && f3["models"].Dict? then
      var models := Without(f3["models"], MODELS_KEYS);
      Dict(if models == Dict(map[]) then f3 - {"models"} else f3["models" := models])
    else Dict(f3)
  }

  function Migrate(cfg: Tree, first: map<string, Tree> -> Option<Tree>): (t: Tree)
    requires cfg.Dict?
    ensures t.Dict?
  {
    DropLegacy(RecallThreshold(Temperature(PrimaryModel(cfg), first)))
  }

  lemma DropLegacyCleans(cfg: Tree)
    requires cfg.Dict?
    ensures Clean(DropLegacy(cfg))
  {
    var u := DropLegacy(cfg);
    forall section, key | Retired(section, key) && section in Fields(u) ensures key !in Fields(Fields(u)[section]) {
      if section == "llm" {
        assert Fields(u)["llm"] == Without(cfg.fields["llm"], LLM_KEYS);
      } else {
        assert !Fields(u)["models"].Dict? || Fields(u)["models"] == Without(cfg.fields["models"], MODELS_KEYS);
      }
    }
  }

  /** What every pass of the migration leaves alone. */
  predicate Migrated(cfg: Tree) {
    && cfg.Dict? && "llm" in cfg.fields && cfg.fields["llm"].Dict?
    && "primary_model" in cfg.fields["llm"].fields && cfg.fields["llm"].fields["primary_model"].Str?
    && cfg.fields["llm"].fields.Keys !! LLM_KEYS
    && "experience" !in cfg.fields
    && ("runtime" in cfg.fields && cfg.fields["runtime"].Dict? ==>
          var r := cfg.fields["runtime"].fields;
          && "lightweight_mode" !in r
          && ("temperatures" in r ==> "temperature" !in r && !r["temperatures"].Dict?)
          && ("memory_distance_threshold" in r ==> r["memory_distance_threshold"] != Num(0.5)))
    && ("models" in cfg.fields && cfg.fields["models"].Dict? ==>
          cfg.fields["models"].fields != map[] && cfg.fields["models"].fields.Keys !! MODELS_KEYS)
  }

  lemma NothingToDrop(f: map<string, Tree>, keys: set<string>)
    requires f.Keys !! keys
    ensures f - keys == f
  {
  }

  lemma MigratedIsFixed(cfg: Tree, first: map<string, Tree> -> Option<Tree>)
    requires Migrated(cfg)
    ensures Migrate(cfg, first) == cfg
  {
    var llm := cfg.fields["llm"].fields;
    NothingToDrop(llm, {"workloads"});
    NothingToDrop(llm, LLM_KEYS);
    assert cfg.fields["llm" := Dict(llm)] == cfg.fields;
    assert PrimaryModel(cfg) == cfg;
    if "runtime" in cfg.fields && cfg.fields["runtime"].Dict? {
      var r := cfg.fields["runtime"].fields;
      if "temperature" in r {
        NothingToDrop(r, {"temperatures"});
      }
      NothingToDrop(r, {"lightweight_mode"});
      assert cfg.fields["runtime" := Dict(r)] == cfg.fields;
    }
    assert Temperature(cfg, first) == cfg;
    assert RecallThreshold(cfg) == cfg;
    NothingToDrop(cfg.fields, {"experience"});
    if "runtime" in cfg.fields {
      assert cfg.fields["runtime" := cfg.fields["runtime"]] == cfg.fields;
    }
    if "models" in cfg.fields && cfg.fields["models"].Dict? {
      NothingToDrop(cfg.fields["models"].fields, MODELS_KEYS);
      assert cfg.fields["models" := cfg.fields["models"]] == cfg.fields;
    }
  }

  lemma LaterPassesKeepLlm(cfg: Tree, first: map<string, Tree> -> Option<Tree>)
    requires cfg.Dict?
    ensures var u := RecallThreshold(Temperature(cfg, first));
            && u.Dict? && At(u, "llm") == At(cfg, "llm")
            && (At(u, "runtime").Some? && At(u, "runtime").value.Dict? ==>
                  var r := At(u, "runtime").value.fields;
                  && ("temperatures" in r ==> "temperature" !in r && !r["temperatures"].Dict?)
                  && ("memory_distance_threshold" in r ==> r["memory_distance_threshold"] != Num(0.5)))
  {
  }

  /** Migrating a migrated configuration changes nothing, and no value is left at a
      retired path. */
  lemma MigrationSettles(cfg: Tree, first: map<string, Tree> -> Option<Tree>)
    requires cfg.Dict?
    ensures Clean(Migrate(cfg, first))
    ensures Migrate(Migrate(cfg, first), first) == Migrate(cfg, first)
  {
    hide Temperature, RecallThreshold;
    var p := PrimaryModel(cfg);
    LaterPassesKeepLlm(p, first);
    var r := RecallThreshold(Temperature(p, first));
    DropLegacyCleans(r);
    DropLegacyMigrates(r);
    MigratedIsFixed(Migrate(cfg, first), first);
  }

  lemma DropLegacyMigrates(r: Tree)
    requires r.Dict? && "llm" in r.fields && r.fields["llm"].Dict?
    requires "primary_model" in r.fields["llm"].fields && r.fields["llm"].fields["primary_model"].Str?
    requires At(r, "runtime").Some? && At(r, "runtime").value.Dict? ==>
               var f := At(r, "runtime").value.fields;
               && ("temperatures" in f ==> "temperature" !in f && !f["temperatures"].Dict?)
               && ("memory_distance_threshold" in f ==> f["memory_distance_threshold"] != Num(0.5))
    ensures Migrated(DropLegacy(r))
  {
    var u := DropLegacy(r);
    assert Fields(u)["llm"] == Without(r.fields["llm"], LLM_KEYS);
    assert "runtime" in u.fields ==> Fields(u)["runtime"] == Without(r.fields["runtime"], {"lightweight_mode"});
    assert "models" in u.fields && u.fields["models"].Dict? ==>
        Fields(u)["models"] == Without(r.fields["models"], MODELS_KEYS);
  }

  // ---- what the migration keeps and moves ----

  /** The value of a key of a section. */
  function In(t: Tree, section: string, key: string): Option<Tree> {
    if At(t, section).Some? then At(At(t, section).value, key) else None
  }

  lemma WithoutAt(t: Tree, keys: set<string>, key: string)
    ensures At(Without(t, keys), key) == if key in keys then None else At(t, key)
  {
  }

  /** The sections dropping leaves, each without its retired keys. */
  lemma DropLegacySections(cfg: Tree)
    requires cfg.Dict?
    ensures var u := DropLegacy(cfg);
            && At(u, "llm") == (if At(cfg, "llm").Some? then Some(Without(At(cfg, "llm").value, LLM_KEYS)) else None)
            && At(u, "runtime")
               == (if At(cfg, "runtime").Some? then Some(Without(At(cfg, "runtime").value, {"lightweight_mode"}))
                   else None)
            && At(u, "models")
               == (if At(cfg, "models").Some? && At(cfg, "models").value.Dict? then
                     var left := Without(At(cfg, "models").value, MODELS_KEYS);
                     if left == Dict(map[]) then None else Some(left)
                   else At(cfg, "models"))
            && At(u, "experience") == None
  {
    hide Without;
  }

  lemma DropLegacyAt(cfg: Tree, key: string)
    requires cfg.Dict?
    ensures In(DropLegacy(cfg), "llm", key)
         == if key in {"roles", "default_model", "meta", "workloads"} then None else In(cfg, "llm", key)
    ensures In(DropLegacy(cfg), "runtime", key) == if key == "lightweight_mode" then None else In(cfg, "runtime", key)
    ensures In(DropLegacy(cfg), "models", key)
         == if key in {"mode", "custom", "automatic", "assign", "roles", "chat", "coder", "research", "max_tokens",
                       "classifier", "router", "orchestrator", "vision"} then None else In(cfg, "models", key)
    ensures At(DropLegacy(cfg), "experience") == None
    ensures At(DropLegacy(cfg), "models") != Some(Dict(map[]))
  {
    hide Without, DropLegacy;
    DropLegacySections(cfg);
    if At(cfg, "llm").Some? {
      WithoutAt(At(cfg, "llm").value, LLM_KEYS, key);
    }
    if At(cfg, "runtime").Some? {
      WithoutAt(At(cfg, "runtime").value, {"lightweight_mode"}, key);
    }
    if At(cfg, "models").Some? && At(cfg, "models").value.Dict? {
      WithoutAt(At(cfg, "models").value, MODELS_KEYS, key);
    }
  }

  /** The model that was named stays named; without a name there is an empty one. Everything
      else of the llm and models sections stays but the retired keys, and an emptied models
      section goes. */
  lemma MigrationKeepsModels(cfg: Tree, first: map<string, Tree> -> Option<Tree>, key: string)
    requires cfg.Dict?
    ensures var m := Migrate(cfg, first);
            && In(m, "llm", "primary_model")
               == (if In(cfg, "llm", "primary_model").Some? && In(cfg, "llm", "primary_model").value.Str?
                   then In(cfg, "llm", "primary_model") else Some(Str("")))
            && (key != "primary_model" ==>
                  In(m, "llm", key)
                  == if key in {"roles", "default_model", "meta", "workloads"} then None else In(cfg, "llm", key))
            && In(m, "models", key)
               == (if key in {"mode", "custom", "automatic", "assign", "roles", "chat", "coder", "research",
                              "max_tokens", "classifier", "router", "orchestrator", "vision"} then None
                   else In(cfg, "models", key))
            && At(m, "models") != Some(Dict(map[])) && At(m, "experience") == None
  {
    hide DropLegacy, Temperature, RecallThreshold;
    var p := PrimaryModel(cfg);
    LaterPassesKeepLlm(p, first);
    LaterPassesKeepModels(p, first);
    var r := RecallThreshold(Temperature(p, first));
    DropLegacyAt(r, key);
    DropLegacyAt(r, "primary_model");
  }

  lemma LaterPassesKeepModels(cfg: Tree, first: map<string, Tree> -> Option<Tree>)
    requires cfg.Dict?
    ensures At(RecallThreshold(Temperature(cfg, first)), "models") == At(cfg, "models")
  {
  }

  /** The single temperature: the one that is there already, else the one of the chat role
      when it is set, else the first that is a number; none when that gives no number. */
  function Chosen(runtime: map<string, Tree>, first: map<string, Tree> -> Option<Tree>): Option<Tree> {
    if "temperature" in runtime then Some(runtime["temperature"])
    else if !("temperatures" in runtime && runtime["temperatures"].Dict?) then None
    else
      var roles := runtime["temperatures"].fields;
      var value := if "chat" in roles && roles["chat"] != Null then Some(roles["chat"]) else first(roles);
      if value.None? then None
      else if value.value.Num? then value
      else if value.value.Flag? then Some(Num(if value.value.b then 1.0 else 0.0))
      else None
  }

  lemma PrimaryModelKeepsRuntime(cfg: Tree)
    requires cfg.Dict?
    ensures At(PrimaryModel(cfg), "runtime") == At(cfg, "runtime")
  {
  }

  lemma TemperatureAt(cfg: Tree, first: map<string, Tree> -> Option<Tree>, key: string)
    requires cfg.Dict? && "runtime" in cfg.fields && cfg.fields["runtime"].Dict?
    ensures var runtime, t := cfg.fields["runtime"].fields, Temperature(cfg, first);
            && "runtime" in t.fields && t.fields["runtime"].Dict?
            && In(t, "runtime", key)
               == match key
                  case "temperature" => Chosen(runtime, first)
                  case "temperatures" =>
                    if "temperature" in runtime || ("temperatures" in runtime && runtime["temperatures"].Dict?)
                    then None else In(cfg, "runtime", key)
                  case _ => In(cfg, "runtime", key)
  {
  }

  lemma RecallThresholdAt(cfg: Tree, key: string)
    requires cfg.Dict? && "runtime" in cfg.fields && cfg.fields["runtime"].Dict?
    ensures In(RecallThreshold(cfg), "runtime", key)
         == if key == "memory_distance_threshold" && In(cfg, "runtime", key) == Some(Num(0.5)) then Some(Num(0.8))
            else In(cfg, "runtime", key)
  {
  }

  /** The runtime section: the temperature as chosen and the table of them gone, the old
      recall threshold raised to the new one, lightweight_mode gone, every other key as it was. */
  lemma MigrationMovesRuntime(cfg: Tree, first: map<string, Tree> -> Option<Tree>, key: string)
    requires cfg.Dict? && "runtime" in cfg.fields && cfg.fields["runtime"].Dict?
    ensures var runtime, m := cfg.fields["runtime"].fields, Migrate(cfg, first);
            In(m, "runtime", key)
            == match key
               case "temperature" => Chosen(runtime, first)
               case "temperatures" =>
                 if "temperature" in runtime || ("temperatures" in runtime && runtime["temperatures"].Dict?) then None
                 else In(cfg, "runtime", key)
               case "memory_distance_threshold" =>
                 if In(cfg, "runtime", key) == Some(Num(0.5)) then Some(Num(0.8)) else In(cfg, "runtime", key)
               case "lightweight_mode" => None
               case _ => In(cfg, "runtime", key)
  {
    hide DropLegacy, PrimaryModel, Temperature, RecallThreshold, Chosen;
    var p := PrimaryModel(cfg);
    PrimaryModelKeepsRuntime(cfg);
    var t := Temperature(p, first);
    TemperatureAt(p, first, key);
    var r := RecallThreshold(t);
    RecallThresholdAt(t, key);
    DropLegacyAt(r, key);
  }

  /** It touches nothing outside the sections it is about. */
  lemma MigrationKeepsRest(cfg: Tree, first: map<string, Tree> -> Option<Tree>, key: string)
    requires cfg.Dict? && key !in {"llm", "runtime", "models", "experience"}
    ensures At(Migrate(cfg, first), key) == At(cfg, key)
  {
    var p := PrimaryModel(cfg);
    assert At(p, key) == At(cfg, key);
    var t := Temperature(p, first);
    assert At(t, key) == At(p, key);
    var r := RecallThreshold(t);
    assert At(r, key) == At(t, key);
    assert At(DropLegacy(r), key) == At(r, key) by {
      hide PrimaryModel, Temperature, RecallThreshold;
    }
  }

  // ---- sequences of writes ----

  /** What a registry knows: whether it owns an id, and whether it accepts a value for it. */
  datatype Registry = Registry(has: string -> bool, accepts: (string, Tree) -> bool)

  datatype Answer = Applied | UnknownSetting | Invalid

  function Judged(reg: Registry, id: string, value: Tree): Answer {
    if Refused(id, value) || !reg.has(id) then UnknownSetting
    else if !reg.accepts(id, value) then Invalid
    else Applied
  }

  function AfterSet(t: Tree, reg: Registry, id: string, value: Tree): Tree {
    if Judged(reg, id, value) == Applied then Put(t, Parts(id), value) else t
  }

  /** A known setting, a valid value and no retired path: the value is read back there and
      every path apart from it reads as before. Otherwise nothing changes, and the answer says
      whether the setting or the value was at fault. */
  lemma SetReads(t: Tree, reg: Registry, id: string, value: Tree, other: seq<string>)
    ensures var u := AfterSet(t, reg, id, value);
            if reg.has(id) && reg.accepts(id, value) && !Refused(id, value) then
              && Judged(reg, id, value) == Applied && Get(u, Parts(id)) == Some(value)
              && (Apart(Parts(id), other) ==> Get(u, other) == Get(t, other))
            else
              && u == t
              && Judged(reg, id, value) == if reg.has(id) && !Refused(id, value) then Invalid else UnknownSetting
  {
    hide Refused, Put, Get, Apart;
    PutReads(t, Parts(id), value, other);
  }

  datatype SetCall = SetCall(id: string, value: Tree)

  function AfterSets(t: Tree, reg: Registry, calls: seq<SetCall>): Tree
    decreases |calls|
  {
    if calls == [] then t else AfterSets(AfterSet(t, reg, calls[0].id, calls[0].value), reg, calls[1..])
  }

  /** Whatever the registry and whatever is written: once migrated, the configuration never
      holds a value at a retired path. */
  lemma {:induction false} WritesKeepClean(t: Tree, reg: Registry, calls: seq<SetCall>)
    requires Clean(t)
    ensures Clean(AfterSets(t, reg, calls))
    decreases |calls|
  {
    hide Clean, Put;
    if calls != [] {
      if Judged(reg, calls[0].id, calls[0].value) == Applied {
        WriteKeepsClean(t, calls[0].id, calls[0].value);
      }
      WritesKeepClean(AfterSet(t, reg, calls[0].id, calls[0].value), reg, calls[1..]);
    }
  }

  /** Nor does the next start, which reads what the last write stored. */
  lemma ReloadIsClean(d: Tree, t: Tree)
    requires d.Dict? && t.Dict? && Clean(d) && Clean(t)
    ensures Clean(Merge(d, Stripped(t)))
  {
    hide Retired;
    var s := Stripped(t);
    var u := Merge(d, s);
    forall section, key | Retired(section, key) && section in Fields(u) ensures key !in Fields(Fields(u)[section]) {
      assert section in s.fields ==> section in t.fields && s.fields[section] == Stripped(t.fields[section]);
      assert section in s.fields ==> key !in Fields(s.fields[section]);
    }
  }

  // ---- the facade ----

  class Configuration {
    const registry: Registry
    const store: ConfigStore
    /** The resolved values in memory. */
    var data: Tree

    constructor (registry: Registry, store: ConfigStore)
      ensures this.registry == registry && this.store == store && data == Dict(map[])
    {
      this.registry, this.store, data := registry, store, Dict(map[]);
    }

    method Initialize()
      requires store.defaults.Dict? && store.file.Dict?
      modifies this`data
      ensures data == Merge(store.defaults, store.file)
    {
      data := store.Load();
    }

    method MigratePrimaryModel()
      requires data.Dict?
      modifies this`data
      ensures data == PrimaryModel(old(data))
    {
      if !("llm" in data.fields && data.fields["llm"].Dict?) {
        data := Dict(data.fields["llm" := Dict(map[])]);
      }
      var llm := data.fields["llm"].fields;
      if !("primary_model" in llm && llm["primary_model"].Str?) {
        llm := llm["primary_model" := Str("")];
      }
      llm := llm - {"workloads"};
      data := Dict(data.fields["llm" := Dict(llm)]);
      assert data.fields == PrimaryModel(old(data)).fields;
    }

    method MigrateTemperature(first: map<string, Tree> -> Option<Tree>)
      requires data.Dict?
      modifies this`data
      ensures data == Temperature(old(data), first)
    {
      if !("runtime" in data.fields && data.fields["runtime"].Dict?) {
        return;
      }
      var runtime := data.fields["runtime"].fields;
      if "temperature" in runtime {
        data := Dict(data.fields["runtime" := Dict(runtime - {"temperatures"})]);
        return;
      }
      if "temperatures" in runtime && runtime["temperatures"].Dict? {
        var temps := runtime["temperatures"].fields;
        var picked := if "chat" in temps then temps["chat"] else Null;
        if picked == Null {
          var found := first(temps);
          if found.Some? {
            picked := found.value;
          }
        }
        if Numeric(picked) {
          runtime := runtime["temperature" := Num(Float(picked))];
        }
        data := Dict(data.fields["runtime" := Dict(runtime - {"temperatures"})]);
      }
    }

    method MigrateRecallThreshold()
      requires data.Dict?
      modifies this`data
      ensures data == RecallThreshold(old(data))
    {
      if "runtime" in data.fields && data.fields["runtime"].Dict? {
        var runtime := data.fields["runtime"].fields;
        if "memory_distance_threshold" in runtime && runtime["memory_distance_threshold"] == Num(0.5) {
          data := Dict(data.fields["runtime" := Dict(runtime["memory_distance_threshold" := Num(0.8)])]);
        }
      }
    }

    method DropLegacyKeys()
      requires data.Dict?
      modifies this`data
      ensures data == DropLegacy(old(data))
    {
      if "llm" in data.fields {
        data := Dict(data.fields["llm" := Without(data.fields["llm"], LLM_KEYS)]);
      }
      data := Dict(data.fields - {"experience"});
      if "runtime" in data.fields {
        data := Dict(data.fields["runtime" := Without(data.fields["runtime"], {"lightweight_mode"})]);
      }
      if "models" in data.fields && data.fields["models"].Dict? {
        var models := Without(data.fields["models"], MODELS_KEYS);
        data := Dict(if models == Dict(map[]) then data.fields - {"models"} else data.fields["models" := models]);
      }
    }

    /** Startup. The configuration handed to the migration is the live one, changed in
        place, so the comparison with itself never finds a difference: the file keeps its
        old form until the next write. */
    method Build(first: map<string, Tree> -> Option<Tree>)
      requires store.defaults.Dict? && store.file.Dict?
      modifies this`data
      ensures data == Migrate(Merge(store.defaults, old(store.file)), first) && Clean(data)
    {
      hide PrimaryModel, Temperature, RecallThreshold, DropLegacy, Clean, Merge;
      Initialize();
      ghost var loaded := data;
      MigratePrimaryModel();
      MigrateTemperature(first);
      MigrateRecallThreshold();
      DropLegacyKeys();
      MigrationSettles(loaded, first);
      var raw, migrated := data, data;
      if migrated != raw {
        // the write of the migrated file, never reached
        assert false;
      }
    }

    method Set(id: string, value: Tree) returns (answer: Answer)
      requires data.Dict?
      modifies this`data, store`file
      ensures answer == Judged(registry, id, value)
      ensures data == AfterSet(old(data), registry, id, value) && data.Dict?
      ensures store.file == if answer == Applied then Stripped(data) else old(store.file)
      ensures Clean(old(data)) ==> Clean(data)
    {
      hide Clean, Stripped;
      ghost var before := data;
      if Clean(before) && Judged(registry, id, value) == Applied {
        WriteKeepsClean(before, id, value);
      }
      if IsRetiredPath(id) || ((id == "models" || id == "llm") && ContainsRetired(id, value)) {
        return UnknownSetting;
      }
      if !registry.has(id) {
        return UnknownSetting;
      }
      if !registry.accepts(id, value) {
        return Invalid;
      }
      data := Put(data, Parts(id), value);
      store.Write(data);
      return Applied;
    }
  }
}
