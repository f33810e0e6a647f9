/**
 * Checking and applying tool overrides (`tools/config.py`): `_validate_config` checks the
 * whole override set before anything changes, `_apply_validated_configs` rewrites the
 * configured tools of a copied registry, and `apply_custom_tool_config` chooses the
 * source of the overrides and finally merges the result into the default registry.
 *
 * A registry maps each tool name to its tool info dict; the default registry the module
 * keeps globally is the field of a `ToolStore`.
 */
module ToolConfig {
  import opened Wrappers
  import opened JsonValues
  import opened ConfigParsing

  /** Tool name to tool info (`display_name`, `description`, `input_schema`, ...). */
  type Registry = map<string, Object>

  const InputSchemaField: string := "input_schema"
  const PropertiesField: string := "properties"

  /* ---------- _validate_config ---------- */

  /** `set(default_tool_registry.keys()) | set(reference_registry.keys())`. */
  function RegisteredNames(defaults: Registry, reference: Registry): set<Json> {
    (set k | k in defaults :: Str(k)) + (set k | k in reference :: Str(k))
  }

  /** The first loop: each configured tool must be available, and is then taken out. */
  function KnownFrom(config: Object, i: nat, available: set<Json>): Result<set<Json>, ConfigError>
    requires i <= |config|
    decreases |config| - i
  {
    if i == |config| then Ok(available)
    else if Str(config[i].0) !in available then Err(UnknownTool(config[i].0))
    else KnownFrom(config, i + 1, available - {Str(config[i].0)})
  }

  /** `custom_config.get('display_name')`; a value that is not a dict has no `.get`. */
  function DisplayNameOf(custom: Json): Result<Json, ConfigError> {
    if custom.Obj? then Ok(GetOr(custom.fields, DisplayNameField, Null)) else Err(WrongType)
  }

  /** Lists and dicts cannot be looked up in a set. */
  predicate Hashable(v: Json) {
    !v.Arr? && !v.Obj?
  }

  /** The second loop: a truthy display name must not be taken, and then is. */
  function ConflictsFrom(config: Object, i: nat, available: set<Json>): Result<set<Json>, ConfigError>
    requires i <= |config|
    decreases |config| - i
  {
    if i == |config| then Ok(available)
    else
      match DisplayNameOf(config[i].1)
      case Err(e) => Err(e)
      case Ok(name) =>
        if !Truthy(name) then ConflictsFrom(config, i + 1, available)
        else if !Hashable(name) then Err(WrongType)
        else if name in available then Err(DisplayNameConflict(name))
        else ConflictsFrom(config, i + 1, available + {name})
  }

  /** The third loop: a truthy display name must be a string matching the pattern. */
  function PatternsFrom(config: Object, i: nat): Result<(), ConfigError>
    requires i <= |config|
    decreases |config| - i
  {
    if i == |config| then Ok(())
    else
      match DisplayNameOf(config[i].1)
      case Err(e) => Err(e)
      case Ok(name) =>
        if !Truthy(name) then PatternsFrom(config, i + 1)
        else if !name.Str? then Err(WrongType)
        else if !IsValidDisplayNamePattern(name.s) then Err(BadDisplayName(name.s, config[i].0))
        else PatternsFrom(config, i + 1)
  }

  /** `d.get('input_schema', {})` of a tool info, or of `{}` for a missing tool. */
  function HasProperties(info: Option<Object>): Result<bool, ConfigError> {
    var schema := GetOr(if info.Some? then info.value else [], InputSchemaField, Obj([]));
    if schema.Obj? then Ok(Truthy(GetOr(schema.fields, PropertiesField, Null))) else Err(WrongType)
  }

  function Get(r: Registry, name: string): Option<Object> {
    if name in r then Some(r[name]) else None
  }

  /** A tool info that is present and not empty. */
  predicate TruthyInfo(info: Option<Object>) {
    info.Some? && info.value != []
  }

  /** The tool whose schema the argument overrides are checked against: the reference registry's if it has properties, else the default's if it has, else whichever is present. */
  function ResolvedTool(name: string, defaults: Registry, reference: Registry): Result<Option<Object>, ConfigError> {
    match HasProperties(Get(defaults, name))
    case Err(e) => Err(e)
    case Ok(defHas) =>
      match HasProperties(Get(reference, name))
      case Err(e) => Err(e)
      case Ok(refHas) =>
        Ok(if refHas then Get(reference, name)
           else if defHas then Get(defaults, name)
           else if TruthyInfo(Get(reference, name)) then Get(reference, name)
           else Get(defaults, name))
  }

  /** `(tool_info.get('input_schema') or {}).get('properties') or {}`. */
  function PropertiesOf(info: Object): Result<Json, ConfigError> {
    var schema := GetOr(info, InputSchemaField, Null);
    var schema' := if Truthy(schema) then schema else Obj([]);
    if !schema'.Obj? then Err(WrongType)
    else
      var properties := GetOr(schema'.fields, PropertiesField, Null);
      Ok(if Truthy(properties) then properties else Obj([]))
  }

  /** One argument override: the argument must exist, and a description given must be a string. */
  function ArgCheck(tool: string, arg: string, overrides: Json, properties: Json): Result<(), ConfigError> {
    match PyIn(properties, arg)
    case None => Err(WrongType)
    case Some(false) => Err(UnknownArgument(arg, tool))
    case Some(true) =>
      if !overrides.Obj? then Err(WrongType)
      else
        var description := GetOr(overrides.fields, DescriptionField, Null);
        if !description.Null? && !description.Str? then Err(ArgDescriptionNotString(arg, tool))
        else Ok(())
  }

  /** The argument overrides from entry `j` on. */
  function ArgChecksFrom(tool: string, args: Object, j: nat, properties: Json): Result<(), ConfigError>
    requires j <= |args|
    decreases |args| - j
  {
    if j == |args| then Ok(())
    else
      match ArgCheck(tool, args[j].0, args[j].1, properties)
      case Err(e) => Err(e)
      case Ok(_) => ArgChecksFrom(tool, args, j + 1, properties)
  }

  /** The checks of the fourth loop for one tool that has `args`. */
  function ToolArgsCheck(tool: string, custom: Object, defaults: Registry, reference: Registry): Result<(), ConfigError> {
    match ResolvedTool(tool, defaults, reference)
    case Err(e) => Err(e)
    case Ok(info) =>
      if !TruthyInfo(info) then Err(UnknownTool(tool))
      else
        match PropertiesOf(info.value)
        case Err(e) => Err(e)
        case Ok(properties) =>
          var args := GetOr(custom, ArgsField, Null);
          if !args.Obj? then Err(WrongType)
          else ArgChecksFrom(tool, args.fields, 0, properties)
  }

  /** One pass of the fourth loop: a tool without `args` passes. */
  function ArgsCheck(tool: string, custom: Json, defaults: Registry, reference: Registry): Result<(), ConfigError> {
    match PyIn(custom, ArgsField)
    case None => Err(WrongType)
    case Some(false) => Ok(())
    case Some(true) =>
      if custom.Obj? then ToolArgsCheck(tool, custom.fields, defaults, reference) else Err(WrongType)
  }

  /** The fourth loop from entry `i` on. */
  function ArgsChecksFrom(config: Object, i: nat, defaults: Registry, reference: Registry): Result<(), ConfigError>
    requires i <= |config|
    decreases |config| - i
  {
    if i == |config| then Ok(())
    else
      match ArgsCheck(config[i].0, config[i].1, defaults, reference)
      case Err(e) => Err(e)
      case Ok(_) => ArgsChecksFrom(config, i + 1, defaults, reference)
  }

  /** What `_validate_config(config, reference_registry)` raises, if anything: the four loops in order. */
  function Validation(config: Object, defaults: Registry, reference: Registry): Result<(), ConfigError> {
    match KnownFrom(config, 0, RegisteredNames(defaults, reference))
    case Err(e) => Err(e)
    case Ok(available) =>
      match ConflictsFrom(config, 0, available)
      case Err(e) => Err(e)
      case Ok(_) =>
        match PatternsFrom(config, 0)
        case Err(e) => Err(e)
        case Ok(_) => ArgsChecksFrom(config, 0, defaults, reference)
  }

  /** The inner loop of the fourth check, for one tool with `args`. */
  method CheckToolArgs(tool: string, custom: Object, defaults: Registry, reference: Registry) returns (r: Result<(), ConfigError>)
    ensures r == ToolArgsCheck(tool, custom, defaults, reference)
  {
    var info := ResolvedTool(tool, defaults, reference);
    if info.Err? {
      return Err(info.error);
    }
    if !TruthyInfo(info.value) {
      return Err(UnknownTool(tool));
    }
    var properties := PropertiesOf(info.value.value);
    if properties.Err? {
      return Err(properties.error);
    }
    var args := GetOr(custom, ArgsField, Null);
    if !args.Obj? {
      return Err(WrongType);
    }
    for j := 0 to |args.fields|
      invariant ArgChecksFrom(tool, args.fields, 0, properties.value) == ArgChecksFrom(tool, args.fields, j, properties.value)
    {
      var (arg, overrides) := args.fields[j];
      var check := ArgCheck(tool, arg, overrides, properties.value);
      if check.Err? {
        return check;
      }
    }
    return Ok(());
  }

  /** The first loop of `_validate_config`: the names still available once every configured tool is taken out. */
  method CheckKnownTools(config: Object, names: set<Json>) returns (r: Result<set<Json>, ConfigError>)
    ensures r == KnownFrom(config, 0, names)
  {
    var available := names;
    for i := 0 to |config|
      invariant KnownFrom(config, 0, names) == KnownFrom(config, i, available)
    {
      var name := config[i].0;
      if Str(name) !in available {
        return Err(UnknownTool(name));
      }
      available := available - {Str(name)};
    }
    return Ok(available);
  }

  /** The second loop of `_validate_config`: display names must not collide. */
  method CheckDisplayNames(config: Object, names: set<Json>) returns (r: Result<set<Json>, ConfigError>)
    ensures r == ConflictsFrom(config, 0, names)
  {
    var available := names;
    for i := 0 to |config|
      invariant ConflictsFrom(config, 0, names) == ConflictsFrom(config, i, available)
    {
      var name := DisplayNameOf(config[i].1);
      if name.Err? {
        return Err(name.error);
      }
      if Truthy(name.value) {
        if !Hashable(name.value) {
          return Err(WrongType);
        }
        if name.value in available {
          return Err(DisplayNameConflict(name.value));
        }
        available := available + {name.value};
      }
    }
    return Ok(available);
  }

  /** The third loop of `_validate_config`: display names must match the pattern. */
  method CheckPatterns(config: Object) returns (r: Result<(), ConfigError>)
    ensures r == PatternsFrom(config, 0)
  {
    for i := 0 to |config|
      invariant PatternsFrom(config, 0) == PatternsFrom(config, i)
    {
      var name := DisplayNameOf(config[i].1);
      if name.Err? {
        return Err(name.error);
      }
      if Truthy(name.value) {
        if !name.value.Str? {
          return Err(WrongType);
        }
        if !IsValidDisplayNamePattern(name.value.s) {
          return Err(BadDisplayName(name.value.s, config[i].0));
        }
      }
    }
    return Ok(());
  }

  /** The fourth loop of `_validate_config`: argument overrides must name existing arguments. */
  method CheckArgs(config: Object, defaults: Registry, reference: Registry) returns (r: Result<(), ConfigError>)
    ensures r == ArgsChecksFrom(config, 0, defaults, reference)
  {
    for i := 0 to |config|
      invariant ArgsChecksFrom(config, 0, defaults, reference) == ArgsChecksFrom(config, i, defaults, reference)
    {
      var (name, custom) := config[i];
      var hasArgs := PyIn(custom, ArgsField);
      if hasArgs.None? {
        return Err(WrongType);
      }
      if hasArgs.value {
        if !custom.Obj? {
          return Err(WrongType);
        }
        var check := CheckToolArgs(name, custom.fields, defaults, reference);
        if check.Err? {
          return check;
        }
      }
    }
    return Ok(());
  }

  /** `_validate_config(config, reference_registry)`, reading the default registry given. */
  method ValidateConfig(config: Object, defaults: Registry, reference: Registry) returns (r: Result<(), ConfigError>)
    ensures r == Validation(config, defaults, reference)
  {
    var available := CheckKnownTools(config, RegisteredNames(defaults, reference));
    if available.Err? {
      return Err(available.error);
    }
    var taken := CheckDisplayNames(config, available.value);
    if taken.Err? {
      return Err(taken.error);
    }
    r := CheckPatterns(config);
    if r.Err? {
      return;
    }
    r := CheckArgs(config, defaults, reference);
  }

  /* ---------- what validation accepts ---------- */

  /** The names of the first `n` configured tools. */
  function Configured(config: Object, n: nat): set<Json>
    requires n <= |config|
  {
    set i | 0 <= i < n :: Str(config[i].0)
  }

  /** The display name a tool's overrides give it, None when they give none. */
  function DisplayName(custom: Json): Json {
    if custom.Obj? then GetOr(custom.fields, DisplayNameField, Null) else Null
  }

  /** The truthy display names of the first `n` configured tools. */
  function Assigned(config: Object, n: nat): set<Json>
    requires n <= |config|
  {
    set j | 0 <= j < n && Truthy(DisplayName(config[j].1)) :: DisplayName(config[j].1)
  }

  /**
   * The display name of tool `k` is free: it is not one of the `taken` names, nor the
   * display name of a tool configured before it.
   */
  predicate FreeAt(config: Object, k: nat, taken: set<Json>)
    requires k < |config|
  {
    var name := DisplayName(config[k].1);
    config[k].1.Obj? &&
    (Truthy(name) ==>
      Hashable(name) && name !in taken &&
      forall j :: 0 <= j < k && Truthy(DisplayName(config[j].1)) ==> DisplayName(config[j].1) != name)
  }

  /** The display name of tool `k`, when truthy, is a string matching the pattern. */
  predicate PatternAt(config: Object, k: nat)
    requires k < |config|
  {
    var name := DisplayName(config[k].1);
    config[k].1.Obj? && (Truthy(name) ==> name.Str? && IsValidDisplayNamePattern(name.s))
  }

  /** Every configured tool is registered. */
  predicate AllKnown(config: Object, names: set<Json>) {
    forall k :: 0 <= k < |config| ==> Str(config[k].0) in names
  }

  /** Every display name is free of the `taken` names and of the earlier display names. */
  predicate AllFree(config: Object, taken: set<Json>) {
    forall k :: 0 <= k < |config| ==> FreeAt(config, k, taken)
  }

  /** Every display name matches the pattern. */
  predicate AllPatterns(config: Object) {
    forall k :: 0 <= k < |config| ==> PatternAt(config, k)
  }

  /** Every tool's argument overrides pass their checks. */
  predicate AllArgs(config: Object, defaults: Registry, reference: Registry) {
    forall k :: 0 <= k < |config| ==> ArgsCheck(config[k].0, config[k].1, defaults, reference).Ok?
  }

  lemma {:induction false} KnownFromMeaning(config: Object, i: nat, names: set<Json>)
    requires DistinctKeys(config) && i <= |config|
    ensures var r := KnownFrom(config, i, names - Configured(config, i));
      && (r.Ok? <==> forall k :: i <= k < |config| ==> Str(config[k].0) in names)
      && (r.Ok? ==> r.value == names - Configured(config, |config|))
    decreases |config| - i
  {
    if i < |config| {
      var x := Str(config[i].0);
      assert x !in Configured(config, i) by {
        DistinctTail(config, i);
        forall j | 0 <= j < i
          ensures config[j].0 != config[i].0
        {
          KeyOfEntry(config[..i], j);
        }
      }
      assert Configured(config, i + 1) == Configured(config, i) + {x};
      assert (names - Configured(config, i)) - {x} == names - Configured(config, i + 1);
      KnownFromMeaning(config, i + 1, names);
    }
  }

  lemma {:induction false} ConflictsFromMeaning(config: Object, i: nat, taken: set<Json>)
    requires i <= |config|
    ensures ConflictsFrom(config, i, taken + Assigned(config, i)).Ok? <==>
      forall k :: i <= k < |config| ==> FreeAt(config, k, taken)
    decreases |config| - i
  {
    if i < |config| {
      ConflictsFromMeaning(config, i + 1, taken);
      ConflictsStep(config, i, taken);
      var rest := ConflictsFrom(config, i + 1, taken + Assigned(config, i + 1)).Ok?;
      assert rest <==> forall k :: i + 1 <= k < |config| ==> FreeAt(config, k, taken);
    }
  }

  /** One step of the second loop: it passes tool `i` exactly when that tool's display name is free. */
  lemma ConflictsStep(config: Object, i: nat, taken: set<Json>)
    requires i < |config|
    ensures ConflictsFrom(config, i, taken + Assigned(config, i)).Ok? <==>
      FreeAt(config, i, taken) && ConflictsFrom(config, i + 1, taken + Assigned(config, i + 1)).Ok?
  {
    var name := DisplayName(config[i].1);
    if config[i].1.Obj? {
      if !Truthy(name) {
        assert Assigned(config, i + 1) == Assigned(config, i);
      } else {
        assert Assigned(config, i + 1) == Assigned(config, i) + {name};
        assert (taken + Assigned(config, i)) + {name} == taken + Assigned(config, i + 1);
        assert DisplayNameOf(config[i].1) == Ok(name);
        if name in Assigned(config, i) {
          var j :| 0 <= j < i && Truthy(DisplayName(config[j].1)) && DisplayName(config[j].1) == name;
          assert !FreeAt(config, i, taken);
        } else {
          forall j | 0 <= j < i && Truthy(DisplayName(config[j].1))
            ensures DisplayName(config[j].1) != name
          {
            assert DisplayName(config[j].1) in Assigned(config, i);
          }
        }
      }
    }
  }

  lemma {:induction false} PatternsFromMeaning(config: Object, i: nat)
    requires i <= |config|
    ensures PatternsFrom(config, i).Ok? <==> forall k :: i <= k < |config| ==> PatternAt(config, k)
    decreases |config| - i
  {
    if i < |config| {
      PatternsFromMeaning(config, i + 1);
      assert PatternsFrom(config, i).Ok? <==> PatternAt(config, i) && PatternsFrom(config, i + 1).Ok?;
    }
  }

  lemma {:induction false} ArgsChecksFromMeaning(config: Object, i: nat, defaults: Registry, reference: Registry)
    requires i <= |config|
    ensures ArgsChecksFrom(config, i, defaults, reference).Ok? <==>
      forall k :: i <= k < |config| ==> ArgsCheck(config[k].0, config[k].1, defaults, reference).Ok?
    decreases |config| - i
  {
    if i < |config| {
      ArgsChecksFromMeaning(config, i + 1, defaults, reference);
    }
  }

  lemma {:induction false} ArgChecksFromMeaning(tool: string, args: Object, j: nat, properties: Json)
    requires j <= |args|
    ensures ArgChecksFrom(tool, args, j, properties).Ok? <==>
      forall k :: j <= k < |args| ==> ArgCheck(tool, args[k].0, args[k].1, properties).Ok?
    decreases |args| - j
  {
    if j < |args| {
      ArgChecksFromMeaning(tool, args, j + 1, properties);
    }
  }

  /**
   * `_validate_config` passes exactly when every configured tool is registered in the
   * default or the reference registry; every truthy display name is free, which means it
   * is neither the name of a registered tool left unconfigured nor the display name of a
   * tool configured earlier (so renaming a tool to itself, or swapping two names, is
   * accepted); every truthy display name matches the pattern; and every argument override
   * passes its check.
   */
  lemma ValidationMeaning(config: Object, defaults: Registry, reference: Registry)
    requires DistinctKeys(config)
    ensures var names := RegisteredNames(defaults, reference);
      Validation(config, defaults, reference).Ok? <==>
        && AllKnown(config, names)
        && AllFree(config, names - Configured(config, |config|))
        && AllPatterns(config)
        && AllArgs(config, defaults, reference)
  {
    var names := RegisteredNames(defaults, reference);
    var taken := names - Configured(config, |config|);
    KnownMeaning(config, names);
    if KnownFrom(config, 0, names).Ok? {
      ConflictsMeaning(config, taken);
      PatternsMeaning(config);
      ArgsMeaning(config, defaults, reference);
    }
    ValidationSteps(config, defaults, reference);
  }

  lemma KnownMeaning(config: Object, names: set<Json>)
    requires DistinctKeys(config)
    ensures KnownFrom(config, 0, names).Ok? <==> AllKnown(config, names)
    ensures KnownFrom(config, 0, names).Ok? ==> KnownFrom(config, 0, names).value == names - Configured(config, |config|)
  {
    assert Configured(config, 0) == {};
    assert names - Configured(config, 0) == names;
    KnownFromMeaning(config, 0, names);
  }

  lemma ConflictsMeaning(config: Object, taken: set<Json>)
    ensures ConflictsFrom(config, 0, taken).Ok? <==> AllFree(config, taken)
  {
    assert Assigned(config, 0) == {};
    assert taken + Assigned(config, 0) == taken;
    ConflictsFromMeaning(config, 0, taken);
  }

  lemma PatternsMeaning(config: Object)
    ensures PatternsFrom(config, 0).Ok? <==> AllPatterns(config)
  {
    PatternsFromMeaning(config, 0);
  }

  lemma ArgsMeaning(config: Object, defaults: Registry, reference: Registry)
    ensures ArgsChecksFrom(config, 0, defaults, reference).Ok? <==> AllArgs(config, defaults, reference)
  {
    ArgsChecksFromMeaning(config, 0, defaults, reference);
  }

  /** Validation passes exactly when each of its four loops does. */
  lemma ValidationSteps(config: Object, defaults: Registry, reference: Registry)
    ensures var known := KnownFrom(config, 0, RegisteredNames(defaults, reference));
      Validation(config, defaults, reference).Ok? <==>
        known.Ok? && ConflictsFrom(config, 0, known.value).Ok? &&
        PatternsFrom(config, 0).Ok? && ArgsChecksFrom(config, 0, defaults, reference).Ok?
  {
  }

  /**
   * The checks of one argument override: it passes exactly when the argument is among the
   * properties and its overrides are a dict whose description, if any, is a string.
   */
  lemma ToolArgsMeaning(tool: string, args: Object, properties: Json)
    ensures ArgChecksFrom(tool, args, 0, properties).Ok? <==>
      forall k :: 0 <= k < |args| ==>
        PyIn(properties, args[k].0) == Some(true) && args[k].1.Obj? &&
        (GetOr(args[k].1.fields, DescriptionField, Null).Null? || GetOr(args[k].1.fields, DescriptionField, Null).Str?)
  {
    ArgChecksFromMeaning(tool, args, 0, properties);
  }

  /** Two configured tools cannot take the same display name, whatever else the registries hold. */
  lemma SharedDisplayNameRejected(config: Object, defaults: Registry, reference: Registry, j: nat, k: nat)
    requires DistinctKeys(config) && j < k < |config|
    requires Truthy(DisplayName(config[j].1)) && DisplayName(config[j].1) == DisplayName(config[k].1)
    ensures Validation(config, defaults, reference).Err?
  {
    ValidationMeaning(config, defaults, reference);
    var taken := RegisteredNames(defaults, reference) - Configured(config, |config|);
    assert !FreeAt(config, k, taken);
  }

  /** A display name that is a registered name of a tool not being configured is rejected. */
  lemma RegisteredDisplayNameRejected(config: Object, defaults: Registry, reference: Registry, k: nat)
    requires DistinctKeys(config) && k < |config|
    requires DisplayName(config[k].1).Str?
    requires var name := DisplayName(config[k].1).s;
      name != "" && (name in defaults || name in reference) && name !in KeySet(config)
    ensures Validation(config, defaults, reference).Err?
  {
    var name := DisplayName(config[k].1);
    var taken := RegisteredNames(defaults, reference) - Configured(config, |config|);
    assert name in RegisteredNames(defaults, reference);
    NotConfigured(config, name.s);
    assert name in taken;
    assert !FreeAt(config, k, taken);
    ValidationMeaning(config, defaults, reference);
  }

  /** A name that is no key of the configuration is not a configured tool's name. */
  lemma NotConfigured(config: Object, name: string)
    requires name !in KeySet(config)
    ensures Str(name) !in Configured(config, |config|)
  {
    forall i | 0 <= i < |config|
      ensures Str(config[i].0) != Str(name)
    {
      KeyOfEntry(config, i);
    }
  }

  /**
   * The conflict check starts from the registered names minus every configured tool's
   * name, so one tool may take the name of another configured tool, even when that
   * other tool keeps its own name: both then go by `b`.
   */
  lemma ConfiguredNameReusable(config: Object, defaults: Registry, reference: Registry)
    requires config == [("a", Obj([(DisplayNameField, Str("b"))])), ("b", Obj([(DescriptionField, Str("x"))]))]
    requires "a" in reference && "b" in reference
    ensures Validation(config, defaults, reference).Ok?
  {
    var names := RegisteredNames(defaults, reference);
    assert Str("a") in names && Str("b") in names;
    var rest := names - {Str("a"), Str("b")};
    assert KnownFrom(config, 0, names) == Ok(rest) by {
      assert KnownFrom(config, 0, names) == KnownFrom(config, 1, names - {Str("a")});
      assert KnownFrom(config, 1, names - {Str("a")}) == KnownFrom(config, 2, names - {Str("a")} - {Str("b")});
      assert names - {Str("a")} - {Str("b")} == rest;
    }
    assert DisplayNameOf(config[0].1) == Ok(Str("b"));
    assert DisplayNameOf(config[1].1) == Ok(Null);
    assert Str("b") !in rest;
    assert ConflictsFrom(config, 0, rest) == ConflictsFrom(config, 1, rest + {Str("b")});
    assert ConflictsFrom(config, 1, rest + {Str("b")}) == ConflictsFrom(config, 2, rest + {Str("b")});
    assert IsValidDisplayNamePattern("b") by {
      assert IsNameChar('b');
    }
    assert PatternsFrom(config, 0) == PatternsFrom(config, 1);
    assert PatternsFrom(config, 1) == PatternsFrom(config, 2);
    assert KeySet(config[0].1.fields) == {DisplayNameField} by {
      assert config[0].1.fields[1..] == [];
    }
    assert KeySet(config[1].1.fields) == {DescriptionField} by {
      assert config[1].1.fields[1..] == [];
    }
    assert ArgsChecksFrom(config, 0, defaults, reference) == ArgsChecksFrom(config, 1, defaults, reference);
    assert ArgsChecksFrom(config, 1, defaults, reference) == ArgsChecksFrom(config, 2, defaults, reference);
  }

  /* ---------- _apply_validated_configs ---------- */

  /**
   * The schema an `args` override starts from: the tool's own `input_schema` if truthy,
   * else the default registry's for that tool if truthy, else `{}`.
   */
  function BaseSchema(info: Object, tool: string, defaults: Registry): Json {
    var own := GetOr(info, InputSchemaField, Null);
    if Truthy(own) then own
    else
      var fallback := GetOr(if tool in defaults then defaults[tool] else [], InputSchemaField, Null);
      if Truthy(fallback) then fallback else Obj([])
  }

  /** The properties after the argument overrides from entry `j` on: a listed, existing property gets the override's description. */
  function DescribeFrom(args: Object, j: nat, properties: Json): Result<Json, ConfigError>
    requires j <= |args|
    decreases |args| - j
  {
    if j == |args| then Ok(properties)
    else
      var (arg, overrides) := args[j];
      match PyIn(overrides, DescriptionField)
      case None => Err(WrongType)
      case Some(false) => DescribeFrom(args, j + 1, properties)
      case Some(true) =>
        match PyIn(properties, arg)
        case None => Err(WrongType)
        case Some(false) => DescribeFrom(args, j + 1, properties)
        case Some(true) =>
          if !properties.Obj? || !overrides.Obj? then Err(WrongType)
          else
            match GetOr(properties.fields, arg, Null)
            case Obj(property) =>
              var described := SetKey(property, DescriptionField, GetOr(overrides.fields, DescriptionField, Null));
              DescribeFrom(args, j + 1, Obj(SetKey(properties.fields, arg, Obj(described))))
            case _ => Err(WrongType)
  }

  /**
   * The `input_schema` an `args` override leaves: a copy of the base schema whose
   * properties carry the new descriptions. When the schema has no truthy `properties`,
   * the overrides write into a detached `{}` and the schema stays as it was.
   */
  function SchemaWithArgs(info: Object, tool: string, defaults: Registry, args: Json): Result<Json, ConfigError> {
    var schema := BaseSchema(info, tool, defaults);
    if !schema.Obj? then Err(WrongType)
    else
      var present := GetOr(schema.fields, PropertiesField, Null);
      var properties := if Truthy(present) then present else Obj([]);
      if !args.Obj? then Err(WrongType)
      else
        match DescribeFrom(args.fields, 0, properties)
        case Err(e) => Err(e)
        case Ok(described) =>
          Ok(if Truthy(present) then Obj(SetKey(schema.fields, PropertiesField, described)) else schema)
  }

  /** A tool info after the override fields from entry `k` on: `args` rewrites `input_schema`, any other field is assigned. */
  function FieldsFrom(tool: string, custom: Object, k: nat, info: Object, defaults: Registry): Result<Object, ConfigError>
    requires k <= |custom|
    decreases |custom| - k
  {
    if k == |custom| then Ok(info)
    else
      var (field, value) := custom[k];
      if field == ArgsField then
        match SchemaWithArgs(info, tool, defaults, value)
        case Err(e) => Err(e)
        case Ok(schema) => FieldsFrom(tool, custom, k + 1, SetKey(info, InputSchemaField, schema), defaults)
      else FieldsFrom(tool, custom, k + 1, SetKey(info, field, value), defaults)
  }

  /** The registry after the configured tools from entry `i` on; a tool not in the registry is skipped. */
  function ApplyFrom(configs: Object, i: nat, registry: Registry, defaults: Registry): Result<Registry, ConfigError>
    requires i <= |configs|
    decreases |configs| - i
  {
    if i == |configs| then Ok(registry)
    else
      var (tool, custom) := configs[i];
      if tool !in registry then ApplyFrom(configs, i + 1, registry, defaults)
      else if !custom.Obj? then Err(WrongType)
      else
        match FieldsFrom(tool, custom.fields, 0, registry[tool], defaults)
        case Err(e) => Err(e)
        case Ok(info) => ApplyFrom(configs, i + 1, registry[tool := info], defaults)
  }

  /** The argument loop of `_apply_validated_configs` for one `args` override. */
  method ApplyArgs(info: Object, tool: string, defaults: Registry, args: Json) returns (r: Result<Json, ConfigError>)
    ensures r == SchemaWithArgs(info, tool, defaults, args)
  {
    var schema := BaseSchema(info, tool, defaults);
    if !schema.Obj? {
      return Err(WrongType);
    }
    var present := GetOr(schema.fields, PropertiesField, Null);
    var properties := if Truthy(present) then present else Obj([]);
    if !args.Obj? {
      return Err(WrongType);
    }
    for j := 0 to |args.fields|
      invariant DescribeFrom(args.fields, 0, if Truthy(present) then present else Obj([])) == DescribeFrom(args.fields, j, properties)
    {
      var (arg, overrides) := args.fields[j];
      var hasDescription := PyIn(overrides, DescriptionField);
      if hasDescription.None? {
        return Err(WrongType);
      }
      if hasDescription.value {
        var exists_ := PyIn(properties, arg);
        if exists_.None? {
          return Err(WrongType);
        }
        if exists_.value {
          if !properties.Obj? || !overrides.Obj? {
            return Err(WrongType);
          }
          var property := GetOr(properties.fields, arg, Null);
          if !property.Obj? {
            return Err(WrongType);
          }
          var described := SetKey(property.fields, DescriptionField, GetOr(overrides.fields, DescriptionField, Null));
          properties := Obj(SetKey(properties.fields, arg, Obj(described)));
        }
      }
    }
    if Truthy(present) {
      return Ok(Obj(SetKey(schema.fields, PropertiesField, properties)));
    }
    return Ok(schema);
  }

  /** The field loop of `_apply_validated_configs` for one configured tool. */
  method ApplyToolConfig(tool: string, custom: Object, info: Object, defaults: Registry) returns (r: Result<Object, ConfigError>)
    ensures r == FieldsFrom(tool, custom, 0, info, defaults)
  {
    var current := info;
    for k := 0 to |custom|
      invariant FieldsFrom(tool, custom, 0, info, defaults) == FieldsFrom(tool, custom, k, current, defaults)
    {
      var (field, value) := custom[k];
      if field == ArgsField {
        var schema := ApplyArgs(current, tool, defaults, value);
        if schema.Err? {
          return Err(schema.error);
        }
        current := SetKey(current, InputSchemaField, schema.value);
      } else {
        current := SetKey(current, field, value);
      }
    }
    return Ok(current);
  }

  /** `_apply_validated_configs(custom_registry, configs)`: the new registry, or the error that stops it. */
  method ApplyValidatedConfigs(registry: Registry, configs: Object, defaults: Registry) returns (r: Result<Registry, ConfigError>)
    ensures r == ApplyFrom(configs, 0, registry, defaults)
  {
    var current := registry;
    for i := 0 to |configs|
      invariant ApplyFrom(configs, 0, registry, defaults) == ApplyFrom(configs, i, current, defaults)
    {
      var (tool, custom) := configs[i];
      if tool !in current {
        continue;
      }
      if !custom.Obj? {
        return Err(WrongType);
      }
      var info := ApplyToolConfig(tool, custom.fields, current[tool], defaults);
      if info.Err? {
        return Err(info.error);
      }
      current := current[tool := info.value];
    }
    return Ok(current);
  }

  /* ---------- what applying changes ---------- */

  /** Applying never adds or removes a tool, and leaves every tool it is not configured for as it was. */
  lemma {:induction false} ApplyFromKeeps(configs: Object, i: nat, registry: Registry, defaults: Registry, tool: string)
    requires i <= |configs| && ApplyFrom(configs, i, registry, defaults).Ok?
    ensures ApplyFrom(configs, i, registry, defaults).value.Keys == registry.Keys
    ensures tool in registry && tool !in KeySet(configs[i..]) ==> ApplyFrom(configs, i, registry, defaults).value[tool] == registry[tool]
    decreases |configs| - i
  {
    if i < |configs| {
      assert configs[i..] == [configs[i]] + configs[i + 1..];
      var (name, custom) := configs[i];
      if name !in registry {
        ApplyFromKeeps(configs, i + 1, registry, defaults, tool);
      } else {
        var info := FieldsFrom(name, custom.fields, 0, registry[name], defaults).value;
        ApplyFromKeeps(configs, i + 1, registry[name := info], defaults, tool);
      }
    }
  }

  /** A configured tool in the registry ends with its fields rewritten by its own overrides (the override mapping's keys being distinct). */
  lemma {:induction false} ApplyFromTool(configs: Object, i: nat, registry: Registry, defaults: Registry, m: nat)
    requires i <= m < |configs| && DistinctKeys(configs)
    requires ApplyFrom(configs, i, registry, defaults).Ok? && configs[m].0 in registry
    ensures configs[m].1.Obj?
    ensures var r := ApplyFrom(configs, i, registry, defaults).value;
      configs[m].0 in r &&
      FieldsFrom(configs[m].0, configs[m].1.fields, 0, registry[configs[m].0], defaults) == Ok(r[configs[m].0])
    decreases |configs| - i
  {
    var (name, custom) := configs[i];
    if i == m {
      var info := FieldsFrom(name, custom.fields, 0, registry[name], defaults).value;
      DistinctSuffix(configs, i);
      ApplyFromKeeps(configs, i + 1, registry[name := info], defaults, name);
    } else if name !in registry {
      ApplyFromTool(configs, i + 1, registry, defaults, m);
    } else {
      var info := FieldsFrom(name, custom.fields, 0, registry[name], defaults).value;
      assert configs[m].0 != name by {
        DistinctSuffix(configs, i);
        KeyOfEntry(configs[i + 1..], m - i - 1);
      }
      ApplyFromTool(configs, i + 1, registry[name := info], defaults, m);
    }
  }

  /** The override fields from `k` on change a tool info only under the fields they name (or `input_schema`, for `args`). */
  lemma {:induction false} FieldsFromKeeps(tool: string, custom: Object, k: nat, info: Object, defaults: Registry, f: string)
    requires k <= |custom| && FieldsFrom(tool, custom, k, info, defaults).Ok?
    requires f !in KeySet(custom[k..]) && (f == InputSchemaField ==> ArgsField !in KeySet(custom[k..]))
    ensures Lookup(FieldsFrom(tool, custom, k, info, defaults).value, f) == Lookup(info, f)
    decreases |custom| - k
  {
    if k < |custom| {
      assert custom[k..] == [custom[k]] + custom[k + 1..];
      var (field, value) := custom[k];
      if field == ArgsField {
        var schema := SchemaWithArgs(info, tool, defaults, value).value;
        FieldsFromKeeps(tool, custom, k + 1, SetKey(info, InputSchemaField, schema), defaults, f);
        SetKeyOther(info, InputSchemaField, schema, f);
      } else {
        FieldsFromKeeps(tool, custom, k + 1, SetKey(info, field, value), defaults, f);
        SetKeyOther(info, field, value, f);
      }
    }
  }

  /** A field other than `args` is assigned its override verbatim. */
  lemma {:induction false} FieldsFromAssigns(tool: string, custom: Object, k: nat, info: Object, defaults: Registry, m: nat)
    requires k <= m < |custom| && DistinctKeys(custom)
    requires FieldsFrom(tool, custom, k, info, defaults).Ok?
    requires custom[m].0 != ArgsField && custom[m].0 != InputSchemaField
    ensures Lookup(FieldsFrom(tool, custom, k, info, defaults).value, custom[m].0) == Some(custom[m].1)
    decreases |custom| - k
  {
    var (field, value) := custom[k];
    if k == m {
      SetKeySame(info, field, value);
      DistinctSuffix(custom, k);
      FieldsFromKeeps(tool, custom, k + 1, SetKey(info, field, value), defaults, field);
    } else if field == ArgsField {
      var schema := SchemaWithArgs(info, tool, defaults, value).value;
      FieldsFromAssigns(tool, custom, k + 1, SetKey(info, InputSchemaField, schema), defaults, m);
    } else {
      FieldsFromAssigns(tool, custom, k + 1, SetKey(info, field, value), defaults, m);
    }
  }

  /** Describing never adds or removes a property, and leaves a property no override names as it was. */
  lemma {:induction false} DescribeFromKeeps(args: Object, j: nat, properties: Json, arg: string)
    requires j <= |args| && DescribeFrom(args, j, properties).Ok?
    ensures properties.Obj? ==> DescribeFrom(args, j, properties).value.Obj?
    ensures properties.Obj? ==> KeySet(DescribeFrom(args, j, properties).value.fields) == KeySet(properties.fields)
    ensures properties.Obj? && arg !in KeySet(args[j..]) ==>
      Lookup(DescribeFrom(args, j, properties).value.fields, arg) == Lookup(properties.fields, arg)
    ensures !properties.Obj? ==> DescribeFrom(args, j, properties).value == properties
    decreases |args| - j
  {
    if j < |args| {
      assert args[j..] == [args[j]] + args[j + 1..];
      var (name, overrides) := args[j];
      if PyIn(overrides, DescriptionField) == Some(true) && PyIn(properties, name) == Some(true) {
        var property := GetOr(properties.fields, name, Null).fields;
        var described := SetKey(property, DescriptionField, GetOr(overrides.fields, DescriptionField, Null));
        var next := SetKey(properties.fields, name, Obj(described));
        DescribeFromKeeps(args, j + 1, Obj(next), arg);
        SetKeyKeys(properties.fields, name, Obj(described));
        if arg != name {
          SetKeyOther(properties.fields, name, Obj(described), arg);
        }
      } else {
        DescribeFromKeeps(args, j + 1, properties, arg);
      }
    }
  }

  /**
   * An override with a `description` for a property the schema has sets that property's
   * description (the override mapping's argument names being distinct).
   */
  lemma {:induction false} DescribeFromSets(args: Object, j: nat, properties: Json, m: nat)
    requires j <= m < |args| && DistinctKeys(args) && properties.Obj?
    requires DescribeFrom(args, j, properties).Ok?
    requires args[m].1.Obj? && DescriptionField in KeySet(args[m].1.fields)
    requires Lookup(properties.fields, args[m].0).Some? && Lookup(properties.fields, args[m].0).value.Obj?
    ensures var d := DescribeFrom(args, j, properties).value;
      && d.Obj?
      && Lookup(d.fields, args[m].0).Some? && Lookup(d.fields, args[m].0).value.Obj?
      && Lookup(Lookup(d.fields, args[m].0).value.fields, DescriptionField) == Lookup(args[m].1.fields, DescriptionField)
    decreases |args| - j
  {
    var (name, overrides) := args[j];
    if j == m {
      DescribeHere(args, j, properties);
    } else {
      assert name != args[m].0 by {
        DistinctSuffix(args, j);
        KeyOfEntry(args[j + 1..], m - j - 1);
      }
      if PyIn(overrides, DescriptionField) == Some(true) && PyIn(properties, name) == Some(true) {
        var property := GetOr(properties.fields, name, Null).fields;
        var described := SetKey(property, DescriptionField, GetOr(overrides.fields, DescriptionField, Null));
        SetKeyOther(properties.fields, name, Obj(described), args[m].0);
        DescribeFromSets(args, j + 1, Obj(SetKey(properties.fields, name, Obj(described))), m);
      } else {
        DescribeFromSets(args, j + 1, properties, m);
      }
    }
  }

  /** The override at `j` sets its property's description, and the later ones leave that property alone. */
  lemma DescribeHere(args: Object, j: nat, properties: Json)
    requires j < |args| && DistinctKeys(args) && properties.Obj?
    requires DescribeFrom(args, j, properties).Ok?
    requires args[j].1.Obj? && DescriptionField in KeySet(args[j].1.fields)
    requires Lookup(properties.fields, args[j].0).Some? && Lookup(properties.fields, args[j].0).value.Obj?
    ensures var d := DescribeFrom(args, j, properties).value;
      && d.Obj?
      && Lookup(d.fields, args[j].0).Some? && Lookup(d.fields, args[j].0).value.Obj?
      && Lookup(Lookup(d.fields, args[j].0).value.fields, DescriptionField) == Lookup(args[j].1.fields, DescriptionField)
  {
    var (name, overrides) := args[j];
    var property := Lookup(properties.fields, name).value.fields;
    var description := GetOr(overrides.fields, DescriptionField, Null);
    var described := SetKey(property, DescriptionField, description);
    var next := SetKey(properties.fields, name, Obj(described));
    assert Lookup(described, DescriptionField) == Lookup(overrides.fields, DescriptionField) by {
      SetKeySame(property, DescriptionField, description);
    }
    assert Lookup(next, name) == Some(Obj(described)) by {
      SetKeySame(properties.fields, name, Obj(described));
    }
    assert DescribeFrom(args, j, properties) == DescribeFrom(args, j + 1, Obj(next));
    DistinctSuffix(args, j);
    DescribeFromKeeps(args, j + 1, Obj(next), name);
  }

  /** Describing a property changes only its `description`: every other field of an existing dict property is kept. */
  lemma {:induction false} DescribeFromKeepsOtherFields(args: Object, j: nat, properties: Json, p: string, g: string)
    requires j <= |args| && DescribeFrom(args, j, properties).Ok?
    requires properties.Obj? && g != DescriptionField
    requires Lookup(properties.fields, p).Some? && Lookup(properties.fields, p).value.Obj?
    ensures var d := DescribeFrom(args, j, properties).value;
      && d.Obj?
      && Lookup(d.fields, p).Some? && Lookup(d.fields, p).value.Obj?
      && Lookup(Lookup(d.fields, p).value.fields, g) == Lookup(Lookup(properties.fields, p).value.fields, g)
    decreases |args| - j
  {
    if j < |args| {
      var (name, overrides) := args[j];
      if PyIn(overrides, DescriptionField) == Some(true) && PyIn(properties, name) == Some(true) {
        var property := GetOr(properties.fields, name, Null).fields;
        var description := GetOr(overrides.fields, DescriptionField, Null);
        var described := SetKey(property, DescriptionField, description);
        var next := SetKey(properties.fields, name, Obj(described));
        if name == p {
          SetKeySame(properties.fields, name, Obj(described));
          SetKeyOther(property, DescriptionField, description, g);
        } else {
          SetKeyOther(properties.fields, name, Obj(described), p);
        }
        DescribeFromKeepsOtherFields(args, j + 1, Obj(next), p, g);
      } else {
        DescribeFromKeepsOtherFields(args, j + 1, properties, p, g);
      }
    }
  }

  /** An `args` override leaves every schema entry other than `properties` as the base schema has it. */
  lemma SchemaWithArgsOther(info: Object, tool: string, defaults: Registry, args: Json, g: string)
    requires SchemaWithArgs(info, tool, defaults, args).Ok? && g != PropertiesField
    ensures BaseSchema(info, tool, defaults).Obj? && SchemaWithArgs(info, tool, defaults, args).value.Obj?
    ensures Lookup(SchemaWithArgs(info, tool, defaults, args).value.fields, g) == Lookup(BaseSchema(info, tool, defaults).fields, g)
  {
    var schema := BaseSchema(info, tool, defaults);
    var present := GetOr(schema.fields, PropertiesField, Null);
    if Truthy(present) {
      var described := DescribeFrom(args.fields, 0, present).value;
      SetKeyOther(schema.fields, PropertiesField, described, g);
    }
  }

  /**
   * An `args` override whose schema has truthy `properties` replaces them with the described
   * ones; otherwise the base schema is kept whole.
   */
  lemma SchemaWithArgsProperties(info: Object, tool: string, defaults: Registry, args: Json)
    requires SchemaWithArgs(info, tool, defaults, args).Ok?
    ensures var schema := BaseSchema(info, tool, defaults);
      var present := GetOr(schema.fields, PropertiesField, Null);
      && schema.Obj? && args.Obj?
      && (Truthy(present) ==> Lookup(SchemaWithArgs(info, tool, defaults, args).value.fields, PropertiesField) == Some(DescribeFrom(args.fields, 0, present).value))
      && (!Truthy(present) ==> SchemaWithArgs(info, tool, defaults, args).value == schema)
  {
    var schema := BaseSchema(info, tool, defaults);
    var present := GetOr(schema.fields, PropertiesField, Null);
    if Truthy(present) {
      SetKeySame(schema.fields, PropertiesField, DescribeFrom(args.fields, 0, present).value);
    }
  }

  /** Of a tool's info, an `args` override reads only its `input_schema`. */
  lemma SchemaWithArgsOwnOnly(info: Object, info': Object, tool: string, defaults: Registry, args: Json)
    requires Lookup(info, InputSchemaField) == Lookup(info', InputSchemaField)
    ensures SchemaWithArgs(info, tool, defaults, args) == SchemaWithArgs(info', tool, defaults, args)
  {
    assert BaseSchema(info, tool, defaults) == BaseSchema(info', tool, defaults);
  }

  /** The keys from entry `k` on: the key of entry `k` and the keys after it. */
  lemma KeySetAt(o: Object, k: nat)
    requires k < |o|
    ensures KeySet(o[k..]) == {o[k].0} + KeySet(o[k + 1..])
  {
    assert o[k..][1..] == o[k + 1..];
  }

  /**
   * The `args` entry of a tool's overrides leaves its `input_schema` as SchemaWithArgs makes
   * it from the tool's original info (the overrides naming `input_schema` no other way).
   */
  lemma {:induction false} FieldsFromArgs(tool: string, custom: Object, k: nat, info: Object, defaults: Registry, m: nat)
    requires k <= m < |custom| && DistinctKeys(custom) && custom[m].0 == ArgsField
    requires InputSchemaField !in KeySet(custom[k..])
    requires FieldsFrom(tool, custom, k, info, defaults).Ok?
    ensures SchemaWithArgs(info, tool, defaults, custom[m].1).Ok?
    ensures Lookup(FieldsFrom(tool, custom, k, info, defaults).value, InputSchemaField) == Some(SchemaWithArgs(info, tool, defaults, custom[m].1).value)
    decreases |custom| - k
  {
    KeySetAt(custom, k);
    var (field, value) := custom[k];
    if k == m {
      var schema := SchemaWithArgs(info, tool, defaults, value).value;
      var next := SetKey(info, InputSchemaField, schema);
      assert FieldsFrom(tool, custom, k, info, defaults) == FieldsFrom(tool, custom, k + 1, next, defaults);
      SetKeySame(info, InputSchemaField, schema);
      DistinctSuffix(custom, k);
      FieldsFromKeeps(tool, custom, k + 1, next, defaults, InputSchemaField);
    } else {
      assert field != ArgsField by {
        DistinctSuffix(custom, k);
        KeyOfEntry(custom[k + 1..], m - k - 1);
      }
      var next := SetKey(info, field, value);
      assert FieldsFrom(tool, custom, k, info, defaults) == FieldsFrom(tool, custom, k + 1, next, defaults);
      SetKeyOther(info, field, value, InputSchemaField);
      SchemaWithArgsOwnOnly(next, info, tool, defaults, custom[m].1);
      FieldsFromArgs(tool, custom, k + 1, next, defaults, m);
    }
  }

  /**
   * After a tool's overrides are applied, an argument whose `args` entry gives a
   * `description`, and which the base schema has as a dict property, carries that
   * description in the tool's `input_schema`.
   */
  lemma ToolArgDescribed(tool: string, custom: Object, info: Object, defaults: Registry, m: nat, j: nat)
    requires m < |custom| && DistinctKeys(custom) && custom[m].0 == ArgsField && InputSchemaField !in KeySet(custom)
    requires FieldsFrom(tool, custom, 0, info, defaults).Ok?
    requires custom[m].1.Obj? && DistinctKeys(custom[m].1.fields) && j < |custom[m].1.fields|
    requires custom[m].1.fields[j].1.Obj? && DescriptionField in KeySet(custom[m].1.fields[j].1.fields)
    requires BaseSchema(info, tool, defaults).Obj?
    requires var present := GetOr(BaseSchema(info, tool, defaults).fields, PropertiesField, Null);
      && Truthy(present) && present.Obj?
      && Lookup(present.fields, custom[m].1.fields[j].0).Some? && Lookup(present.fields, custom[m].1.fields[j].0).value.Obj?
    ensures var schema := Lookup(FieldsFrom(tool, custom, 0, info, defaults).value, InputSchemaField);
      && schema.Some? && schema.value.Obj?
      && Lookup(schema.value.fields, PropertiesField).Some? && Lookup(schema.value.fields, PropertiesField).value.Obj?
      && var property := Lookup(Lookup(schema.value.fields, PropertiesField).value.fields, custom[m].1.fields[j].0);
      && property.Some? && property.value.Obj?
      && Lookup(property.value.fields, DescriptionField) == Lookup(custom[m].1.fields[j].1.fields, DescriptionField)
  {
    var args := custom[m].1;
    var present := GetOr(BaseSchema(info, tool, defaults).fields, PropertiesField, Null);
    assert custom[0..] == custom;
    FieldsFromArgs(tool, custom, 0, info, defaults, m);
    SchemaWithArgsProperties(info, tool, defaults, args);
    DescribeFromSets(args.fields, 0, present, j);
  }

  /* ---------- apply_custom_tool_config ---------- */

  /**
   * The `tools` mapping read from the configuration file: `loaded` is what `yaml.safe_load`
   * returned, None when no path was given or the file could not be read or parsed. An
   * error while looking up `tools` is swallowed like a load error.
   */
  function FileTools(loaded: Option<Json>): (r: Json)
    ensures Truthy(r) ==> loaded.Some? && loaded.value.Obj? && Lookup(loaded.value.fields, "tools") == Some(r)
    ensures loaded.Some? && loaded.value.Obj? && Lookup(loaded.value.fields, "tools").Some? ==> r == Lookup(loaded.value.fields, "tools").value
  {
    if loaded.None? || !Truthy(loaded.value) then Obj([])
    else
      match PyIn(loaded.value, "tools")
      case Some(true) => if loaded.value.Obj? then GetOr(loaded.value.fields, "tools", Null) else Obj([])
      case _ => Obj([])
  }

  /** The overrides to apply: the file's when its `tools` mapping is truthy, the command line's otherwise. */
  function Overrides(loaded: Option<Json>, cli: seq<(string, string)>, coerce: string -> Option<Json>): Result<Object, ConfigError> {
    var fromFile := FileTools(loaded);
    if Truthy(fromFile) then FileConfigs(fromFile) else Ok(CliFrom(cli, 0, [], coerce))
  }

  /** What `apply_custom_tool_config` returns: the copied registry with the validated overrides applied. */
  function CustomToolConfig(defaults: Registry, registry: Registry, loaded: Option<Json>, cli: seq<(string, string)>, coerce: string -> Option<Json>): Result<Registry, ConfigError> {
    match Overrides(loaded, cli, coerce)
    case Err(e) => Err(e)
    case Ok(configs) =>
      if configs == [] then Ok(registry)
      else
        match Validation(configs, defaults, registry)
        case Err(e) => Err(e)
        case Ok(_) => ApplyFrom(configs, 0, registry, defaults)
  }

  /** When the file has a truthy `tools` mapping, the command-line overrides play no part. */
  lemma FileOverridesWin(defaults: Registry, registry: Registry, loaded: Option<Json>,
                         cli1: seq<(string, string)>, cli2: seq<(string, string)>, coerce: string -> Option<Json>)
    requires Truthy(FileTools(loaded))
    ensures CustomToolConfig(defaults, registry, loaded, cli1, coerce) == CustomToolConfig(defaults, registry, loaded, cli2, coerce)
  {
  }

  /**
   * Without a file, or when the file is not a mapping with a truthy `tools` entry (a load
   * error included), the command-line overrides are the ones applied.
   */
  lemma CliUsedWithoutFileTools(loaded: Option<Json>, cli: seq<(string, string)>, coerce: string -> Option<Json>)
    requires loaded.None? || !loaded.value.Obj? || !Truthy(GetOr(loaded.value.fields, "tools", Null))
    ensures Overrides(loaded, cli, coerce) == Ok(CliFrom(cli, 0, [], coerce))
  {
  }

  /** Nothing is applied unless the whole override set validates. */
  lemma ValidationGuardsApply(defaults: Registry, registry: Registry, loaded: Option<Json>, cli: seq<(string, string)>, coerce: string -> Option<Json>)
    requires Overrides(loaded, cli, coerce).Ok? && Overrides(loaded, cli, coerce).value != []
    requires Validation(Overrides(loaded, cli, coerce).value, defaults, registry).Err?
    ensures CustomToolConfig(defaults, registry, loaded, cli, coerce) == Err(Validation(Overrides(loaded, cli, coerce).value, defaults, registry).error)
  {
  }

  /** The result has the same tools as the registry given. */
  lemma CustomToolConfigKeys(defaults: Registry, registry: Registry, loaded: Option<Json>, cli: seq<(string, string)>, coerce: string -> Option<Json>)
    requires CustomToolConfig(defaults, registry, loaded, cli, coerce).Ok?
    ensures CustomToolConfig(defaults, registry, loaded, cli, coerce).value.Keys == registry.Keys
  {
    var configs := Overrides(loaded, cli, coerce).value;
    if configs != [] {
      ApplyFromKeeps(configs, 0, registry, defaults, "");
    }
  }

  /** The module's default registry, which `apply_custom_tool_config` updates. */
  class ToolStore {
    var defaults: Registry

    constructor(defaults: Registry)
      ensures this.defaults == defaults
    {
      this.defaults := defaults;
    }

    /**
     * `apply_custom_tool_config(tool_registry, config_file_path, cli_tool_overrides)`, with
     * the file's parsed contents given as `loaded`. On success the default registry is
     * updated with the result; on an error it is left as it was.
     */
    method ApplyCustomToolConfig(registry: Registry, loaded: Option<Json>, cli: seq<(string, string)>, coerce: string -> Option<Json>)
      returns (r: Result<Registry, ConfigError>)
      modifies this
      ensures r == CustomToolConfig(old(defaults), registry, loaded, cli, coerce)
      ensures r.Ok? ==> defaults == old(defaults) + r.value
      ensures r.Err? ==> defaults == old(defaults)
    {
      var custom := registry;
      var fromFile := FileTools(loaded);
      var configs: Object;
      if Truthy(fromFile) {
        var fileConfigs := LoadConfigFromFile(fromFile);
        if fileConfigs.Err? {
          return Err(fileConfigs.error);
        }
        configs := fileConfigs.value;
      } else {
        configs := ParseCliToNestedConfig(cli, coerce);
      }
      if configs != [] {
        var valid := ValidateConfig(configs, defaults, custom);
        if valid.Err? {
          return Err(valid.error);
        }
        var applied := ApplyValidatedConfigs(custom, configs, defaults);
        if applied.Err? {
          return Err(applied.error);
        }
        custom := applied.value;
      }
      defaults := defaults + custom;
      return Ok(custom);
    }
  }
}
