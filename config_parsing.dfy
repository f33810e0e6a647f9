/**
 * Reading tool overrides from their two sources, as `tools/config.py` does before any
 * check: the `tools` mapping of a YAML file, and flat `tool.<Name>.<path>=<value>`
 * command-line keys. Both produce an ordered mapping from tool name to a dict of
 * overrides.
 */
module ConfigParsing {
  import opened Wrappers
  import opened JsonValues

  const DisplayNameField: string := "display_name"
  const DescriptionField: string := "description"
  const ArgsField: string := "args"
  const MaxSizeLimitField: string := "max_size_limit"

  /** The fields a tool override may set. */
  predicate IsTopField(k: string) {
    k == DisplayNameField || k == DescriptionField || k == ArgsField || k == MaxSizeLimitField
  }

  /** The ValueErrors the configuration code raises, and WrongType for the TypeError or AttributeError of a value of the wrong type. */
  datatype ConfigError =
    | InvalidField(field: string, tool: string)
    | ArgDescriptionNotString(arg: string, tool: string)
    | UnknownTool(tool: string)
    | DisplayNameConflict(displayName: Json)
    | BadDisplayName(name: string, tool: string)
    | UnknownArgument(arg: string, tool: string)
    | WrongType

  /* ---------- is_valid_display_name_pattern ---------- */

  /** A character of the class `[a-zA-Z0-9_-]`. */
  predicate IsNameChar(c: char) {
    'a' <= c <= 'z' || 'A' <= c <= 'Z' || '0' <= c <= '9' || c == '_' || c == '-'
  }

  predicate AllNameChars(s: string) {
    forall i :: 0 <= i < |s| ==> IsNameChar(s[i])
  }

  /** The length of the longest run of name characters at the front of `s` (what `[...]+` consumes greedily). */
  function NameRun(s: string): (n: nat)
    ensures n <= |s|
    ensures AllNameChars(s[..n])
    ensures n < |s| ==> !IsNameChar(s[n])
  {
    if s == [] || !IsNameChar(s[0]) then 0
    else
      var n := 1 + NameRun(s[1..]);
      assert s[..n] == [s[0]] + s[1..][..n - 1];
      n
  }

  /**
   * `re.match(r'^[a-zA-Z0-9_-]+$', name) is not None`: the greedy run must reach the end,
   * or stop just before a final newline, which `$` also accepts.
   */
  function IsValidDisplayNamePattern(name: string): (r: bool)
    ensures r <==> ((name != "" && AllNameChars(name))
                    || (|name| >= 2 && name[|name| - 1] == '\n' && AllNameChars(name[..|name| - 1])))
  {
    var n := NameRun(name);
    if n >= 1 && (n == |name| || (n == |name| - 1 && name[n] == '\n')) then true
    else
      assert |name| >= 2 && AllNameChars(name[..|name| - 1]) ==> n >= |name| - 1 by {
        if |name| >= 2 && n < |name| - 1 {
          assert name[..|name| - 1][n] == name[n];
        }
      }
      false
  }

  /* ---------- _parse_args_map ---------- */

  /** The parsed arguments from entry `i` on, starting from `parsed`. */
  function ArgsFrom(tool: string, args: Object, i: nat, parsed: Object): Result<Object, ConfigError>
    requires i <= |args|
    decreases |args| - i
  {
    if i == |args| then Ok(parsed)
    else if args[i].1.Str? then
      ArgsFrom(tool, args, i + 1, SetKey(parsed, args[i].0, Obj([(DescriptionField, args[i].1)])))
    else Err(ArgDescriptionNotString(args[i].0, tool))
  }

  /** What `_parse_args_map` returns: nothing for a value that is not a mapping, else each string description wrapped. */
  function ParsedArgs(tool: string, raw: Json): Result<Object, ConfigError> {
    if raw.Obj? then ArgsFrom(tool, raw.fields, 0, []) else Ok([])
  }

  /** `_parse_args_map(tool_name, raw_args)`. */
  method ParseArgsMap(tool: string, raw: Json) returns (r: Result<Object, ConfigError>)
    ensures r == ParsedArgs(tool, raw)
  {
    if !raw.Obj? {
      // logged and ignored
      return Ok([]);
    }
    var parsed: Object := [];
    for i := 0 to |raw.fields|
      invariant ArgsFrom(tool, raw.fields, 0, []) == ArgsFrom(tool, raw.fields, i, parsed)
    {
      var (name, value) := raw.fields[i];
      if !value.Str? {
        return Err(ArgDescriptionNotString(name, tool));
      }
      parsed := SetKey(parsed, name, Obj([(DescriptionField, value)]));
    }
    return Ok(parsed);
  }

  /** Each description wrapped as `{description: s}`, in order. */
  function Described(args: Object): (r: Object)
    ensures |r| == |args|
  {
    seq(|args|, i requires 0 <= i < |args| => (args[i].0, Obj([(DescriptionField, args[i].1)])))
  }

  lemma {:induction false} DescribedKeys(args: Object)
    ensures KeySet(Described(args)) == KeySet(args)
  {
    if args != [] {
      DescribedKeys(args[1..]);
      assert Described(args)[1..] == Described(args[1..]);
    }
  }

  lemma {:induction false} DistinctTail(o: Object, i: nat)
    requires DistinctKeys(o) && i < |o|
    ensures o[i].0 !in KeySet(o[..i])
  {
    if i > 0 {
      DistinctTail(o[1..], i - 1);
      assert o[..i] == [o[0]] + o[1..][..i - 1];
      assert o[i].0 != o[0].0 by {
        KeyOfEntry(o[1..], i - 1);
      }
    }
  }

  lemma {:induction false} KeyOfEntry(o: Object, i: nat)
    requires i < |o|
    ensures o[i].0 in KeySet(o)
  {
    if i > 0 {
      KeyOfEntry(o[1..], i - 1);
    }
  }

  lemma {:induction false} ArgsFromDescribed(tool: string, args: Object, i: nat)
    requires DistinctKeys(args) && i <= |args|
    requires forall j :: i <= j < |args| ==> args[j].1.Str?
    ensures ArgsFrom(tool, args, i, Described(args[..i])) == Ok(Described(args))
    decreases |args| - i
  {
    if i == |args| {
      assert args[..i] == args;
    } else {
      DistinctTail(args, i);
      DescribedKeys(args[..i]);
      SetKeyFresh(Described(args[..i]), args[i].0, Obj([(DescriptionField, args[i].1)]));
      assert Described(args[..i]) + [(args[i].0, Obj([(DescriptionField, args[i].1)]))] == Described(args[..i + 1]);
      ArgsFromDescribed(tool, args, i + 1);
    }
  }

  lemma {:induction false} ArgsFromError(tool: string, args: Object, i: nat, parsed: Object, j: nat)
    requires i <= j < |args| && !args[j].1.Str?
    requires forall m :: i <= m < j ==> args[m].1.Str?
    ensures ArgsFrom(tool, args, i, parsed).Err?
    ensures ArgsFrom(tool, args, i, parsed).error == ArgDescriptionNotString(args[j].0, tool)
    decreases |args| - i
  {
    if i < j {
      ArgsFromError(tool, args, i + 1, SetKey(parsed, args[i].0, Obj([(DescriptionField, args[i].1)])), j);
    }
  }

  /**
   * `_parse_args_map` on a mapping: it fails on the first description that is not a
   * string, naming that argument; otherwise it wraps every description as
   * `{description: s}`, keeping the order.
   */
  lemma ParsedArgsMeaning(tool: string, raw: Json)
    requires raw.Obj? && DistinctKeys(raw.fields)
    ensures (forall j :: 0 <= j < |raw.fields| ==> raw.fields[j].1.Str?) ==>
      ParsedArgs(tool, raw) == Ok(Described(raw.fields))
    ensures forall j ::
      (0 <= j < |raw.fields| && !raw.fields[j].1.Str? && (forall m :: 0 <= m < j ==> raw.fields[m].1.Str?)) ==>
      ParsedArgs(tool, raw) == Err(ArgDescriptionNotString(raw.fields[j].0, tool))
  {
    if forall j :: 0 <= j < |raw.fields| ==> raw.fields[j].1.Str? {
      assert raw.fields[..0] == [];
      ArgsFromDescribed(tool, raw.fields, 0);
    }
    forall j | 0 <= j < |raw.fields| && !raw.fields[j].1.Str? && (forall m :: 0 <= m < j ==> raw.fields[m].1.Str?)
      ensures ParsedArgs(tool, raw) == Err(ArgDescriptionNotString(raw.fields[j].0, tool))
    {
      ArgsFromError(tool, raw.fields, 0, [], j);
    }
  }

  /** A value that is not a mapping gives no arguments. */
  lemma ParsedArgsIgnored(tool: string, raw: Json)
    requires !raw.Obj?
    ensures ParsedArgs(tool, raw) == Ok([])
  {
  }

  /* ---------- _load_config_from_file ---------- */

  /** `d.update(p)`: each entry of `p` assigned in turn. */
  function Update(d: Object, p: Object): Object
    decreases |p|
  {
    if p == [] then d else Update(SetKey(d, p[0].0, p[0].1), p[1..])
  }

  /** The overrides of one tool from entry `i` of its mapping on, starting from `out`. */
  function EntriesFrom(tool: string, custom: Object, i: nat, out: Object): Result<Object, ConfigError>
    requires i <= |custom|
    decreases |custom| - i
  {
    if i == |custom| then Ok(out)
    else
      var (key, value) := custom[i];
      if key == ArgsField then
        match ParsedArgs(tool, value)
        case Err(e) => Err(e)
        case Ok(parsed) =>
          if parsed == [] then EntriesFrom(tool, custom, i + 1, out)
          else
            // out.setdefault('args', {}).update(parsed)
            var prior := match Lookup(out, ArgsField) case Some(Obj(a)) => a case _ => [];
            EntriesFrom(tool, custom, i + 1, SetKey(out, ArgsField, Obj(Update(prior, parsed))))
      else if key == DisplayNameField || key == DescriptionField || key == MaxSizeLimitField then
        EntriesFrom(tool, custom, i + 1, SetKey(out, key, value))
      else Err(InvalidField(key, tool))
  }

  /** The overrides of one tool: `(custom or {}).items()` read into a fresh dict. */
  function ToolEntries(tool: string, custom: Json): Result<Object, ConfigError> {
    if !Truthy(custom) then Ok([])
    else if !custom.Obj? then Err(WrongType)
    else EntriesFrom(tool, custom.fields, 0, [])
  }

  /** The overrides of the tools from entry `i` of the file's `tools` mapping on, starting from `acc`. */
  function ToolsFrom(tools: Object, i: nat, acc: Object): Result<Object, ConfigError>
    requires i <= |tools|
    decreases |tools| - i
  {
    if i == |tools| then Ok(acc)
    else
      match ToolEntries(tools[i].0, tools[i].1)
      case Err(e) => Err(e)
      case Ok(out) => ToolsFrom(tools, i + 1, SetKey(acc, tools[i].0, Obj(out)))
  }

  /** What `_load_config_from_file` returns for the file's `tools` value. */
  function FileConfigs(config: Json): Result<Object, ConfigError> {
    if !Truthy(config) then Ok([])
    else if !config.Obj? then Err(WrongType)
    else ToolsFrom(config.fields, 0, [])
  }

  /** The inner loop of `_load_config_from_file`: the overrides of one tool. */
  method LoadToolEntries(tool: string, custom: Json) returns (r: Result<Object, ConfigError>)
    ensures r == ToolEntries(tool, custom)
  {
    if !Truthy(custom) {
      return Ok([]);
    }
    if !custom.Obj? {
      return Err(WrongType);
    }
    var out: Object := [];
    for i := 0 to |custom.fields|
      invariant EntriesFrom(tool, custom.fields, 0, []) == EntriesFrom(tool, custom.fields, i, out)
    {
      var (key, value) := custom.fields[i];
      if key == ArgsField {
        var parsed := ParseArgsMap(tool, value);
        if parsed.Err? {
          return Err(parsed.error);
        }
        if parsed.value != [] {
          var prior := match Lookup(out, ArgsField) case Some(Obj(a)) => a case _ => [];
          out := SetKey(out, ArgsField, Obj(Update(prior, parsed.value)));
        }
        continue;
      }
      if key == DisplayNameField || key == DescriptionField || key == MaxSizeLimitField {
        out := SetKey(out, key, value);
        continue;
      }
      return Err(InvalidField(key, tool));
    }
    return Ok(out);
  }

  /** `_load_config_from_file(config_from_file)`. */
  method LoadConfigFromFile(config: Json) returns (r: Result<Object, ConfigError>)
    ensures r == FileConfigs(config)
  {
    if !Truthy(config) {
      return Ok([]);
    }
    if !config.Obj? {
      return Err(WrongType);
    }
    var fileConfigs: Object := [];
    for i := 0 to |config.fields|
      invariant ToolsFrom(config.fields, 0, []) == ToolsFrom(config.fields, i, fileConfigs)
    {
      var (tool, custom) := config.fields[i];
      var out := LoadToolEntries(tool, custom);
      if out.Err? {
        return Err(out.error);
      }
      fileConfigs := SetKey(fileConfigs, tool, Obj(out.value));
    }
    return Ok(fileConfigs);
  }

  /** Reading the entries from `i` on changes `out` only under the keys those entries name. */
  lemma {:induction false} EntriesFromKeeps(tool: string, custom: Object, i: nat, out: Object, k: string)
    requires i <= |custom| && EntriesFrom(tool, custom, i, out).Ok?
    requires k !in KeySet(custom[i..])
    ensures Lookup(EntriesFrom(tool, custom, i, out).value, k) == Lookup(out, k)
    decreases |custom| - i
  {
    if i < |custom| {
      assert custom[i..] == [custom[i]] + custom[i + 1..];
      var (key, value) := custom[i];
      if key == ArgsField {
        var parsed := ParsedArgs(tool, value).value;
        if parsed == [] {
          EntriesFromKeeps(tool, custom, i + 1, out, k);
        } else {
          var prior := match Lookup(out, ArgsField) case Some(Obj(a)) => a case _ => [];
          var out' := SetKey(out, ArgsField, Obj(Update(prior, parsed)));
          EntriesFromKeeps(tool, custom, i + 1, out', k);
          SetKeyOther(out, ArgsField, Obj(Update(prior, parsed)), k);
        }
      } else {
        EntriesFromKeeps(tool, custom, i + 1, SetKey(out, key, value), k);
        SetKeyOther(out, key, value, k);
      }
    }
  }

  /**
   * A display name, description or size limit is copied verbatim into the tool's
   * overrides (the mapping's keys being distinct, as in every YAML mapping).
   */
  lemma {:induction false} EntriesFromCopies(tool: string, custom: Object, i: nat, out: Object, j: nat)
    requires i <= j < |custom| && DistinctKeys(custom)
    requires EntriesFrom(tool, custom, i, out).Ok?
    requires custom[j].0 == DisplayNameField || custom[j].0 == DescriptionField || custom[j].0 == MaxSizeLimitField
    ensures Lookup(EntriesFrom(tool, custom, i, out).value, custom[j].0) == Some(custom[j].1)
    decreases |custom| - i
  {
    var (key, value) := custom[i];
    if i == j {
      var out' := SetKey(out, key, value);
      SetKeySame(out, key, value);
      assert key !in KeySet(custom[i + 1..]) by {
        DistinctSuffix(custom, i);
      }
      EntriesFromKeeps(tool, custom, i + 1, out', key);
    } else if key == ArgsField {
      var parsed := ParsedArgs(tool, value).value;
      var prior := match Lookup(out, ArgsField) case Some(Obj(a)) => a case _ => [];
      var out' := if parsed == [] then out else SetKey(out, ArgsField, Obj(Update(prior, parsed)));
      EntriesFromCopies(tool, custom, i + 1, out', j);
    } else {
      EntriesFromCopies(tool, custom, i + 1, SetKey(out, key, value), j);
    }
  }

  lemma {:induction false} DistinctSuffix(o: Object, i: nat)
    requires DistinctKeys(o) && i < |o|
    ensures o[i].0 !in KeySet(o[i + 1..])
  {
    if i == 0 {
      assert o[1..] == o[i + 1..];
    } else {
      DistinctSuffix(o[1..], i - 1);
      assert o[1..][i..] == o[i + 1..];
    }
  }

  /**
   * A field other than the four supported ones fails the load. When no earlier entry
   * fails first (every earlier field is supported and every earlier `args` parses), the
   * error is the ValueError naming that field and the tool.
   */
  lemma {:induction false} EntriesFromRejects(tool: string, custom: Object, i: nat, out: Object, j: nat)
    requires i <= j < |custom| && !IsTopField(custom[j].0)
    ensures EntriesFrom(tool, custom, i, out).Err?
    ensures (forall m :: i <= m < j ==> IsTopField(custom[m].0) && (custom[m].0 == ArgsField ==> ParsedArgs(tool, custom[m].1).Ok?))
      ==> EntriesFrom(tool, custom, i, out) == Err(InvalidField(custom[j].0, tool))
    decreases |custom| - i
  {
    if i < j {
      var (key, value) := custom[i];
      if key == ArgsField {
        match ParsedArgs(tool, value)
        case Err(_) =>
        case Ok(parsed) =>
          var prior := match Lookup(out, ArgsField) case Some(Obj(a)) => a case _ => [];
          var out' := if parsed == [] then out else SetKey(out, ArgsField, Obj(Update(prior, parsed)));
          EntriesFromRejects(tool, custom, i + 1, out', j);
      } else if IsTopField(key) {
        EntriesFromRejects(tool, custom, i + 1, SetKey(out, key, value), j);
      }
    }
  }

  /** The first tool whose overrides fail to load decides the error of the whole file. */
  lemma {:induction false} ToolsFromFirstError(tools: Object, i: nat, acc: Object, k: nat)
    requires i <= k < |tools| && ToolEntries(tools[k].0, tools[k].1).Err?
    requires forall m :: i <= m < k ==> ToolEntries(tools[m].0, tools[m].1).Ok?
    ensures ToolsFrom(tools, i, acc) == Err(ToolEntries(tools[k].0, tools[k].1).error)
    decreases k - i
  {
    if i < k {
      var out := ToolEntries(tools[i].0, tools[i].1).value;
      ToolsFromFirstError(tools, i + 1, SetKey(acc, tools[i].0, Obj(out)), k);
    }
  }

  /**
   * A file in which tool `k` names the unsupported field `j` is rejected with the
   * ValueError naming that field and that tool, when nothing before it fails first.
   */
  lemma FileConfigsRejectsField(config: Json, k: nat, j: nat)
    requires config.Obj? && k < |config.fields|
    requires forall m :: 0 <= m < k ==> ToolEntries(config.fields[m].0, config.fields[m].1).Ok?
    requires config.fields[k].1.Obj? && j < |config.fields[k].1.fields|
    requires !IsTopField(config.fields[k].1.fields[j].0)
    requires forall m :: 0 <= m < j ==>
      var (key, value) := config.fields[k].1.fields[m];
      IsTopField(key) && (key == ArgsField ==> ParsedArgs(config.fields[k].0, value).Ok?)
    ensures FileConfigs(config) == Err(InvalidField(config.fields[k].1.fields[j].0, config.fields[k].0))
  {
    var (tool, custom) := config.fields[k];
    EntriesFromRejects(tool, custom.fields, 0, [], j);
    ToolsFromFirstError(config.fields, 0, [], k);
  }

  /** An `args` value that is not a mapping is ignored: the tool gets no `args` key from it. */
  lemma {:induction false} EntriesFromIgnoresArgs(tool: string, custom: Object, i: nat, out: Object)
    requires i <= |custom| && EntriesFrom(tool, custom, i, out).Ok?
    requires forall j :: i <= j < |custom| && custom[j].0 == ArgsField ==> !custom[j].1.Obj?
    ensures Lookup(EntriesFrom(tool, custom, i, out).value, ArgsField) == Lookup(out, ArgsField)
    decreases |custom| - i
  {
    if i < |custom| {
      var (key, value) := custom[i];
      if key == ArgsField {
        EntriesFromIgnoresArgs(tool, custom, i + 1, out);
      } else {
        EntriesFromIgnoresArgs(tool, custom, i + 1, SetKey(out, key, value));
        SetKeyOther(out, key, value, ArgsField);
      }
    }
  }

  /* ---------- parse_cli_to_nested_config ---------- */

  /** The position of the first '.' in `s`, if any. */
  function DotIndex(s: string): (r: Option<nat>)
    ensures r.Some? ==> r.value < |s| && s[r.value] == '.' && '.' !in s[..r.value]
    ensures r.None? ==> '.' !in s
  {
    if s == [] then None
    else if s[0] == '.' then Some(0)
    else match DotIndex(s[1..])
      case None => None
      case Some(i) =>
        assert s[..i + 1] == [s[0]] + s[1..][..i];
        Some(i + 1)
  }

  /** `s.split('.')`. */
  function SplitDots(s: string): (r: seq<string>)
    ensures |r| >= 1
    ensures forall j :: 0 <= j < |r| ==> '.' !in r[j]
    decreases |s|
  {
    match DotIndex(s)
    case None => [s]
    case Some(i) => [s[..i]] + SplitDots(s[i + 1..])
  }

  /** `'.'.join(parts)`. */
  function JoinDots(parts: seq<string>): string
    requires |parts| >= 1
  {
    if |parts| == 1 then parts[0] else parts[0] + "." + JoinDots(parts[1..])
  }

  /** Splitting on '.' and joining with '.' gives back the key. */
  lemma {:induction false} SplitJoin(s: string)
    ensures JoinDots(SplitDots(s)) == s
    decreases |s|
  {
    match DotIndex(s)
    case None =>
    case Some(i) =>
      SplitJoin(s[i + 1..]);
      assert SplitDots(s)[1..] == SplitDots(s[i + 1..]);
      assert s == s[..i] + "." + s[i + 1..];
  }

  /** The non-empty pieces of `parts`, in order. */
  function NonEmpty(parts: seq<string>): (r: seq<string>)
    ensures forall j :: 0 <= j < |r| ==> r[j] != "" && r[j] in parts
    ensures forall p {:trigger p in r} :: p in r <==> p in parts && p != ""
    ensures (forall j :: 0 <= j < |parts| ==> parts[j] != "") ==> r == parts
  {
    if parts == [] then []
    else
      assert parts == [parts[0]] + parts[1..];
      if parts[0] == "" then NonEmpty(parts[1..])
      else [parts[0]] + NonEmpty(parts[1..])
  }

  /** Filtering keeps the order of the pieces: the filter of a concatenation is the concatenation of the filters. */
  lemma {:induction false} NonEmptyAppend(a: seq<string>, b: seq<string>)
    ensures NonEmpty(a + b) == NonEmpty(a) + NonEmpty(b)
  {
    if a == [] {
      assert a + b == b;
    } else {
      assert (a + b)[1..] == a[1..] + b;
      NonEmptyAppend(a[1..], b);
    }
  }

  /** `[key for key in full_key.split('.') if key != '']`: every non-empty piece of the split, in order. */
  function Segments(fullKey: string): (r: seq<string>)
    ensures forall j :: 0 <= j < |r| ==> r[j] != "" && '.' !in r[j]
    ensures forall p :: p in r <==> p in SplitDots(fullKey) && p != ""
    ensures (forall j :: 0 <= j < |SplitDots(fullKey)| ==> SplitDots(fullKey)[j] != "") ==> r == SplitDots(fullKey)
  {
    NonEmpty(SplitDots(fullKey))
  }

  /** A key without a dot is a single piece. */
  lemma SplitDotsWhole(s: string)
    requires '.' !in s
    ensures SplitDots(s) == [s]
  {
  }

  /** The split of `a.b`, for a first piece `a` without a dot, is `a` followed by the split of `b`. */
  lemma SplitDotsCons(a: string, b: string)
    requires '.' !in a
    ensures SplitDots(a + "." + b) == [a] + SplitDots(b)
  {
    var s := a + "." + b;
    assert s[..|a|] == a && s[|a|] == '.' && s[|a| + 1..] == b;
    assert DotIndex(s) == Some(|a|) by {
      assert forall v :: 0 <= v < |a| ==> s[v] == a[v];
      assert forall v :: |a| < v <= |s| ==> s[..v][|a|] == '.';
    }
  }

  /** Splitting a dot-joined list of dot-free pieces gives back the pieces. */
  lemma {:induction false} JoinSplit(parts: seq<string>)
    requires |parts| >= 1 && forall j :: 0 <= j < |parts| ==> '.' !in parts[j]
    ensures SplitDots(JoinDots(parts)) == parts
    decreases |parts|
  {
    if |parts| == 1 {
      SplitDotsWhole(parts[0]);
    } else {
      JoinSplit(parts[1..]);
      SplitDotsCons(parts[0], JoinDots(parts[1..]));
    }
  }

  /** The segments of a dot-joined key are its non-empty pieces, in order: empty pieces from leading, doubled or trailing dots are dropped. */
  lemma SegmentsOfJoin(parts: seq<string>)
    requires |parts| >= 1 && forall j :: 0 <= j < |parts| ==> '.' !in parts[j]
    ensures Segments(JoinDots(parts)) == NonEmpty(parts)
  {
    JoinSplit(parts);
  }

  /** Python's `str.isspace` for one character. */
  predicate IsSpace(c: char) {
    '\t' <= c <= '\r' || '\U{1C}' <= c <= ' ' || c == '\U{85}' || c == '\U{A0}' || c == '\U{1680}'
    || '\U{2000}' <= c <= '\U{200A}' || c == '\U{2028}' || c == '\U{2029}' || c == '\U{202F}'
    || c == '\U{205F}' || c == '\U{3000}'
  }

  /** `not value.strip()`. */
  predicate IsBlank(s: string) {
    forall i :: 0 <= i < |s| ==> IsSpace(s[i])
  }

  /**
   * The value `_put_nested_dict` stores: a non-blank string goes through the YAML scalar
   * parser (`coerce`, None when it raises, in which case the text is kept); anything
   * else is kept as it is.
   */
  function Coerce(value: string, coerce: string -> Option<Json>): (r: Json)
    ensures IsBlank(value) ==> r == Str(value)
    ensures coerce(value).None? ==> r == Str(value)
    ensures !IsBlank(value) && coerce(value).Some? ==> r == coerce(value).value
  {
    if IsBlank(value) then Str(value)
    else match coerce(value)
      case Some(j) => j
      case None => Str(value)
  }

  /** The value at a path of nested dicts, if every step is a dict holding the next key. */
  function GetPath(o: Object, p: seq<string>): Option<Json>
    requires p != []
    decreases |p|
  {
    match Lookup(o, p[0])
    case None => None
    case Some(v) =>
      if |p| == 1 then Some(v)
      else if v.Obj? then GetPath(v.fields, p[1..])
      else None
  }

  /** The dict under `k`, or a fresh `{}` where there is none. */
  function ChildDict(o: Object, k: string): Object {
    match Lookup(o, k)
    case Some(Obj(c)) => c
    case _ => []
  }

  /**
   * The nested dict after `_put_nested_dict(nested, keys, v)`: every intermediate that is
   * missing or not a dict becomes `{}`, and the last key is set to `v`.
   */
  function SetPath(o: Object, keys: seq<string>, v: Json): Object
    requires keys != []
    decreases |keys|
  {
    if |keys| == 1 then SetKey(o, keys[0], v)
    else SetKey(o, keys[0], Obj(SetPath(ChildDict(o, keys[0]), keys[1..], v)))
  }

  /** `_put_nested_dict(nested, keys, value)`. */
  function PutNestedDict(nested: Object, keys: seq<string>, value: string, coerce: string -> Option<Json>): Object
    requires keys != []
  {
    SetPath(nested, keys, Coerce(value, coerce))
  }

  /** The path just written holds the value written. */
  lemma {:induction false} SetPathGet(o: Object, keys: seq<string>, v: Json)
    requires keys != []
    ensures GetPath(SetPath(o, keys, v), keys) == Some(v)
    decreases |keys|
  {
    if |keys| == 1 {
      SetKeySame(o, keys[0], v);
    } else {
      var child := SetPath(ChildDict(o, keys[0]), keys[1..], v);
      SetKeySame(o, keys[0], Obj(child));
      SetPathGet(ChildDict(o, keys[0]), keys[1..], v);
    }
  }

  /** Two paths that part at some step: neither is a prefix of the other. */
  predicate Diverge(p: seq<string>, q: seq<string>)
    requires p != [] && q != []
    decreases |p|
  {
    p[0] != q[0] || (|p| > 1 && |q| > 1 && Diverge(p[1..], q[1..]))
  }

  /** Writing a path leaves every path that parts from it as it was. */
  lemma {:induction false} SetPathOther(o: Object, keys: seq<string>, v: Json, p: seq<string>)
    requires keys != [] && p != [] && Diverge(p, keys)
    ensures GetPath(SetPath(o, keys, v), p) == GetPath(o, p)
    decreases |keys|
  {
    if p[0] != keys[0] {
      if |keys| == 1 {
        SetKeyOther(o, keys[0], v, p[0]);
      } else {
        SetKeyOther(o, keys[0], Obj(SetPath(ChildDict(o, keys[0]), keys[1..], v)), p[0]);
      }
    } else {
      var child := ChildDict(o, keys[0]);
      SetKeySame(o, keys[0], Obj(SetPath(child, keys[1..], v)));
      SetPathOther(child, keys[1..], v, p[1..]);
      match Lookup(o, p[0])
      case Some(Obj(c)) =>
      case _ =>
        assert GetPath([], p[1..]) == None;
    }
  }

  /** Writing a path adds its first key to the top-level keys and no other. */
  lemma SetPathKeys(o: Object, keys: seq<string>, v: Json)
    requires keys != []
    ensures KeySet(SetPath(o, keys, v)) == KeySet(o) + {keys[0]}
  {
    if |keys| == 1 {
      SetKeyKeys(o, keys[0], v);
    } else {
      SetKeyKeys(o, keys[0], Obj(SetPath(ChildDict(o, keys[0]), keys[1..], v)));
    }
  }

  /** Whether a CLI key is used, and if so the path it writes (`nested_keys[1:]`). */
  function CliPath(fullKey: string): (r: Option<seq<string>>)
    ensures r.Some? ==> |r.value| >= 2 && IsTopField(r.value[1])
  {
    var segs := Segments(fullKey);
    if |segs| < 3 || segs[0] != "tool" || !IsTopField(segs[2]) then None
    else Some(segs[1..])
  }

  /** The nested overrides after the CLI entries from `i` on, starting from `nested`. */
  function CliFrom(overrides: seq<(string, string)>, i: nat, nested: Object, coerce: string -> Option<Json>): Object
    requires i <= |overrides|
    decreases |overrides| - i
  {
    if i == |overrides| then nested
    else
      match CliPath(overrides[i].0)
      case None => CliFrom(overrides, i + 1, nested, coerce)
      case Some(path) => CliFrom(overrides, i + 1, PutNestedDict(nested, path, overrides[i].1, coerce), coerce)
  }

  /** `parse_cli_to_nested_config(cli_tool_overrides)`. */
  method ParseCliToNestedConfig(overrides: seq<(string, string)>, coerce: string -> Option<Json>) returns (nested: Object)
    ensures nested == CliFrom(overrides, 0, [], coerce)
  {
    nested := [];
    if overrides == [] {
      return;
    }
    for i := 0 to |overrides|
      invariant CliFrom(overrides, 0, [], coerce) == CliFrom(overrides, i, nested, coerce)
    {
      var (fullKey, rawValue) := overrides[i];
      var path := CliPath(fullKey);
      if path.None? {
        continue;
      }
      nested := PutNestedDict(nested, path.value, rawValue, coerce);
    }
  }

  /** Overrides as the CLI produces them: each tool maps to a dict whose keys are supported fields. */
  predicate CliShaped(nested: Object) {
    forall e :: e in nested ==> e.1.Obj? && forall f :: f in KeySet(e.1.fields) ==> IsTopField(f)
  }

  lemma CliEntryShaped(nested: Object, path: seq<string>, v: Json)
    requires CliShaped(nested) && |path| >= 2 && IsTopField(path[1])
    ensures CliShaped(SetPath(nested, path, v))
  {
    var child := ChildDict(nested, path[0]);
    var updated := SetPath(child, path[1..], v);
    SetPathKeys(child, path[1..], v);
    assert KeySet(child) <= KeySet(child) by {
      match Lookup(nested, path[0])
      case Some(Obj(c)) => assert (path[0], Obj(c)) in nested;
      case _ =>
    }
    forall f | f in KeySet(child)
      ensures IsTopField(f)
    {
      match Lookup(nested, path[0])
      case Some(Obj(c)) => assert (path[0], Obj(c)) in nested;
      case _ =>
    }
    forall e | e in SetPath(nested, path, v)
      ensures e.1.Obj? && forall f :: f in KeySet(e.1.fields) ==> IsTopField(f)
    {
      SetKeyEntries(nested, path[0], Obj(updated), e);
    }
  }

  lemma {:induction false} CliFromShaped(overrides: seq<(string, string)>, i: nat, nested: Object, coerce: string -> Option<Json>)
    requires i <= |overrides| && CliShaped(nested)
    ensures CliShaped(CliFrom(overrides, i, nested, coerce))
    decreases |overrides| - i
  {
    if i < |overrides| {
      match CliPath(overrides[i].0)
      case None => CliFromShaped(overrides, i + 1, nested, coerce);
      case Some(path) =>
        CliEntryShaped(nested, path, Coerce(overrides[i].1, coerce));
        CliFromShaped(overrides, i + 1, PutNestedDict(nested, path, overrides[i].1, coerce), coerce);
    }
  }

  /**
   * Every tool the CLI overrides maps to a dict holding only `display_name`,
   * `description`, `args` or `max_size_limit`.
   */
  lemma CliConfigShaped(overrides: seq<(string, string)>, coerce: string -> Option<Json>)
    ensures CliShaped(CliFrom(overrides, 0, [], coerce))
  {
    CliFromShaped(overrides, 0, [], coerce);
  }

  /** A used CLI entry stores its coerced value at `segments[1:]`. */
  lemma CliEntryStored(nested: Object, fullKey: string, value: string, coerce: string -> Option<Json>)
    requires CliPath(fullKey).Some?
    ensures GetPath(PutNestedDict(nested, CliPath(fullKey).value, value, coerce), Segments(fullKey)[1..]) == Some(Coerce(value, coerce))
  {
    SetPathGet(nested, CliPath(fullKey).value, Coerce(value, coerce));
  }

  /**
   * The skip rule of `parse_cli_to_nested_config`, stated over the key's segments: an
   * entry is skipped exactly when it has fewer than three segments, does not start with
   * `tool`, or names an unsupported field. `CliPath` is defined by this rule; which
   * segments a key has is fixed by `Segments` and `SegmentsOfJoin`.
   */
  lemma CliEntrySkipped(fullKey: string)
    ensures CliPath(fullKey).None? <==>
      var segs := Segments(fullKey);
      |segs| < 3 || segs[0] != "tool" || !IsTopField(segs[2])
  {
  }
}
