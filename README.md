# opensearch-mcp-server-py: result rendering, request shaping and tool configuration

This Dafny project models the pure core of the OpenSearch MCP server. Three parts of
`src/opensearch/helper.py` and most of `src/tools/config.py` are modelled.

- **Scientific-notation normalizer** (`plain_float`, `_convert_value`,
  `normalize_scientific_notation`). Every finite float in a request body is rewritten as
  the plain decimal it denotes. It becomes an int when the text has no fractional digit
  and a float otherwise. NaN and the infinities become null.
- **Search-result renderer** (`convert_search_results_to_csv`, `_convert_hits_to_csv`,
  `_flatten_fields`, `_flatten_object`). A search response becomes one of these:
  - a fixed message;
  - the indented aggregations;
  - a CSV table of the hits;
  - both the table and the aggregations, under headings.

  Each hit's `_source` is flattened into dotted column names. The header is the sorted
  union of all columns. Rows are written with the CSV writer's default dialect.
- **Request shaping** inside the REST wrappers:
  - the `size` of a search, clamped to 100 with a default of 10;
  - the `[:limit]` cut of the long-running task list;
  - the path of a nodes-info request.
- **Tool configuration** (`config.py`). Tool overrides come from a YAML `tools` mapping,
  or otherwise from `tool.<Tool>.<path>=<value>` command-line entries. The model covers:
  - parsing both sources into one nested shape;
  - validating the whole set at once: known tools, display-name conflicts, the
    display-name pattern, and argument names and descriptions;
  - applying the overrides to a copy of the registry;
  - updating the module's default registry.

JSON values are a `Json` datatype. A dict is an ordered list of entries (`Object`), so
key order and Python's replace-in-place assignment are visible. A float is represented by
`Decimal(str(x))`, its shortest decimal text. Library calls are parameters:
`json.dumps`, `str`, `json.loads` and the scalar coercion of `yaml.safe_load`. Python
exceptions become `Err` results:
- `ValueError` keeps its cause: unknown tool, display-name conflict, bad pattern, unknown
  argument, invalid field, or non-string description.
- `KeyError` keeps its key.
- `TypeError` and `AttributeError` become `WrongType`.

Modules, one per file:
- `JsonValues` (`json.dfy`): the value model and dict operations.
- `Normalizer` (`normalizer.dfy`).
- `StringOrder` (`string_order.dfy`): Python's `sorted` on strings.
- `Csv` (`csv.dfy`): writing records, with a reader as its partner.
- `SearchRenderer` (`search_renderer.dfy`).
- `RequestShaping` (`request_shaping.dfy`).
- `ConfigParsing` (`config_parsing.dfy`): the pattern, `_parse_args_map`,
  `_load_config_from_file`, `_put_nested_dict` and `parse_cli_to_nested_config`.
- `ToolConfig` (`tool_config.dfy`): validation, application, and the `ToolStore` class
  that holds the default registry.

Each Python loop that accumulates a result (the column, row and record loops, the
configuration loaders, the validation checks and the application of overrides) is a
method proved equal to a recursive function "from step i on". What the loop promises is
then proved about that function. Two loops are modelled by their recursive function
alone: the cursor walk of `_put_nested_dict` (`SetPath`, see "## Left out") and the
dict and list comprehensions of `_convert_value` (`ConvertValue`).

Where the code departs from its own documentation, or behaves in a way a caller may not
expect, the model follows the code:
- **Empty `tools` mapping.** The docstring of `apply_custom_tool_config`
  (src/tools/config.py:248) says the command line is completely ignored when a
  configuration file is provided. But `if config_from_file:` (src/tools/config.py:270)
  uses the file's `tools` value only when it is truthy. A file holding `tools: {}`
  therefore falls back to the command-line overrides (`FileOverridesWin`,
  `CliUsedWithoutFileTools`).
- **Falsy display name.** A falsy display name (`""`, `null`, `0`) skips the conflict and
  pattern checks (src/tools/config.py:146-161). It is still assigned to the tool.
- **Taking a configured tool's name.** The docstring of `_validate_config`
  (src/tools/config.py:129) promises that no duplicate display names will be created. The
  conflict check starts from the registered names minus every configured tool's name,
  though. So tool `a` may take the name `b` of another configured tool that keeps its own
  name, and both tools then go by `b` (`ConfiguredNameReusable`).
- **The renderer can raise.** In `convert_search_results_to_csv`, a `hits` entry that is
  not a dict holding `hits` raises `KeyError` or `TypeError` at
  src/opensearch/helper.py:303 (`HitsMalformed`).
- **Files accept `max_size_limit`.** `max_size_limit` is accepted in a file's tool entry,
  next to `display_name`, `description` and `args` (src/tools/config.py:58). The error
  message for any other field (src/tools/config.py:62-65) still names only the first
  three (`EntriesFromCopies`).
- **The `http_methods` example.** The docstring example `tool.ListIndexTool.http_methods=POST`
  (src/tools/config.py:95-96) is skipped by the code, because `http_methods` is not an
  accepted field.

## Model

| member | source | states |
|---|---|---|
| Normalizer.Normalize | src/opensearch/helper.py:452 | `Decimal.normalize()` gives a normalised decimal (no trailing zero in the coefficient, zero with exponent 0) with the same sign |
| Normalizer.NormalizeKeepsValue | src/opensearch/helper.py:452 | normalising only removes factors of ten: coefficient × 10^exp is unchanged, and zero becomes `0` with exponent 0 |
| Normalizer.FormatFixed | src/opensearch/helper.py:453 | definition of `format(d, "f")`; its two shapes are proved by FormatWhole and FormatPoint, and the text it leaves by PlainTextShape |
| Normalizer.TrimFixed | src/opensearch/helper.py:454-457 | the trimmed text is never "" or "-" and never ends in a point, and a text without a point is kept (or becomes "0") |
| Normalizer.PlainText | src/opensearch/helper.py:452-457 | definition of the text `plain_float` parses; its shape is proved by PlainTextShape and its value by ParseFloatRoundTrip and PlainFloatIntegral |
| Normalizer.PlainTextShape | src/opensearch/helper.py:452-457 | the trimmed fixed-point text is never "" or "-", never ends in a point, has no trailing fractional zero, and has a point exactly when the normalised exponent is negative |
| Normalizer.ParseFloatRoundTrip | src/opensearch/helper.py:452-462 | reading back the text of a normalised fractional decimal gives the same decimal |
| Normalizer.PlainFloat | src/opensearch/helper.py:449-462 | None, NaN and the infinities give null; a finite float gives an int exactly when its text has no point, and a float otherwise |
| Normalizer.PlainFloatIntegral | src/opensearch/helper.py:459-460 | a float whose normalised exponent is non-negative becomes the int ± coefficient × 10^exponent |
| Normalizer.PlainFloatScaled | src/opensearch/helper.py:449-462 | a float written with a non-negative exponent becomes the int its digits times the power of ten denote |
| Normalizer.PlainFloatFractional | src/opensearch/helper.py:461-462 | a float with a fractional part comes back as the same normalised decimal |
| Normalizer.PlainFloatLargeExample | tests/opensearch/test_helper.py:533-540 | `1732693003E+3` (text `1732693003000.0`) becomes the int 1732693003000 |
| Normalizer.PlainFloatFractionalExample | tests/opensearch/test_helper.py:534-541 | `173.5` stays the float 173.5 |
| Normalizer.PlainFloatIsPlain | src/opensearch/helper.py:449-462 | the result of `plain_float` is already plain (null, an int, or a float equal to its own normalised form) |
| Normalizer.ConvertValue | src/opensearch/helper.py:465-490 | definition of `_convert_value`; its properties are proved by ConvertKeepsShape, ConvertWithoutFloats, ConvertMakesFloatsPlain, ConvertPlainIsIdentity and ConvertIdempotent |
| Normalizer.ConvertKeepsShape | src/opensearch/helper.py:483-490 | `_convert_value` keeps the shape: the same keys in the same order, the same list lengths, and non-float scalars unchanged |
| Normalizer.ConvertWithoutFloats | src/opensearch/helper.py:483-490 | a value without floats is returned unchanged |
| Normalizer.ConvertMakesFloatsPlain | src/opensearch/helper.py:483-490 | every float in the result is plain |
| Normalizer.ConvertPlainIsIdentity | src/opensearch/helper.py:483-490 | a value whose floats are all plain is returned unchanged |
| Normalizer.ConvertIdempotent | src/opensearch/helper.py:483-490 | converting twice gives the same value as converting once |
| Normalizer.NormalizeScientificNotation | src/opensearch/helper.py:522-528 | fails exactly when the body is a string that `json.loads` rejects; otherwise the result has the shape of the (decoded) body and all its floats are plain |
| StringOrder.LessTransitive | src/opensearch/helper.py:344 | the code-point order `sorted` uses on strings is transitive (with LessIrreflexive, LessAsymmetric and LessTotal: a strict total order) |
| StringOrder.LessTotal | src/opensearch/helper.py:344 | any two different strings are ordered one way or the other |
| StringOrder.Sorted | src/opensearch/helper.py:344 | `sorted(list(all_fields))` is strictly ascending and holds exactly the elements of the set |
| StringOrder.SortedUnique | src/opensearch/helper.py:344 | two strictly ascending sequences with the same elements are equal, so the header does not depend on set iteration order |
| Csv.Field | src/opensearch/helper.py:348-363 | a field is written as is unless it holds a comma, a quote, CR or LF, in which case it is enclosed in quotes |
| Csv.Record | src/opensearch/helper.py:349-363 | every record the writer emits ends with CRLF |
| Csv.ReadWrittenField | src/opensearch/helper.py:348-363 | reading a written field back stops exactly at the field's end and gives the original text |
| Csv.ReadJoin | src/opensearch/helper.py:348-363 | reading the comma-joined written fields gives back the fields |
| Csv.ReadWrittenRecord | src/opensearch/helper.py:349-363 | reading a written record (without its CRLF) gives back the fields it was written from |
| SearchRenderer.Contains | src/opensearch/helper.py:303-304 | `key in v` is dict-key membership for a dict, and raises a type error for a value that is not a dict, list or string |
| SearchRenderer.Subscript | src/opensearch/helper.py:303 | `v[key]` succeeds exactly on a dict holding the key and returns its value; a dict without it gives `KeyError(key)` |
| SearchRenderer.FlattenFields | src/opensearch/helper.py:376-385 | `_flatten_fields` adds to the set exactly the dotted names of the object's entries |
| SearchRenderer.FlattenObject | src/opensearch/helper.py:396-409 | `_flatten_object` leaves the row the flattening of the object's entries makes of it |
| SearchRenderer.RowAfterKeys | src/opensearch/helper.py:396-409 | flattening into a row adds exactly the column names `_flatten_fields` collects for the same object |
| SearchRenderer.EntryRowKeys | src/opensearch/helper.py:397-409 | one entry adds exactly its own dotted names to the row's keys |
| SearchRenderer.EntryCell | src/opensearch/helper.py:400-409 | a list is stored as its JSON text, null as "", a string as itself, and any other scalar as `str(value)` |
| SearchRenderer.RowAfterOther | src/opensearch/helper.py:396-409 | flattening leaves every key it does not produce as it was |
| SearchRenderer.MetaRow | src/opensearch/helper.py:355-357 | the row starts with exactly the keys `_index`, `_id`, `_score` |
| SearchRenderer.MetadataCell | src/opensearch/helper.py:355-361 | a metadata column holds the hit's own value (or "" when missing) unless the flattened `_source` produces the same name |
| SearchRenderer.HitRowKeys | src/opensearch/helper.py:336-361 | the keys of a hit's row are exactly the columns the first loop collects for that hit |
| SearchRenderer.AddHitColumns | src/opensearch/helper.py:338-341 | one pass adds the hit's flattened `_source` names and the metadata names; a hit that is not a dict, or whose `_source` is not a dict, fails |
| SearchRenderer.CollectColumns | src/opensearch/helper.py:336-341 | the first loop succeeds exactly when every item is a hit, and then yields the union of all hits' columns |
| SearchRenderer.ColumnOwner | src/opensearch/helper.py:336-341 | every collected column comes from some hit |
| SearchRenderer.ProductHitColumns | tests/opensearch/test_helper.py:289-318 | a hit with `_source` fields `name`, `price` and `category` contributes exactly those three columns and the metadata |
| SearchRenderer.ProductHeaderExample | tests/opensearch/test_helper.py:289-318 | two such hits give the header `_id,_index,_score,category,name,price` |
| SearchRenderer.HeaderColumns | src/opensearch/helper.py:336-344 | the header is sorted, holds the metadata names, and holds every column of every hit |
| SearchRenderer.RowFitsHeader | src/opensearch/helper.py:348-363 | every key of every row is in the header, so `DictWriter` never rejects a row |
| SearchRenderer.Cells | src/opensearch/helper.py:363 | a row is written with one cell per header column |
| SearchRenderer.WriteRows | src/opensearch/helper.py:352-363 | the second loop writes one record per hit, in hit order, under the header |
| SearchRenderer.RowReadsBack | src/opensearch/helper.py:352-363 | record `i` of the rows text starts right after the records of the hits before it, and a CSV reader reads it back as hit `i`'s cells, one per header column |
| SearchRenderer.ConvertHitsToCsv | src/opensearch/helper.py:332-365 | `_convert_hits_to_csv`: a message for no hits, an error for a malformed list, and otherwise the header record followed by the rows |
| SearchRenderer.ConvertSearchResultsToCsv | src/opensearch/helper.py:300-320 | a falsy response gives the no-results message; a dict without `hits` gives its indented aggregations, or the message when it has none |
| SearchRenderer.HitsLayout | src/opensearch/helper.py:303-320 | with a `hits.hits` value: the message, the aggregations, the hits table, or both under `SEARCH HITS:` and `AGGREGATIONS:`, decided by whether the hits are truthy and aggregations present |
| SearchRenderer.HitsMalformed | src/opensearch/helper.py:303 | a `hits` entry that is not a dict holding `hits` raises `KeyError('hits')` for a dict and a type error otherwise |
| RequestShaping.EffectiveSize | src/opensearch/helper.py:59 | a missing or zero size gives 10; any other size gives `min(size, 100)`: at most the size and at most 100, and equal to one of them |
| RequestShaping.EffectiveSizeBounds | src/opensearch/helper.py:58-59 | the size never exceeds 100, a non-negative request gives at least 1, and a size in 1..100 is kept |
| RequestShaping.SearchBody | src/opensearch/helper.py:56-60 | the body fails exactly when the query text does not decode or does not decode to a dict |
| RequestShaping.SearchBodyContents | src/opensearch/helper.py:56-60 | the body holds the effective size under `size`, keeps every other entry of the normalised query, and gains no other key |
| RequestShaping.SlicePrefix | src/opensearch/helper.py:255 | `items[:n]` for positive, zero and negative `n`, clipped to the list |
| RequestShaping.TruncateTasks | src/opensearch/helper.py:254-257 | a falsy limit or a reply that is not a list is returned unchanged |
| RequestShaping.TruncateTasksPrefix | src/opensearch/helper.py:254-255 | the truncated list is a prefix of the reply, of length `min(limit, n)` for a positive limit and `n + limit` (at least 0) for a negative one |
| RequestShaping.NodesUrl | src/opensearch/helper.py:273-283 | definition of the path built by joining `/_nodes` with the given node id and metric; its form is proved by NodesUrlForm |
| RequestShaping.NodesUrlForm | src/opensearch/helper.py:273-283 | the path is `/_nodes`, then `/node_id` when given and non-empty, then `/metric` when given and non-empty |
| ConfigParsing.NameRun | src/tools/config.py:18 | the longest prefix made of `[a-zA-Z0-9_-]` characters |
| ConfigParsing.IsValidDisplayNamePattern | src/tools/config.py:18-28 | `re.match('^[a-zA-Z0-9_-]+$', name)` succeeds exactly for a non-empty run of name characters, optionally followed by one final newline (`$` matches before a trailing newline) |
| ConfigParsing.ParseArgsMap | src/tools/config.py:31-45 | the loop returns what `_parse_args_map` returns |
| ConfigParsing.ParsedArgsMeaning | src/tools/config.py:38-44 | a mapping of string descriptions becomes `{arg: {description: text}}` for every argument; the first non-string description fails naming that argument and tool |
| ConfigParsing.ParsedArgsIgnored | src/tools/config.py:32-36 | `args` that is not a mapping is ignored (no arguments) |
| ConfigParsing.DescribedKeys | src/tools/config.py:38-40 | the parsed mapping has the same argument names as the raw one |
| ConfigParsing.LoadToolEntries | src/tools/config.py:53-67 | the inner loop returns the entries `_load_config_from_file` builds for one tool |
| ConfigParsing.LoadConfigFromFile | src/tools/config.py:48-69 | the outer loop returns what `_load_config_from_file` returns |
| ConfigParsing.EntriesFromCopies | src/tools/config.py:58-60 | `display_name`, `description` and `max_size_limit` are copied verbatim, whatever their type |
| ConfigParsing.EntriesFromRejects | src/tools/config.py:53-65 | any field other than `display_name`, `description`, `args` and `max_size_limit` makes the load fail; when no earlier entry of the tool fails first, the error is the ValueError naming that field and the tool |
| ConfigParsing.ToolsFromFirstError | src/tools/config.py:50-67 | the first tool whose overrides fail to load decides the error of the whole file |
| ConfigParsing.FileConfigsRejectsField | src/tools/config.py:48-69 | a file in which a tool names an unsupported field fails with the ValueError naming that field and that tool, when no earlier tool or field fails first |
| ConfigParsing.EntriesFromIgnoresArgs | src/tools/config.py:54-57 | an `args` value that is not a mapping adds nothing |
| ConfigParsing.EntriesFromKeeps | src/tools/config.py:53-60 | entries for keys the overrides do not name are left as they were |
| ConfigParsing.SplitDots | src/tools/config.py:109 | `split('.')` gives at least one part and no part holds a dot |
| ConfigParsing.SplitJoin | src/tools/config.py:109 | joining the parts with dots gives back the key |
| ConfigParsing.NonEmpty | src/tools/config.py:109 | the filter `if key != ''` keeps exactly the non-empty pieces, and a list with no empty piece is kept whole |
| ConfigParsing.NonEmptyAppend | src/tools/config.py:109 | the filter keeps the order of the pieces: filtering a concatenation concatenates the filtered parts |
| ConfigParsing.Segments | src/tools/config.py:109 | the segments of a key are exactly the non-empty pieces of its split on '.', each free of dots; a key without empty pieces keeps all of them |
| ConfigParsing.SplitDotsCons | src/tools/config.py:109 | splitting `a.b` with a dot-free first piece `a` gives `a` followed by the split of `b` |
| ConfigParsing.JoinSplit | src/tools/config.py:109 | splitting a dot-joined list of dot-free pieces gives back the pieces (the converse of SplitJoin) |
| ConfigParsing.SegmentsOfJoin | src/tools/config.py:109 | the segments of a dot-joined key are its non-empty pieces in order, so leading, doubled and trailing dots are dropped |
| ConfigParsing.CliEntrySkipped | src/tools/config.py:109-115 | an entry is skipped exactly when it has fewer than 3 segments, does not start with `tool`, or its third segment is not an accepted field |
| ConfigParsing.Coerce | src/tools/config.py:79-85 | a blank value is stored as the string itself without parsing; a value the YAML parser rejects is kept as text; any other value becomes the scalar it parses to |
| ConfigParsing.SetPath | src/tools/config.py:70-85 | definition of the nested write of `_put_nested_dict`; its effect is proved by SetPathGet, SetPathOther and SetPathKeys |
| ConfigParsing.PutNestedDict | src/tools/config.py:70-85 | definition of `_put_nested_dict`: the coerced value written at the path |
| ConfigParsing.SetPathGet | src/tools/config.py:72-87 | after `_put_nested_dict`, the value is found at the path |
| ConfigParsing.SetPathOther | src/tools/config.py:72-87 | every path that branches off the written one keeps its value |
| ConfigParsing.SetPathKeys | src/tools/config.py:72-87 | the top-level keys gain only the path's first key |
| ConfigParsing.CliEntryStored | src/tools/config.py:108-116 | an accepted entry stores its coerced value under `tool name / field / ...` |
| ConfigParsing.ParseCliToNestedConfig | src/tools/config.py:104-118 | the loop returns what `parse_cli_to_nested_config` returns |
| ConfigParsing.CliConfigShaped | src/tools/config.py:104-118 | the command-line result maps each tool to a dict whose keys are all accepted fields |
| ToolConfig.CheckKnownTools | src/tools/config.py:136-142 | the first validation loop returns what its recursive definition returns |
| ToolConfig.CheckDisplayNames | src/tools/config.py:145-152 | the second validation loop returns what its recursive definition returns |
| ToolConfig.CheckPatterns | src/tools/config.py:155-161 | the third validation loop returns what its recursive definition returns |
| ToolConfig.CheckArgs | src/tools/config.py:164-190 | the fourth validation loop returns what its recursive definition returns |
| ToolConfig.CheckToolArgs | src/tools/config.py:166-190 | one tool's argument check returns what its recursive definition returns |
| ToolConfig.ValidateConfig | src/tools/config.py:121-190 | `_validate_config` returns what `Validation` returns |
| ToolConfig.KnownMeaning | src/tools/config.py:136-142 | the first loop passes exactly when every configured tool is registered, and leaves the registered names minus the configured ones |
| ToolConfig.ConflictsMeaning | src/tools/config.py:145-152 | the second loop passes exactly when every truthy display name is hashable, not taken, and not used by an earlier tool |
| ToolConfig.PatternsMeaning | src/tools/config.py:155-161 | the third loop passes exactly when every truthy display name is a string matching the pattern |
| ToolConfig.ArgsMeaning | src/tools/config.py:164-190 | the fourth loop passes exactly when every tool's argument overrides pass their check |
| ToolConfig.ToolArgsMeaning | src/tools/config.py:179-190 | one tool's overrides pass exactly when every named argument is a property of the resolved schema and its overrides are a mapping whose description is absent, null or a string |
| ToolConfig.ValidationMeaning | src/tools/config.py:121-190 | validation succeeds exactly when all tools are known, all display names are free, all match the pattern, and all argument overrides pass |
| ToolConfig.SharedDisplayNameRejected | src/tools/config.py:145-152 | two configured tools taking the same display name are rejected |
| ToolConfig.RegisteredDisplayNameRejected | src/tools/config.py:136-152 | a display name equal to the name of a registered tool that is not configured is rejected |
| ToolConfig.ConfiguredNameReusable | src/tools/config.py:134-152 | a tool may take the name of another configured tool that keeps its own name |
| ToolConfig.ApplyArgs | src/tools/config.py:209-234 | the argument loop returns the schema its recursive definition describes |
| ToolConfig.ApplyToolConfig | src/tools/config.py:208-236 | the field loop returns the tool info its recursive definition describes |
| ToolConfig.ApplyValidatedConfigs | src/tools/config.py:202-236 | `_apply_validated_configs` returns the registry its recursive definition describes |
| ToolConfig.ApplyFromKeeps | src/tools/config.py:202-206 | applying keeps the registry's set of tools, and a tool without overrides is untouched |
| ToolConfig.ApplyFromTool | src/tools/config.py:202-236 | a configured tool in the registry ends with the info its own overrides make of it |
| ToolConfig.FieldsFromAssigns | src/tools/config.py:235-236 | a field other than `args` is assigned its override verbatim |
| ToolConfig.FieldsFromKeeps | src/tools/config.py:208-236 | a field the overrides do not name (nor `input_schema`, when `args` is given) keeps its value |
| ToolConfig.DescribeFromKeeps | src/tools/config.py:220-222 | describing keeps the set of properties, and a property no override names is untouched |
| ToolConfig.DescribeFromSets | src/tools/config.py:220-222 | an override with a description for an existing property sets that property's description |
| ToolConfig.DescribeHere | src/tools/config.py:221-222 | the override at hand sets its property's description, and later overrides leave it |
| ToolConfig.SchemaWithArgsOwnOnly | src/tools/config.py:211-215 | of the tool's info, the base schema reads only `input_schema` (then falls back to the default registry's, then `{}`) |
| ToolConfig.SchemaWithArgsOther | src/tools/config.py:211-217 | the new `input_schema` keeps every entry of the base schema other than `properties` |
| ToolConfig.SchemaWithArgsProperties | src/tools/config.py:216-234 | truthy `properties` are replaced by the described ones; otherwise the overrides go into a detached `{}` and the base schema is kept whole |
| ToolConfig.DescribeFromKeepsOtherFields | src/tools/config.py:220-222 | describing a property changes only its `description`: every other field of that property keeps its value |
| ToolConfig.FieldsFromArgs | src/tools/config.py:208-234 | the `args` override leaves `input_schema` as the described copy of the tool's original base schema, whatever other fields come before or after it |
| ToolConfig.ToolArgDescribed | src/tools/config.py:208-234 | after the overrides are applied, an argument given a `description` that the base schema has as a dict property carries that description in the tool's `input_schema` |
| ToolConfig.FileTools | src/tools/config.py:259-267 | a truthy `tools` value read from the file comes from the `tools` entry of a loaded dict, and a loaded dict with a `tools` entry yields that entry |
| ToolConfig.Overrides | src/tools/config.py:269-281 | definition of the choice of overrides; proved by FileOverridesWin and CliUsedWithoutFileTools |
| ToolConfig.CustomToolConfig | src/tools/config.py:256-286 | definition of the registry `apply_custom_tool_config` returns; proved by ValidationGuardsApply, CustomToolConfigKeys, ApplyFromTool and ApplyFromKeeps, and implemented by ToolStore.ApplyCustomToolConfig |
| ToolConfig.FileOverridesWin | src/tools/config.py:269-275 | when the file gives a truthy `tools` mapping, the command-line overrides play no part |
| ToolConfig.CliUsedWithoutFileTools | src/tools/config.py:259-278 | without a file, or when it has no truthy `tools` mapping (a load error included), the command-line overrides are used |
| ToolConfig.ValidationGuardsApply | src/tools/config.py:272-281 | when validation fails, nothing is applied and its error is the result |
| ToolConfig.CustomToolConfigKeys | src/tools/config.py:256-286 | the returned registry has exactly the tools of the one given |
| ToolConfig.ToolStore.constructor | src/tools/config.py:9 | the store starts with the default registry given |
| ToolConfig.ToolStore.ApplyCustomToolConfig | src/tools/config.py:256-286 | returns the overridden copy of the registry and merges it into the default registry on success; on an error the default registry is unchanged |

## Left out

- I/O and the client: the OpenSearch client calls, `get_opensearch_version` and the async wrappers around the request-shaping rules are not modelled; the shaping rules are functions of the wrappers' arguments.
- File reading: opening and parsing the YAML file is replaced by its parsed contents (`None` for no path or a load error), because file I/O and the YAML parser are outside a verifier's reach; the swallowed exception and its log line follow from that.
- Logging: the warning of `_parse_args_map` and the error log of `apply_custom_tool_config` are not modelled.
- Library serialisers: `json.dumps` (plain and indented), `str` of a non-string scalar, `json.loads` and the scalar coercion of `yaml.safe_load` are function parameters, so their exact output text is not modelled.
- Binary floats: a float is its shortest decimal text `str(x)`, and `float(s)` of the result text is the exact decimal it denotes; binary rounding and the `Decimal` context are not modelled.
- `args_model`: the best-effort update of a pydantic model's field description (config.py:218-233) is left out; it is reflection on a foreign object and its failures are swallowed.
- `tool_params.py` and the tool registry's contents are not part of this model; a registry is a map from tool name to its info dict.
- In-place mutation and aliasing: the dicts `_put_nested_dict`, `_flatten_object` and `_apply_validated_configs` mutate are modelled as values that each step returns; sharing between dicts (for example a `properties` entry shared by two schemas) is not modelled.
- Error kinds: `TypeError` and `AttributeError` are both `WrongType`, and the messages of exceptions are reduced to the values they name.
- Python's cross-type equality (`1 == 1.0 == True`) when a non-string display name is looked up in the set of names is not modelled; display names of different JSON kinds are distinct.
- Dict keys are strings: YAML mappings with non-string keys are not modelled.
- Duplicate keys: Python dicts have distinct keys, which the lemmas that need it (such as `ApplyFromTool`, `DescribeFromSets`, `KnownMeaning` and `ValidationMeaning`) take as a precondition.
- Concurrency: none in this core.
