/**
 * The request-shaping rules inside the REST wrappers of the OpenSearch helper: the
 * size a search asks for, the cut of the long-running task list, and the path of a
 * nodes-info request. The client calls around them are outside this model.
 */
module RequestShaping {
  import opened Wrappers
  import opened JsonValues
  import Normalizer

  /** The number of hits a search asks for when the caller gives none (or 0). */
  const DefaultSize: int := 10

  /** The largest number of hits a search may ask for. */
  const MaxSize: int := 100

  /** `min(args.size, 100) if args.size else 10`. */
  function EffectiveSize(size: Option<int>): (r: int)
    ensures size.None? || size.value == 0 ==> r == DefaultSize
    ensures size.Some? && size.value != 0 ==> r <= size.value && r <= MaxSize && (r == size.value || r == MaxSize)
  {
    if size.Some? && size.value != 0 then
      if size.value < MaxSize then size.value else MaxSize
    else DefaultSize
  }

  /** The size never exceeds the maximum, and a positive size is kept within 1..100. */
  lemma EffectiveSizeBounds(size: Option<int>)
    ensures EffectiveSize(size) <= MaxSize
    ensures size.None? || size.value >= 0 ==> 1 <= EffectiveSize(size)
    ensures size.Some? && 0 < size.value <= MaxSize ==> EffectiveSize(size) == size.value
  {
  }

  /** Why a search body cannot be built: the query text is not JSON, or it is not a dict. */
  datatype BodyError = JsonDecodeError | NotADict

  /**
   * The body `search_index` sends: the normalized query with `size` set to the effective
   * size. A query that is not a dict fails on the assignment.
   */
  function SearchBody(query: Json, size: Option<int>, loads: string -> Option<Json>): (r: Result<Object, BodyError>)
    ensures r.Err? <==> Normalizer.NormalizeScientificNotation(query, loads).Err? ||
                        !Normalizer.NormalizeScientificNotation(query, loads).value.Obj?
    ensures r.Err? && Normalizer.NormalizeScientificNotation(query, loads).Err? ==> r.error == JsonDecodeError
  {
    match Normalizer.NormalizeScientificNotation(query, loads)
    case Err(_) => Err(JsonDecodeError)
    case Ok(body) =>
      if body.Obj? then Ok(SetKey(body.fields, "size", Int(EffectiveSize(size))))
      else Err(NotADict)
  }

  /**
   * The body holds the effective size, keeps every other entry of the normalized query,
   * and gains no key other than `size`.
   */
  lemma SearchBodyContents(query: Json, size: Option<int>, loads: string -> Option<Json>, k: string)
    requires SearchBody(query, size, loads).Ok?
    ensures var body := SearchBody(query, size, loads).value;
      var normalized := Normalizer.NormalizeScientificNotation(query, loads).value;
      && Lookup(body, "size") == Some(Int(EffectiveSize(size)))
      && (k != "size" ==> Lookup(body, k) == Lookup(normalized.fields, k))
      && KeySet(body) == KeySet(normalized.fields) + {"size"}
  {
    var normalized := Normalizer.NormalizeScientificNotation(query, loads).value;
    var v := Int(EffectiveSize(size));
    SetKeySame(normalized.fields, "size", v);
    if k != "size" {
      SetKeyOther(normalized.fields, "size", v, k);
    }
    SetKeyKeys(normalized.fields, "size", v);
  }

  /** Python's `items[:n]`: a negative `n` counts from the end; the cut is clipped to the list. */
  function SlicePrefix<T>(items: seq<T>, n: int): (r: seq<T>)
    ensures 0 <= n ==> r == items[..if n < |items| then n else |items|]
    ensures n < 0 ==> r == items[..if -n < |items| then |items| + n else 0]
  {
    var end := if n < 0 then |items| + n else n;
    items[..if end < 0 then 0 else if end < |items| then end else |items|]
  }

  /** `response[: args.limit]` when the limit is truthy and the response is a list; the response otherwise. */
  function TruncateTasks(limit: Option<int>, response: Json): (r: Json)
    ensures !(limit.Some? && limit.value != 0 && response.Arr?) ==> r == response
  {
    if limit.Some? && limit.value != 0 && response.Arr? then Arr(SlicePrefix(response.items, limit.value))
    else response
  }

  /** A truncated task list is a prefix of the reply; a positive limit keeps `min(limit, |tasks|)` tasks. */
  lemma TruncateTasksPrefix(limit: Option<int>, response: Json)
    requires response.Arr?
    ensures TruncateTasks(limit, response).Arr?
    ensures var kept := TruncateTasks(limit, response).items;
      && |kept| <= |response.items|
      && kept == response.items[..|kept|]
      && (limit.Some? && limit.value > 0 ==> |kept| == if limit.value < |response.items| then limit.value else |response.items|)
      && (limit.Some? && limit.value < 0 ==> |kept| == if -limit.value < |response.items| then |response.items| + limit.value else 0)
  {
  }

  /** Python's `'/'.join(parts)`. */
  function JoinPath(parts: seq<string>): string {
    if parts == [] then ""
    else if |parts| == 1 then parts[0]
    else parts[0] + "/" + JoinPath(parts[1..])
  }

  /** The path `get_nodes_info` requests: `/_nodes`, then each non-empty filter it is given. */
  function NodesUrl(nodeId: Option<string>, metric: Option<string>): string {
    var parts := ["/_nodes"]
      + (if nodeId.Some? && nodeId.value != "" then [nodeId.value] else [])
      + (if metric.Some? && metric.value != "" then [metric.value] else []);
    JoinPath(parts)
  }

  /** The nodes path is `/_nodes`, then `/` and the node id if given, then `/` and the metric if given. */
  lemma NodesUrlForm(nodeId: Option<string>, metric: Option<string>)
    ensures NodesUrl(nodeId, metric) ==
      "/_nodes"
      + (if nodeId.Some? && nodeId.value != "" then "/" + nodeId.value else "")
      + (if metric.Some? && metric.value != "" then "/" + metric.value else "")
  {
    var id := if nodeId.Some? && nodeId.value != "" then [nodeId.value] else [];
    var m := if metric.Some? && metric.value != "" then [metric.value] else [];
    var parts := ["/_nodes"] + id + m;
    assert NodesUrl(nodeId, metric) == JoinPath(parts);
    if id != [] && m != [] {
      assert parts == ["/_nodes", nodeId.value, metric.value];
      assert JoinPath(parts[2..]) == metric.value;
      assert JoinPath(parts[1..]) == nodeId.value + "/" + metric.value;
    } else if id != [] {
      assert parts == ["/_nodes", nodeId.value];
      assert JoinPath(parts[1..]) == nodeId.value;
    } else if m != [] {
      assert parts == ["/_nodes", metric.value];
      assert JoinPath(parts[1..]) == metric.value;
    } else {
      assert parts == ["/_nodes"];
    }
  }
}
