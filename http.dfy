/** JSON responses: `json(body, init)` and `jsonError(status, error)`. */
module Http {
  import opened Common
  import opened JsonValues

  const ContentType := "Content-Type"
  const JsonContentType := "application/json"

  /** One own entry of `init.headers`; None is a value that is `undefined`. */
  type HeaderEntry = (string, Option<string>)

  /** The fields of a `ResponseInit` the code uses: `status` and record-form `headers`. */
  datatype ResponseInit = ResponseInit(status: Option<int>, headers: seq<HeaderEntry>)

  /** What a response carries: a value to serialise as JSON, or the relayed text stream. */
  datatype Body = JsonBody(value: Json) | TextStreamBody

  /** A response; an absent `status` in the init defaults to 200, as the platform does. */
  datatype Response = Response(status: int, headers: map<string, string>, body: Body)

  /** The keys written by the entries with a defined value. */
  function DefinedKeys(entries: seq<HeaderEntry>): set<string>
  {
    set i | 0 <= i < |entries| && entries[i].1.Some? :: entries[i].0
  }

  /** The value of the last entry for `key` whose value is defined. */
  function LastDefined(entries: seq<HeaderEntry>, key: string): (r: Option<string>)
    ensures r.Some? <==> key in DefinedKeys(entries)
  {
    if entries == [] then None
    else
      var last := entries[|entries| - 1];
      if last.0 == key && last.1.Some? then last.1
      else
        var r := LastDefined(entries[..|entries| - 1], key);
        assert DefinedKeys(entries) == DefinedKeys(entries[..|entries| - 1]) + (if last.1.Some? then {last.0} else {});
        r
  }

  /**
   * The header record `json` builds: Content-Type first, then every defined
   * entry, a later one overriding an earlier one and the default.
   */
  function MergedHeaders(entries: seq<HeaderEntry>): (h: map<string, string>)
    ensures h.Keys == DefinedKeys(entries) + {ContentType}
    ensures ContentType !in DefinedKeys(entries) ==> h[ContentType] == JsonContentType
  {
    map k | k in DefinedKeys(entries) + {ContentType} ::
      match LastDefined(entries, k)
      case Some(v) => v
      case None => JsonContentType
  }

  /** `json(body, init)` as a value. */
  function JsonResponse(body: Json, init: ResponseInit): Response
  {
    Response(init.status.GetOr(200), MergedHeaders(init.headers), JsonBody(body))
  }

  lemma DefinedKeysExtend(entries: seq<HeaderEntry>, e: HeaderEntry)
    ensures DefinedKeys(entries + [e]) == DefinedKeys(entries) + (if e.1.Some? then {e.0} else {})
  {
    var all := entries + [e];
    forall k | k in DefinedKeys(all) ensures k in DefinedKeys(entries) + (if e.1.Some? then {e.0} else {}) {
      var i :| 0 <= i < |all| && all[i].1.Some? && all[i].0 == k;
      if i < |entries| {
        assert entries[i] == all[i];
      }
    }
    forall k | k in DefinedKeys(entries) ensures k in DefinedKeys(all) {
      var i :| 0 <= i < |entries| && entries[i].1.Some? && entries[i].0 == k;
      assert all[i] == entries[i];
    }
    if e.1.Some? {
      assert all[|entries|] == e;
    }
  }

  lemma MergedHeadersExtend(entries: seq<HeaderEntry>, e: HeaderEntry)
    ensures MergedHeaders(entries + [e]) ==
      if e.1.Some? then MergedHeaders(entries)[e.0 := e.1.value] else MergedHeaders(entries)
  {
    var all := entries + [e];
    assert all[..|all| - 1] == entries;
    DefinedKeysExtend(entries, e);
  }

  lemma MergedHeadersValues(entries: seq<HeaderEntry>)
    ensures forall k :: k in MergedHeaders(entries) ==>
      MergedHeaders(entries)[k] == LastDefined(entries, k).GetOr(JsonContentType)
  {
  }

  lemma SliceSnoc(entries: seq<HeaderEntry>, i: nat)
    requires i < |entries|
    ensures entries[..i + 1] == entries[..i] + [entries[i]]
  {
  }

  /**
   * `json(body, init)`: the header loop over `Object.entries(init.headers)`,
   * writing `String(value)` for every defined value.
   */
  method Json(body: Json, init: ResponseInit) returns (response: Response)
    ensures response == JsonResponse(body, init)
    ensures response.status == init.status.GetOr(200)
    ensures response.headers.Keys == DefinedKeys(init.headers) + {ContentType}
    ensures forall k :: k in response.headers ==>
      response.headers[k] == LastDefined(init.headers, k).GetOr(JsonContentType)
  {
    var headers := map[ContentType := JsonContentType];
    assert init.headers[..0] == [];
    assert headers == MergedHeaders([]);
    var i := 0;
    while i < |init.headers|
      invariant 0 <= i <= |init.headers|
      invariant headers == MergedHeaders(init.headers[..i])
    {
      var (key, value) := init.headers[i];
      SliceSnoc(init.headers, i);
      MergedHeadersExtend(init.headers[..i], init.headers[i]);
      if value.Some? {
        headers := headers[key := value.value];
      }
      i := i + 1;
    }
    assert init.headers[..i] == init.headers;
    MergedHeadersValues(init.headers);
    response := Response(init.status.GetOr(200), headers, JsonBody(body));
  }

  /** `{ error }` */
  function ErrorBody(error: string): Json
  {
    JObject(map["error" := JString(error)])
  }

  /** `jsonError(status, error)`, which is `json({ error }, { status })`. */
  function JsonError(status: int, error: string): (r: Response)
    ensures r == JsonResponse(ErrorBody(error), ResponseInit(Some(status), []))
    ensures r.status == status
    ensures r.headers == map[ContentType := JsonContentType]
    ensures r.body == JsonBody(JObject(map["error" := JString(error)]))
  {
    assert DefinedKeys([]) == {};
    JsonResponse(ErrorBody(error), ResponseInit(Some(status), []))
  }

  /** Without header entries the only header is the JSON content type. */
  lemma DefaultHeadersOnly(entries: seq<HeaderEntry>)
    requires forall i :: 0 <= i < |entries| ==> entries[i].1.None?
    ensures MergedHeaders(entries) == map[ContentType := JsonContentType]
  {
    assert DefinedKeys(entries) == {};
  }

  /** A defined Content-Type entry replaces the default. */
  lemma ContentTypeOverride(entries: seq<HeaderEntry>, v: string)
    ensures MergedHeaders(entries + [(ContentType, Some(v))])[ContentType] == v
  {
    MergedHeadersExtend(entries, (ContentType, Some(v)));
  }

  /** An entry whose value is undefined changes nothing; the last defined entry for a key wins. */
  lemma UndefinedEntrySkipped(entries: seq<HeaderEntry>, key: string, v: string)
    ensures MergedHeaders(entries + [(key, None)]) == MergedHeaders(entries)
    ensures var m := MergedHeaders(entries + [(key, Some(v))] + [(key, None)]); key in m && m[key] == v
  {
    MergedHeadersExtend(entries, (key, None));
    MergedHeadersExtend(entries, (key, Some(v)));
    MergedHeadersExtend(entries + [(key, Some(v))], (key, None));
  }
}
