/**
 * The login page's choice of where to send the user after signing in,
 * taken from the `next` query parameter.
 */
module Login {
  import opened Options
  import opened JsStrings

  /** One query-string entry: a single value, a repeated parameter, or `undefined`. */
  datatype ParamValue = Str(s: string) | Arr(items: seq<string>) | Undefined

  /** The page's `searchParams` record. */
  type SearchParams = map<string, ParamValue>

  const NextKey: string := "next"
  const DefaultPath: string := "/dashboard"

  /** `searchParams?.next`: undefined when the record or the key is absent. */
  function RawNext(params: Option<SearchParams>): (v: ParamValue)
    ensures params == None ==> v == Undefined
    ensures params.Some? && NextKey !in params.value ==> v == Undefined
    ensures params.Some? && NextKey in params.value ==> v == params.value[NextKey]
  {
    match params
    case None => Undefined
    case Some(m) => if NextKey in m then m[NextKey] else Undefined
  }

  /** `Array.isArray(raw) ? raw[0] : raw`, kept only when it is a string. */
  function NextValue(raw: ParamValue): (v: Option<string>)
    ensures v == None <==> raw == Undefined || raw == Arr([])
    ensures raw.Str? ==> v == Some(raw.s)
    ensures raw.Arr? && raw.items != [] ==> v == Some(raw.items[0])
  {
    match raw
    case Str(s) => Some(s)
    case Arr(items) => if items == [] then None else Some(items[0])
    case Undefined => None
  }

  /**
   * The redirect target: the `next` value when it is a string starting
   * with "/", and "/dashboard" otherwise. It always starts with "/".
   */
  function NextPath(params: Option<SearchParams>): (p: string)
    ensures StartsWith(p, "/")
    ensures p == DefaultPath || NextValue(RawNext(params)) == Some(p)
  {
    match NextValue(RawNext(params))
    case Some(v) => if StartsWith(v, "/") then v else DefaultPath
    case None => DefaultPath
  }

  /** A single `next` string that starts with "/" is used unchanged, whatever else the query holds. */
  lemma KeepsSlashPrefixed(m: SearchParams, v: string)
    requires StartsWith(v, "/")
    ensures NextPath(Some(m[NextKey := Str(v)])) == v
  {
  }

  /**
   * Every other case falls back to "/dashboard": no query at all, no
   * `next`, an empty array, or a value that does not start with "/".
   */
  lemma FallsBackToDashboard(params: Option<SearchParams>)
    requires params == None || NextKey !in params.value ||
      params.value[NextKey] == Undefined || params.value[NextKey] == Arr([]) ||
      (NextValue(params.value[NextKey]).Some? && !StartsWith(NextValue(params.value[NextKey]).value, "/"))
    ensures NextPath(params) == DefaultPath
  {
  }

  /** A path that is not "/dashboard" comes from a `next` value starting with "/". */
  lemma OnlyFromNext(params: Option<SearchParams>)
    requires NextPath(params) != DefaultPath
    ensures params.Some? && NextKey in params.value
    ensures NextValue(params.value[NextKey]) == Some(NextPath(params))
    ensures StartsWith(NextPath(params), "/")
  {
  }

  /** Of a repeated `next` parameter only the first occurrence matters. */
  lemma ArrayUsesFirstOnly(m: SearchParams, first: string, rest: seq<string>)
    ensures NextPath(Some(m[NextKey := Arr([first] + rest)])) == NextPath(Some(m[NextKey := Str(first)]))
  {
    assert ([first] + rest)[0] == first;
  }

  /** Feeding the chosen path back in as `next` chooses it again. */
  lemma NextPathIdempotent(params: Option<SearchParams>, m: SearchParams)
    ensures NextPath(Some(m[NextKey := Str(NextPath(params))])) == NextPath(params)
  {
    KeepsSlashPrefixed(m, NextPath(params));
  }

  /** The "/" test admits a protocol-relative URL, which names another host. */
  lemma AcceptsProtocolRelative()
    ensures NextPath(Some(map[NextKey := Str("//evil.example")])) == "//evil.example"
  {
    KeepsSlashPrefixed(map[], "//evil.example");
  }
}
