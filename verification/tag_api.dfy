/**
 * The tag snapshot client of src/lib/api.js: base-URL resolution and the
 * quality filter and coil classification `getTagsValues` applies to every
 * tag of a telemetry response. The HTTP request itself is replaced by its
 * outcome, a `Response`.
 */
module TagApi {
  import opened Wrappers
  import opened Text

  /** Removes every trailing '/' (`raw.replace(/\/+$/, "")`). */
  function StripTrailingSlashes(s: string): (r: string)
    ensures r <= s
    ensures |r| == 0 || r[|r| - 1] != '/'
    ensures forall i :: |r| <= i < |s| ==> s[i] == '/'
    decreases |s|
  {
    if |s| > 0 && s[|s| - 1] == '/' then StripTrailingSlashes(s[..|s| - 1]) else s
  }

  const DefaultBase := "http://localhost:9090"

  /** `API_BASE`: the build-time override, or the local default, without trailing slashes. */
  function ApiBase(env: Option<string>): (r: string)
    ensures env.Some? ==> r <= env.value && (|r| == 0 || r[|r| - 1] != '/')
    ensures env.Some? ==> forall i :: |r| <= i < |env.value| ==> env.value[i] == '/'
    ensures env.None? ==> r == DefaultBase
  {
    if env.None? then
      StripIsLongestSlashFreeEnd(DefaultBase, DefaultBase);
      StripTrailingSlashes(DefaultBase)
    else
      StripTrailingSlashes(env.value)
  }

  /** The telemetry endpoint `${API_BASE}/api/tags`. */
  function TagsUrl(base: string): string {
    base + "/api/tags"
  }

  /** Stripping twice is stripping once. */
  lemma StripIdempotent(s: string)
    ensures StripTrailingSlashes(StripTrailingSlashes(s)) == StripTrailingSlashes(s)
  {
  }

  /**
   * The stripped base is the unique split of the raw base into a part that
   * does not end in '/' and a run of '/' characters.
   */
  lemma StripIsLongestSlashFreeEnd(s: string, p: string)
    requires p <= s && (|p| == 0 || p[|p| - 1] != '/')
    requires forall i :: |p| <= i < |s| ==> s[i] == '/'
    ensures StripTrailingSlashes(s) == p
  {
  }

  /** The endpoint URL never has "//" where the base meets "/api/tags". */
  lemma TagsUrlSingleSlash(env: Option<string>)
    ensures var base := ApiBase(env);
      var url := TagsUrl(base);
      url[|base|] == '/' && (|base| == 0 || url[|base| - 1] != '/')
  {
  }

  /** A tag as the controller reports it. */
  datatype RawTag = RawTag(name: string, value: real, ts: string, quality: string, error: Option<string>)

  /** A normalised tag value: `undefined`, a boolean coil, or a number. */
  datatype TagValue = Missing | Coil(on: bool) | Reading(x: real)

  /** The normalised snapshot `{ values, meta }`. */
  datatype Snapshot = Snapshot(values: map<string, TagValue>, meta: map<string, RawTag>)

  /** Why `getTagsValues` throws. */
  datatype FetchError =
    | HttpError(status: int)   // the response status was not 2xx
    | DecodeError              // the body has no `tags` object

  /** The settled HTTP exchange: its status and, when decodable, the `tags` object of its body. */
  datatype Response = Response(status: int, tags: Option<map<string, RawTag>>)

  /** `Response.ok`. */
  predicate IsOk(status: int) {
    200 <= status <= 299
  }

  /** Whether a key names a discrete (coil) signal, judged from the text of the key alone. */
  predicate IsCoil(key: string) {
    || Includes(key, "parada")
    || Includes(key, "emergencia")
    || Includes(key, "ciclo_")
    || Includes(key, "run")
    || Includes(key, "fault")
    || StartsWith(key, "motor_")
    || StartsWith(key, "bomba_")
  }

  /** A key is a coil exactly when one of the five markers occurs in it or it has one of the two prefixes. */
  lemma IsCoilByOccurrence(key: string)
    ensures IsCoil(key) <==>
      || (exists i :: OccursAt(key, "parada", i))
      || (exists i :: OccursAt(key, "emergencia", i))
      || (exists i :: OccursAt(key, "ciclo_", i))
      || (exists i :: OccursAt(key, "run", i))
      || (exists i :: OccursAt(key, "fault", i))
      || (|key| >= 6 && key[..6] == "motor_")
      || (|key| >= 6 && key[..6] == "bomba_")
  {
  }

  /** The value one tag normalises to. */
  function NormalizeTag(key: string, t: RawTag): (r: TagValue)
    ensures t.quality != "GOOD" <==> r == Missing
    ensures t.quality == "GOOD" && IsCoil(key) ==> r == Coil(t.value >= 0.5)
    ensures t.quality == "GOOD" && !IsCoil(key) ==> r == Reading(t.value)
  {
    if t.quality != "GOOD" then Missing
    else if IsCoil(key) then Coil(t.value >= 0.5)
    else Reading(t.value)
  }

  /** The `values` record: every key of the response, normalised on its own. */
  function NormalizeValues(tags: map<string, RawTag>): (values: map<string, TagValue>)
    ensures values.Keys == tags.Keys
    ensures forall k :: k in values ==> values[k] == NormalizeTag(k, tags[k])
  {
    map k | k in tags :: NormalizeTag(k, tags[k])
  }

  /** The `for (const [key, t] of Object.entries(data.tags))` loop, one entry at a time. */
  method CollectValues(tags: map<string, RawTag>) returns (values: map<string, TagValue>)
    ensures values.Keys == tags.Keys
    ensures forall k :: k in values ==> values[k] == NormalizeTag(k, tags[k])
  {
    values := map[];
    var pending := tags.Keys;
    while pending != {}
      invariant pending <= tags.Keys
      invariant values.Keys == tags.Keys - pending
      invariant forall k :: k in values ==> values[k] == NormalizeTag(k, tags[k])
      decreases pending
    {
      var key :| key in pending;
      values := values[key := NormalizeTag(key, tags[key])];
      pending := pending - {key};
    }
  }

  /** `getTagsValues()` given the settled response. */
  function GetTagsValues(resp: Response): (r: Result<Snapshot, FetchError>)
    ensures !IsOk(resp.status) ==> r == Failure(HttpError(resp.status))
    ensures IsOk(resp.status) && resp.tags.None? ==> r == Failure(DecodeError)
    ensures r.Success? <==> IsOk(resp.status) && resp.tags.Some?
    ensures r.Success? ==> r.value.meta == resp.tags.value
    ensures r.Success? ==> r.value.values.Keys == resp.tags.value.Keys
    ensures r.Success? ==> r.value.values == NormalizeValues(resp.tags.value)
  {
    if !IsOk(resp.status) then Failure(HttpError(resp.status))
    else if resp.tags.None? then Failure(DecodeError)
    else Success(Snapshot(NormalizeValues(resp.tags.value), resp.tags.value))
  }

  /** The loop and the record comprehension build the same `values`. */
  lemma CollectValuesMatches(tags: map<string, RawTag>, values: map<string, TagValue>)
    requires values.Keys == tags.Keys
    requires forall k :: k in values ==> values[k] == NormalizeTag(k, tags[k])
    ensures values == NormalizeValues(tags)
  {
  }

  /**
   * Normalisation is per key: replacing one tag's record changes that key's
   * value and no other.
   */
  lemma NormalizeIsPerKey(tags: map<string, RawTag>, key: string, t: RawTag)
    ensures NormalizeValues(tags[key := t]) == NormalizeValues(tags)[key := NormalizeTag(key, t)]
  {
  }

  /** A key's value depends only on that key and its own record. */
  lemma NormalizeLocal(tags1: map<string, RawTag>, tags2: map<string, RawTag>, key: string)
    requires key in tags1 && key in tags2 && tags1[key] == tags2[key]
    ensures NormalizeValues(tags1)[key] == NormalizeValues(tags2)[key]
  {
  }

  /** A non-GOOD tag is undefined whatever its numeric payload. */
  lemma BadTagIsMissing(resp: Response, key: string)
    requires IsOk(resp.status) && resp.tags.Some?
    requires key in resp.tags.value && resp.tags.value[key].quality != "GOOD"
    ensures GetTagsValues(resp).value.values[key] == Missing
  {
  }

  /** Every `ciclo_` key, `motor_` key and `bomba_` key is a coil. */
  lemma PrefixedKeysAreCoils(key: string)
    requires StartsWith(key, "ciclo_") || StartsWith(key, "motor_") || StartsWith(key, "bomba_")
    ensures IsCoil(key)
  {
    if StartsWith(key, "ciclo_") {
      assert OccursAt(key, "ciclo_", 0);
    }
  }

  /** The cycle bits the page reads become booleans, so the page can treat them as such. */
  lemma CycleBitsAreCoils(t: RawTag)
    requires t.quality == "GOOD"
    ensures NormalizeTag("ciclo_iniciar", t) == Coil(t.value >= 0.5)
    ensures NormalizeTag("ciclo_finalizado", t) == Coil(t.value >= 0.5)
    ensures NormalizeTag("ciclo_pausado", t) == Coil(t.value >= 0.5)
  {
    PrefixedKeysAreCoils("ciclo_iniciar");
    PrefixedKeysAreCoils("ciclo_finalizado");
    PrefixedKeysAreCoils("ciclo_pausado");
  }

  /** A key without 'r', 'c' or 'f' that starts with neither 'm' nor 'b' is not a coil. */
  lemma NotCoilWithoutMarkerLetters(key: string)
    requires 'r' !in key && 'c' !in key && 'f' !in key
    requires |key| > 0 && key[0] != 'm' && key[0] != 'b'
    ensures !IsCoil(key)
  {
    NotIncludedWithoutChar(key, "parada", 'r');
    NotIncludedWithoutChar(key, "emergencia", 'r');
    NotIncludedWithoutChar(key, "ciclo_", 'c');
    NotIncludedWithoutChar(key, "run", 'r');
    NotIncludedWithoutChar(key, "fault", 'f');
  }

  /**
   * `ozonio_equipamento` is not a coil although it is a status bit: it keeps
   * its raw number, so 0.3 stays 0.3 instead of becoming `false`.
   */
  lemma OzoneIsNotCoil(t: RawTag)
    requires t.quality == "GOOD"
    ensures !IsCoil("ozonio_equipamento")
    ensures NormalizeTag("ozonio_equipamento", t) == Reading(t.value)
  {
    NotCoilWithoutMarkerLetters("ozonio_equipamento");
  }
}
