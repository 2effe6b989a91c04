/**
  Normalisation of map-metadata records. A record is a JSON object decoded
  into a mutable dictionary; the pipeline rewrites it in place:
  - `FixMappers` replaces the flat, comma-separated `mapper_name` and
    `mapper_steamid64` fields by one `mappers` list of `Mapper`s;
  - `FixUrls` corrects the scheme and the query separator of `workshop_url`;
  - `FixMaps` runs both over every record of a batch, in order.
  The Python exceptions the code can raise are `Fail` outcomes, together
  with the state the record is left in when they are raised.
 */
module Update {
  import opened Wrappers
  import opened Strings
  import opened Structs

  const MAPPER_NAME_KEY: string := "mapper_name"
  const MAPPER_ID64_KEY: string := "mapper_steamid64"
  const MAPPERS_KEY: string := "mappers"
  const STR_SEPARATOR: string := ", "
  const URL_KEYS: seq<string> := ["workshop_url"]

  const INSECURE_SCHEME: string := "http://"
  const SECURE_SCHEME: string := "https://"
  const SLASH_QUERY: string := "/?"
  const QUERY: string := "?"

  /**
    A JSON value as the normaliser sees it: a string, `null`, a list of
    mappers (what the normaliser itself stores), or any other value, of which
    the code only ever looks at its Python truthiness.
   */
  datatype Value =
    | VStr(s: string)
    | VNull
    | VOther(truthy: bool)
    | VMappers(mappers: seq<Mapper>)

  /** Python's `bool(v)`. */
  predicate Truthy(v: Value)
  {
    match v
    case VStr(s) => s != ""
    case VNull => false
    case VOther(t) => t
    case VMappers(ms) => |ms| > 0
  }

  /** The exceptions the normaliser can raise. */
  datatype Error =
    | KeyError(key: string)   // a URL field of `_url_keys` is missing
    | TypeError               // `len(None)`
    | AttributeError          // `split` or `replace` on a value that is not a string

  datatype Outcome = Pass | Fail(error: Error)

  datatype Result<T> = Ok(value: T) | Err(error: Error)

  type Fields = map<string, Value>

  /** A record's fields after an operation, and whether the operation raised. */
  datatype Step = Step(fields: Fields, outcome: Outcome)

  /** One record: a dictionary that the normaliser changes in place. */
  class Record {
    var fields: Fields

    constructor (init: Fields)
      ensures fields == init
    {
      fields := init;
    }
  }

  /** A Python list of optional strings that `NormList` resizes in place. */
  class StrList {
    var items: seq<Option<string>>

    constructor (init: seq<Option<string>>)
      ensures items == init
    {
      items := init;
    }
  }

  function Max(a: int, b: int): int
  {
    if a < b then b else a
  }

  /** Every string of `xs`, as a present value. */
  function Somes(xs: seq<string>): (r: seq<Option<string>>)
    ensures |r| == |xs| && forall k :: 0 <= k < |xs| ==> r[k] == Some(xs[k])
  {
    seq(|xs|, k requires 0 <= k < |xs| => Some(xs[k]))
  }

  // ---------------------------------------------------------------- _str_to_list

  /**
    `_str_to_list(val, sep)`: a falsy value gives `None`, a non-empty string
    gives its pieces, and any other truthy value raises on `split`.
   */
  function StrToList(val: Value, sep: string): (r: Result<Option<seq<string>>>)
    requires |sep| > 0
    ensures !Truthy(val) ==> r == Ok(None)
    ensures Truthy(val) && !val.VStr? ==> r == Err(AttributeError)
    ensures val.VStr? && val.s != "" ==>
      && r.Ok? && r.value.Some?
      && |r.value.value| >= 1
      && Join(r.value.value, sep) == val.s
      && forall k :: 0 <= k < |r.value.value| ==> Free(r.value.value[k], sep)
  {
    if !Truthy(val) then Ok(None)
    else if !val.VStr? then Err(AttributeError)
    else Ok(Some(Split(val.s, sep)))
  }

  // ---------------------------------------------------------------- _norm_list

  /**
    The list `xs` cut or padded with `None` to exactly `size` elements: the
    first elements are kept, every added element is `None`.
   */
  function Normalized(xs: seq<Option<string>>, size: nat): (r: seq<Option<string>>)
    ensures |r| == size
    ensures forall k :: 0 <= k < size && k < |xs| ==> r[k] == xs[k]
    ensures forall k :: |xs| <= k < size ==> r[k] == None
  {
    if |xs| > size then xs[..size] else xs + seq(size - |xs|, _ => None)
  }

  /** `_norm_list(values, size)`; does nothing for a missing list or a missing or negative size. */
  method NormList(values: StrList?, size: Option<int>)
    modifies values
    ensures values != null && size.Some? && size.value >= 0 ==>
      values.items == Normalized(old(values.items), size.value)
    ensures values != null && (size.None? || size.value < 0) ==>
      values.items == old(values.items)
  {
    if values == null || size.None? || size.value < 0 {
      return;
    }
    var length := |values.items|;
    if length > size.value {
      values.items := values.items[..size.value];
    } else {
      values.items := values.items + seq(size.value - length, _ => None);
    }
  }

  // ---------------------------------------------------------------- _fix_mappers

  /**
    Reading and deleting one author field: the list it holds (`Some([])`
    when the key is absent, `None` when its value is falsy) and the record
    without the key, or the error raised before the delete.
   */
  function TakeAuthors(m: Fields, key: string): Result<(Option<seq<Option<string>>>, Fields)>
  {
    if key !in m then Ok((Some([]), m))
    else match StrToList(m[key], STR_SEPARATOR)
      case Err(e) => Err(e)
      case Ok(parts) =>
        Ok((if parts.None? then None else Some(Somes(parts.value)), m - {key}))
  }

  /** The `Mapper`s built position by position from two lists of the same length. */
  function ZipMappers(names: seq<Option<string>>, ids: seq<Option<string>>): seq<Mapper>
    requires |names| == |ids|
  {
    seq(|names|, k requires 0 <= k < |names| => NewMapper(names[k], ids[k]))
  }

  /** What `_fix_mappers` does to a record's fields, step by step. */
  function FixMappersSpec(m: Fields): Step
  {
    if m == map[] then Step(m, Pass)
    else match TakeAuthors(m, MAPPER_NAME_KEY)
      case Err(e) => Step(m, Fail(e))
      case Ok((names, m1)) =>
        match TakeAuthors(m1, MAPPER_ID64_KEY)
        case Err(e) => Step(m1, Fail(e))
        case Ok((ids, m2)) =>
          if names.None? || ids.None? then Step(m2, Fail(TypeError))
          else
            var length := Max(|names.value|, |ids.value|);
            var mappers := ZipMappers(Normalized(names.value, length), Normalized(ids.value, length));
            Step(m2[MAPPERS_KEY := VMappers(mappers)], Pass)
  }

  /** Unfolding `FixMappersSpec` when both fields were read and deleted without error. */
  lemma FixMappersSpecPass(m: Fields, names: seq<Option<string>>, m1: Fields, ids: seq<Option<string>>, m2: Fields)
    requires m != map[]
    requires TakeAuthors(m, MAPPER_NAME_KEY) == Ok((Some(names), m1))
    requires TakeAuthors(m1, MAPPER_ID64_KEY) == Ok((Some(ids), m2))
    ensures var length := Max(|names|, |ids|);
      FixMappersSpec(m) ==
      Step(m2[MAPPERS_KEY := VMappers(ZipMappers(Normalized(names, length), Normalized(ids, length)))], Pass)
  {
  }

  /** The contents of a list that may be `None`. */
  function ListView(l: StrList?): Option<seq<Option<string>>>
    reads l
  {
    if l == null then None else Some(l.items)
  }

  /**
    Lines 81-90 of `_fix_mappers` for one key: the list the field holds
    (a fresh empty list when the key is absent), and the record without the
    key; or the error `split` raised, with the record untouched.
   */
  method PopAuthors(rec: Record, key: string) returns (list: StrList?, err: Option<Error>)
    modifies rec
    ensures list != null ==> fresh(list)
    ensures err.Some? ==> TakeAuthors(old(rec.fields), key) == Err(err.value) && rec.fields == old(rec.fields)
    ensures err.None? ==> TakeAuthors(old(rec.fields), key) == Ok((ListView(list), rec.fields))
  {
    list := new StrList([]);
    err := None;
    if key in rec.fields {
      var parts := StrToList(rec.fields[key], STR_SEPARATOR);
      if parts.Err? {
        return list, Some(parts.error);
      }
      if parts.value.None? {
        list := null;
      } else {
        list := new StrList(Somes(parts.value.value));
      }
      rec.fields := rec.fields - {key};
    }
  }

  /**
    Lines 92-102 of `_fix_mappers`: both lists padded to the longer length,
    zipped into `Mapper`s, and the result stored under `mappers`.
   */
  method StoreMappers(rec: Record, names: StrList, ids: StrList)
    requires names != ids
    modifies rec, names, ids
    ensures var length := Max(|old(names.items)|, |old(ids.items)|);
      && names.items == Normalized(old(names.items), length)
      && ids.items == Normalized(old(ids.items), length)
      && rec.fields == old(rec.fields)[MAPPERS_KEY := VMappers(ZipMappers(names.items, ids.items))]
  {
    var length := Max(|names.items|, |ids.items|);
    NormList(names, Some(length));
    NormList(ids, Some(length));
    var mappers: seq<Mapper> := [];
    for i := 0 to length
      invariant |mappers| == i
      invariant forall k :: 0 <= k < i ==> mappers[k] == NewMapper(names.items[k], ids.items[k])
    {
      mappers := mappers + [NewMapper(names.items[i], ids.items[i])];
    }
    assert mappers == ZipMappers(names.items, ids.items);
    rec.fields := rec.fields[MAPPERS_KEY := VMappers(mappers)];
  }

  /** `_fix_mappers(map_json)`. */
  method FixMappers(rec: Record?) returns (res: Outcome)
    modifies rec
    ensures rec == null ==> res == Pass
    ensures rec != null ==> Step(rec.fields, res) == FixMappersSpec(old(rec.fields))
  {
    if rec == null || rec.fields == map[] {
      return Pass;
    }
    ghost var m0 := rec.fields;
    var names, e1 := PopAuthors(rec, MAPPER_NAME_KEY);
    if e1.Some? {
      return Fail(e1.value);
    }
    ghost var m1 := rec.fields;
    var ids, e2 := PopAuthors(rec, MAPPER_ID64_KEY);
    if e2.Some? {
      return Fail(e2.value);
    }
    if names == null || ids == null {
      return Fail(TypeError);
    }
    ghost var take := (names.items, ids.items);
    ghost var m2 := rec.fields;
    StoreMappers(rec, names, ids);
    FixMappersSpecPass(m0, take.0, m1, take.1, m2);
    return Pass;
  }

  // ---------------------------------------------------------------- _fix_urls

  /** `url.replace('http://', 'https://', 1).replace('/?', '?', 1)`. */
  function FixUrl(url: string): (r: string)
    ensures Free(url, INSECURE_SCHEME) && Free(url, SLASH_QUERY) ==> r == url
    ensures Free(url, INSECURE_SCHEME) ==>
      forall i :: FirstOccurrence(url, SLASH_QUERY, i) ==> r == url[..i] + QUERY + url[i + |SLASH_QUERY|..]
  {
    ReplaceFirst(ReplaceFirst(url, INSECURE_SCHEME, SECURE_SCHEME), SLASH_QUERY, QUERY)
  }

  /** Correcting the one field `key`: a missing key or a value that is not a string raises. */
  function FixUrlKey(m: Fields, key: string): Step
  {
    if key !in m then Step(m, Fail(KeyError(key)))
    else if !m[key].VStr? then Step(m, Fail(AttributeError))
    else Step(m[key := VStr(FixUrl(m[key].s))], Pass)
  }

  /** Correcting `keys[i..]` in order, stopping at the first failure. */
  function FixUrlKeysFrom(m: Fields, keys: seq<string>, i: nat): Step
    requires i <= |keys|
    decreases |keys| - i
  {
    if i == |keys| then Step(m, Pass)
    else
      var st := FixUrlKey(m, keys[i]);
      if st.outcome.Fail? then st else FixUrlKeysFrom(st.fields, keys, i + 1)
  }

  /** What `_fix_urls` does to a record's fields. */
  function FixUrlsSpec(m: Fields): Step
  {
    if m == map[] then Step(m, Pass) else FixUrlKeysFrom(m, URL_KEYS, 0)
  }

  /** `_fix_urls(map_json)`. */
  method FixUrls(rec: Record?) returns (res: Outcome)
    modifies rec
    ensures rec == null ==> res == Pass
    ensures rec != null ==> Step(rec.fields, res) == FixUrlsSpec(old(rec.fields))
  {
    if rec == null || rec.fields == map[] {
      return Pass;
    }
    for i := 0 to |URL_KEYS|
      invariant FixUrlKeysFrom(rec.fields, URL_KEYS, i) == FixUrlsSpec(old(rec.fields))
    {
      var key := URL_KEYS[i];
      if key !in rec.fields {
        return Fail(KeyError(key));
      }
      var url := rec.fields[key];
      if !url.VStr? {
        return Fail(AttributeError);
      }
      rec.fields := rec.fields[key := VStr(FixUrl(url.s))];
    }
    return Pass;
  }

  // ---------------------------------------------------------------- _fix_maps

  /** `_fix_mappers` then `_fix_urls` on one list entry; a `None` entry is left alone. */
  function FixRecordSpec(m: Option<Fields>): (Option<Fields>, Outcome)
  {
    if m.None? then (None, Pass)
    else
      var a := FixMappersSpec(m.value);
      if a.outcome.Fail? then (Some(a.fields), a.outcome)
      else
        var b := FixUrlsSpec(a.fields);
        (Some(b.fields), b.outcome)
  }

  /** The records of a batch after an operation, and whether it raised. */
  datatype BatchStep = BatchStep(records: seq<Option<Fields>>, outcome: Outcome)

  /** Processing entries `i..` of a batch in order, stopping at the first failure. */
  function FixBatchFrom(ms: seq<Option<Fields>>, i: nat): BatchStep
    requires i <= |ms|
    decreases |ms| - i
  {
    if i == |ms| then BatchStep(ms, Pass)
    else
      var (r, o) := FixRecordSpec(ms[i]);
      if o.Fail? then BatchStep(ms[i := r], o) else FixBatchFrom(ms[i := r], i + 1)
  }

  /** What `_fix_maps` does to the records of a list. */
  function FixBatchSpec(ms: seq<Option<Fields>>): BatchStep
  {
    FixBatchFrom(ms, 0)
  }

  /** The records a list refers to. */
  function Objects(rs: seq<Record?>): set<Record>
  {
    set r: Record | r in rs
  }

  /** No record appears twice in the list (a decoded JSON array never shares objects). */
  predicate Distinct(rs: seq<Record?>)
  {
    forall i, j :: 0 <= i < j < |rs| && rs[i] != null ==> rs[i] != rs[j]
  }

  function View(r: Record?): Option<Fields>
    reads r
  {
    if r == null then None else Some(r.fields)
  }

  /** The current contents of the records of a list. */
  function Snapshot(rs: seq<Record?>): (s: seq<Option<Fields>>)
    reads Objects(rs)
    ensures |s| == |rs| && forall k :: 0 <= k < |rs| ==> s[k] == View(rs[k])
  {
    seq(|rs|, k reads Objects(rs) requires 0 <= k < |rs| => View(rs[k]))
  }

  /** The loop body of `_fix_maps`: `_fix_mappers` then `_fix_urls` on one entry. */
  method FixEntry(rec: Record?) returns (res: Outcome)
    modifies rec
    ensures (View(rec), res) == FixRecordSpec(old(View(rec)))
  {
    res := FixMappers(rec);
    if res.Fail? {
      return;
    }
    res := FixUrls(rec);
  }

  /** `_fix_maps(maps_json)`. */
  method FixMaps(maps: Option<seq<Record?>>) returns (res: Outcome)
    requires maps.Some? ==> Distinct(maps.value)
    modifies if maps.Some? then Objects(maps.value) else {}
    ensures maps.None? ==> res == Pass
    ensures maps.Some? ==>
      BatchStep(Snapshot(maps.value), res) == FixBatchSpec(old(Snapshot(maps.value)))
  {
    if maps.None? || |maps.value| == 0 {
      return Pass;
    }
    var rs := maps.value;
    ghost var start := Snapshot(rs);
    var i := 0;
    while i < |rs|
      invariant 0 <= i <= |rs|
      invariant FixBatchFrom(Snapshot(rs), i) == FixBatchFrom(start, 0)
    {
      ghost var before := Snapshot(rs);
      var r := FixEntry(rs[i]);
      assert Snapshot(rs) == before[i := View(rs[i])] by {
        forall k | 0 <= k < |rs| ensures Snapshot(rs)[k] == before[i := View(rs[i])][k] {
        }
      }
      if r.Fail? {
        return r;
      }
      i := i + 1;
    }
    return Pass;
  }
}
