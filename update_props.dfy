/**
  What the normalisation pipeline guarantees, stated over the functions that
  specify its methods (`FixMappersSpec`, `FixUrl`, `FixUrlsSpec`,
  `FixBatchSpec`).
 */
module UpdateProperties {
  import opened Wrappers
  import opened Strings
  import opened Structs
  import opened Update

  // ---------------------------------------------------------------- author fields

  /** An author field that `_fix_mappers` can read: absent, or a non-empty string. */
  predicate Readable(m: Fields, key: string)
  {
    key !in m || (m[key].VStr? && m[key].s != "")
  }

  /** The pieces of an author field as `_fix_mappers` reads them (none when the key is absent). */
  function Authors(m: Fields, key: string): seq<string>
  {
    if key in m && m[key].VStr? && m[key].s != "" then Split(m[key].s, STR_SEPARATOR) else []
  }

  /** Entry `i` of a list of pieces, or `None` past its end. */
  function At(xs: seq<string>, i: nat): Option<string>
  {
    if i < |xs| then Some(xs[i]) else None
  }

  /** The keys `_fix_mappers` touches. */
  predicate AuthorKey(k: string)
  {
    k == MAPPER_NAME_KEY || k == MAPPER_ID64_KEY || k == MAPPERS_KEY
  }

  /** An empty record is left as it is. */
  lemma FixMappersEmptyRecord(m: Fields)
    requires m == map[]
    ensures FixMappersSpec(m) == Step(m, Pass)
  {
  }

  /** Reading an author field that is absent or a non-empty string gives its split pieces. */
  lemma TakeReadable(m: Fields, key: string)
    requires Readable(m, key)
    ensures TakeAuthors(m, key) == Ok((Some(Somes(Authors(m, key))), m - {key}))
  {
    if key !in m {
      assert m - {key} == m;
    }
  }

  /**
    On a non-empty record whose author fields are absent or non-empty
    strings, `_fix_mappers` succeeds: both flat fields are gone, the other
    fields are unchanged, and `mappers` holds `max(#names, #ids)` entries,
    entry `i` pairing the `i`-th name with the `i`-th identifier, each `None`
    past the end of its own list.
   */
  lemma FixMappersReadable(m: Fields)
    requires m != map[]
    requires Readable(m, MAPPER_NAME_KEY) && Readable(m, MAPPER_ID64_KEY)
    ensures var st := FixMappersSpec(m);
      var names := Authors(m, MAPPER_NAME_KEY);
      var ids := Authors(m, MAPPER_ID64_KEY);
      && st.outcome == Pass
      && MAPPER_NAME_KEY !in st.fields && MAPPER_ID64_KEY !in st.fields
      && st.fields.Keys == m.Keys - {MAPPER_NAME_KEY, MAPPER_ID64_KEY} + {MAPPERS_KEY}
      && (forall k :: k in m && !AuthorKey(k) ==> st.fields[k] == m[k])
      && st.fields[MAPPERS_KEY].VMappers?
      && |st.fields[MAPPERS_KEY].mappers| == Max(|names|, |ids|)
      && forall i :: 0 <= i < |st.fields[MAPPERS_KEY].mappers| ==>
           st.fields[MAPPERS_KEY].mappers[i] == NewMapper(At(names, i), At(ids, i))
  {
    var names := Authors(m, MAPPER_NAME_KEY);
    var ids := Authors(m, MAPPER_ID64_KEY);
    var m1 := m - {MAPPER_NAME_KEY};
    TakeReadable(m, MAPPER_NAME_KEY);
    assert Readable(m1, MAPPER_ID64_KEY) && Authors(m1, MAPPER_ID64_KEY) == ids;
    TakeReadable(m1, MAPPER_ID64_KEY);
    var m2 := m1 - {MAPPER_ID64_KEY};
    FixMappersSpecPass(m, Somes(names), m1, Somes(ids), m2);
    var length := Max(|names|, |ids|);
    var ms := ZipMappers(Normalized(Somes(names), length), Normalized(Somes(ids), length));
    forall i | 0 <= i < |ms| ensures ms[i] == NewMapper(At(names, i), At(ids, i)) {
      assert Normalized(Somes(names), length)[i] == At(names, i);
      assert Normalized(Somes(ids), length)[i] == At(ids, i);
    }
  }

  /** A non-empty record with neither author field gets an empty `mappers` list, not no list. */
  lemma FixMappersNoAuthors(m: Fields)
    requires m != map[]
    requires MAPPER_NAME_KEY !in m && MAPPER_ID64_KEY !in m
    ensures FixMappersSpec(m) == Step(m[MAPPERS_KEY := VMappers([])], Pass)
  {
    FixMappersReadable(m);
  }

  /** A field `_str_to_list` turns into `None`: present, with a falsy value. */
  predicate Blank(m: Fields, key: string)
  {
    key in m && !Truthy(m[key])
  }

  /** A field whose `split` raises: present, truthy and not a string. */
  predicate Unsplittable(m: Fields, key: string)
  {
    key in m && Truthy(m[key]) && !m[key].VStr?
  }

  /**
    The error paths of `_fix_mappers`. A truthy non-string name raises before
    anything is deleted; a truthy non-string identifier raises after the name
    was deleted; otherwise a blank field makes `len(None)` raise after both
    fields were deleted.
   */
  lemma FixMappersErrors(m: Fields)
    requires m != map[]
    ensures Unsplittable(m, MAPPER_NAME_KEY) ==>
      FixMappersSpec(m) == Step(m, Fail(AttributeError))
    ensures !Unsplittable(m, MAPPER_NAME_KEY) && Unsplittable(m, MAPPER_ID64_KEY) ==>
      FixMappersSpec(m) == Step(m - {MAPPER_NAME_KEY}, Fail(AttributeError))
    ensures (!Unsplittable(m, MAPPER_NAME_KEY) && !Unsplittable(m, MAPPER_ID64_KEY) &&
             (Blank(m, MAPPER_NAME_KEY) || Blank(m, MAPPER_ID64_KEY))) ==>
      FixMappersSpec(m) == Step(m - {MAPPER_NAME_KEY, MAPPER_ID64_KEY}, Fail(TypeError))
  {
    var m1 := m - {MAPPER_NAME_KEY};
    if !Unsplittable(m, MAPPER_NAME_KEY) {
      assert MAPPER_ID64_KEY in m1 <==> MAPPER_ID64_KEY in m;
      assert MAPPER_ID64_KEY in m ==> m1[MAPPER_ID64_KEY] == m[MAPPER_ID64_KEY];
      if MAPPER_NAME_KEY !in m {
        assert m1 == m;
      }
      if MAPPER_ID64_KEY !in m {
        assert m1 - {MAPPER_ID64_KEY} == m1;
      }
      assert m1 - {MAPPER_ID64_KEY} == m - {MAPPER_NAME_KEY, MAPPER_ID64_KEY};
    }
  }

  /** `_fix_mappers` succeeds exactly on empty records and on records whose author fields are readable. */
  lemma FixMappersPassIff(m: Fields)
    ensures FixMappersSpec(m).outcome == Pass <==>
      m == map[] || (Readable(m, MAPPER_NAME_KEY) && Readable(m, MAPPER_ID64_KEY))
  {
    if m != map[] {
      if Readable(m, MAPPER_NAME_KEY) && Readable(m, MAPPER_ID64_KEY) {
        FixMappersReadable(m);
      } else {
        FixMappersErrors(m);
      }
    }
  }

  /**
    Normalising a record a second time is not a no-op: with the flat fields
    gone, `mappers` is overwritten by an empty list.
   */
  lemma FixMappersTwiceClearsMappers(m: Fields)
    requires m != map[]
    requires FixMappersSpec(m).outcome == Pass
    ensures var once := FixMappersSpec(m).fields;
      FixMappersSpec(once) == Step(once[MAPPERS_KEY := VMappers([])], Pass)
  {
    FixMappersPassIff(m);
    FixMappersReadable(m);
    var once := FixMappersSpec(m).fields;
    assert MAPPERS_KEY in once;
    FixMappersNoAuthors(once);
  }

  /** A string without the first character of `pat` holds no occurrence of it. */
  lemma FreeOfFirstChar(s: string, pat: string)
    requires |pat| > 0 && pat[0] !in s
    ensures Free(s, pat)
  {
  }

  /** The pieces of `"Alice, Bob"`. */
  lemma SplitAliceBob()
    ensures Split("Alice, Bob", STR_SEPARATOR) == ["Alice", "Bob"]
  {
    var s := "Alice, Bob";
    assert s[..5] == "Alice" && s[7..] == "Bob";
    FreeOfFirstChar("Alice", STR_SEPARATOR);
    assert forall j :: 0 <= j < 5 ==> !OccursAt(s, STR_SEPARATOR, j);
    assert OccursAt(s, STR_SEPARATOR, 5);
    assert IndexOf(s, STR_SEPARATOR) == Some(5);
    FreeOfFirstChar("Bob", STR_SEPARATOR);
  }

  /** The pieces of `"111"`. */
  lemma Split111()
    ensures Split("111", STR_SEPARATOR) == ["111"]
  {
    FreeOfFirstChar("111", STR_SEPARATOR);
  }

  /** Reading the name field of the scenario below. */
  lemma TakeAliceBob(m: Fields)
    requires m == map[MAPPER_NAME_KEY := VStr("Alice, Bob"), MAPPER_ID64_KEY := VStr("111")]
    ensures TakeAuthors(m, MAPPER_NAME_KEY) == Ok((Some([Some("Alice"), Some("Bob")]), m - {MAPPER_NAME_KEY}))
  {
    SplitAliceBob();
    TakeReadable(m, MAPPER_NAME_KEY);
    assert Authors(m, MAPPER_NAME_KEY) == ["Alice", "Bob"];
    assert Somes(["Alice", "Bob"]) == [Some("Alice"), Some("Bob")];
  }

  /** Reading the identifier field of the scenario below. */
  lemma Take111(m1: Fields)
    requires m1 == map[MAPPER_ID64_KEY := VStr("111")]
    ensures TakeAuthors(m1, MAPPER_ID64_KEY) == Ok((Some([Some("111")]), map[]))
  {
    Split111();
    TakeReadable(m1, MAPPER_ID64_KEY);
    assert Authors(m1, MAPPER_ID64_KEY) == ["111"];
    assert Somes(["111"]) == [Some("111")];
    assert m1 - {MAPPER_ID64_KEY} == map[];
  }

  /** Padding and pairing in the scenario below. */
  lemma ZipAliceBob()
    ensures ZipMappers(Normalized([Some("Alice"), Some("Bob")], 2), Normalized([Some("111")], 2)) ==
      [Mapper(Some("Alice"), Some("111")), Mapper(Some("Bob"), None)]
  {
    assert Normalized([Some("111")], 2) == [Some("111"), None];
    assert Normalized([Some("Alice"), Some("Bob")], 2) == [Some("Alice"), Some("Bob")];
  }

  /** Two names and one identifier: the second mapper has no identifier. */
  lemma FixMappersAliceBob(m: Fields)
    requires m == map[MAPPER_NAME_KEY := VStr("Alice, Bob"), MAPPER_ID64_KEY := VStr("111")]
    ensures FixMappersSpec(m) ==
      Step(map[MAPPERS_KEY := VMappers([Mapper(Some("Alice"), Some("111")), Mapper(Some("Bob"), None)])], Pass)
  {
    var m1 := m - {MAPPER_NAME_KEY};
    TakeAliceBob(m);
    assert m1 == map[MAPPER_ID64_KEY := VStr("111")];
    Take111(m1);
    FixMappersSpecPass(m, [Some("Alice"), Some("Bob")], m1, [Some("111")], map[]);
    ZipAliceBob();
  }

  /** Empty author strings make `_fix_mappers` raise, after deleting both fields. */
  lemma FixMappersEmptyStrings()
    ensures FixMappersSpec(map[MAPPER_NAME_KEY := VStr(""), MAPPER_ID64_KEY := VStr("")]) ==
      Step(map[], Fail(TypeError))
  {
    var m := map[MAPPER_NAME_KEY := VStr(""), MAPPER_ID64_KEY := VStr("")];
    FixMappersErrors(m);
    assert m - {MAPPER_NAME_KEY, MAPPER_ID64_KEY} == map[];
  }

  // ---------------------------------------------------------------- URLs

  /** No occurrence of `pat` starts before `i` when its `p`-th character is missing from `s[..i + p]`. */
  lemma AbsentBefore(s: string, pat: string, p: nat, i: nat)
    requires p < |pat| && i + p <= |s|
    requires pat[p] !in s[..i + p]
    ensures forall j :: 0 <= j < i ==> !OccursAt(s, pat, j)
  {
  }

  /** A string missing one character of `pat` holds no occurrence of it. */
  lemma FreeOfChar(s: string, pat: string, p: nat)
    requires p < |pat| && pat[p] !in s
    ensures Free(s, pat)
  {
  }

  /** A URL holding neither `http://` nor `/?` is left as it is. */
  lemma FixUrlUnchanged(url: string)
    requires Free(url, INSECURE_SCHEME) && Free(url, SLASH_QUERY)
    ensures FixUrl(url) == url
  {
  }

  /**
    With no `http://` present, only the leftmost `/?` becomes `?`; the text
    after it, including any later `/?`, is kept.
   */
  lemma FixUrlFirstQueryOnly(url: string, i: nat)
    requires Free(url, INSECURE_SCHEME) && FirstOccurrence(url, SLASH_QUERY, i)
    ensures FixUrl(url) == url[..i] + QUERY + url[i + |SLASH_QUERY|..]
  {
  }

  /** The scheme step of the example `http://example.com/?a=1`. */
  lemma UpgradeExample()
    ensures ReplaceFirst("http://example.com/?a=1", INSECURE_SCHEME, SECURE_SCHEME) == "https://example.com/?a=1"
  {
    var s := "http://example.com/?a=1";
    var tail := "example.com/?a=1";
    assert FirstOccurrence(s, INSECURE_SCHEME, 0);
    assert s == INSECURE_SCHEME + tail;
    assert s[..0] == [] && s[7..] == tail;
    assert SECURE_SCHEME + tail == "https://example.com/?a=1";
  }

  /** The query step of the example `http://example.com/?a=1`. */
  lemma QueryExample()
    ensures ReplaceFirst("https://example.com/?a=1", SLASH_QUERY, QUERY) == "https://example.com?a=1"
  {
    var t := "https://example.com/?a=1";
    assert OccursAt(t, SLASH_QUERY, 19);
    AbsentBefore(t, SLASH_QUERY, 1, 19);
    assert FirstOccurrence(t, SLASH_QUERY, 19);
    assert t[..19] == "https://example.com" && t[21..] == "a=1";
  }

  /** The example `http://example.com/?a=1` becomes `https://example.com?a=1`. */
  lemma FixUrlExample()
    ensures FixUrl("http://example.com/?a=1") == "https://example.com?a=1"
  {
    UpgradeExample();
    QueryExample();
  }

  /** The scheme is replaced wherever its first occurrence is, not only at the start. */
  lemma FixUrlNotAnchored()
    ensures FixUrl("see http://a.b") == "see https://a.b"
  {
    var s := "see http://a.b";
    var head, tail := "see ", "a.b";
    assert s == head + INSECURE_SCHEME + tail;
    assert OccursAt(s, INSECURE_SCHEME, 4);
    AbsentBefore(s, INSECURE_SCHEME, 0, 4);
    assert FirstOccurrence(s, INSECURE_SCHEME, 4);
    assert s[..4] == head && s[11..] == tail;
    var t := "see https://a.b";
    assert head + SECURE_SCHEME + tail == t;
    FreeOfChar(t, SLASH_QUERY, 1);
  }

  /** Of two `/?`, only the first is corrected. */
  lemma FixUrlTwoQueries()
    ensures FixUrl("a.b/?x/?y") == "a.b?x/?y"
  {
    var s := "a.b/?x/?y";
    var head, tail := "a.b", "x/?y";
    FreeOfChar(s, INSECURE_SCHEME, 0);
    assert s == head + SLASH_QUERY + tail;
    assert OccursAt(s, SLASH_QUERY, 3);
    AbsentBefore(s, SLASH_QUERY, 1, 3);
    assert s[..3] == head && s[5..] == tail;
    FixUrlFirstQueryOnly(s, 3);
    assert head + QUERY + tail == "a.b?x/?y";
  }

  /**
    `_fix_urls` on one record: nothing happens to an empty record; otherwise
    a missing `workshop_url` raises a lookup error, a value that is not a
    string raises on `replace`, and a string is corrected by `FixUrl`, all
    other fields unchanged.
   */
  lemma FixUrlsCases(m: Fields)
    ensures m == map[] ==> FixUrlsSpec(m) == Step(m, Pass)
    ensures m != map[] && URL_KEYS[0] !in m ==>
      FixUrlsSpec(m) == Step(m, Fail(KeyError("workshop_url")))
    ensures m != map[] && URL_KEYS[0] in m && !m[URL_KEYS[0]].VStr? ==>
      FixUrlsSpec(m) == Step(m, Fail(AttributeError))
    ensures m != map[] && URL_KEYS[0] in m && m[URL_KEYS[0]].VStr? ==>
      FixUrlsSpec(m) == Step(m[URL_KEYS[0] := VStr(FixUrl(m[URL_KEYS[0]].s))], Pass)
  {
    if m != map[] {
      var st := FixUrlKey(m, URL_KEYS[0]);
      if st.outcome.Pass? {
        assert FixUrlKeysFrom(st.fields, URL_KEYS, 1) == st;
      }
    }
  }

  // ---------------------------------------------------------------- batches

  /** A `None` entry of the list is skipped by both fixes. */
  lemma FixRecordNone()
    ensures FixRecordSpec(None) == (None, Pass)
  {
  }

  /**
    A record with readable author fields but no `workshop_url`: `_fix_urls`
    raises after `_fix_mappers` has already rewritten the author fields.
   */
  lemma FixRecordMissingUrl(m: Fields)
    requires m != map[]
    requires Readable(m, MAPPER_NAME_KEY) && Readable(m, MAPPER_ID64_KEY)
    requires URL_KEYS[0] !in m
    ensures FixRecordSpec(Some(m)) == (Some(FixMappersSpec(m).fields), Fail(KeyError("workshop_url")))
  {
    FixMappersReadable(m);
    var a := FixMappersSpec(m);
    assert MAPPERS_KEY in a.fields && URL_KEYS[0] !in a.fields;
    FixUrlsCases(a.fields);
  }

  /**
    Processing entries `i..`: the list keeps its length, earlier entries are
    untouched, the run succeeds exactly when every remaining entry does, and
    then each remaining entry is that entry processed on its own.
   */
  lemma {:induction false} FixBatchFromShape(ms: seq<Option<Fields>>, i: nat)
    requires i <= |ms|
    ensures var b := FixBatchFrom(ms, i);
      && |b.records| == |ms|
      && (forall k :: 0 <= k < i ==> b.records[k] == ms[k])
      && (b.outcome == Pass <==> forall k :: i <= k < |ms| ==> FixRecordSpec(ms[k]).1 == Pass)
      && (b.outcome == Pass ==> forall k :: i <= k < |ms| ==> b.records[k] == FixRecordSpec(ms[k]).0)
    decreases |ms| - i
  {
    if i < |ms| {
      var r := FixRecordSpec(ms[i]).0;
      if FixRecordSpec(ms[i]).1.Pass? {
        var ms' := ms[i := r];
        FixBatchFromShape(ms', i + 1);
        assert forall k :: i < k < |ms| ==> ms'[k] == ms[k];
      }
    }
  }

  /**
    Processing entries `i..` when entry `f` is the first to fail: entries
    `i..f` are processed, entry `f` holds the state its failure left, the
    entries after it are untouched, and the batch fails with `f`'s error.
   */
  lemma {:induction false} FixBatchFromFailure(ms: seq<Option<Fields>>, i: nat, f: nat)
    requires i <= f < |ms|
    requires forall k :: i <= k < f ==> FixRecordSpec(ms[k]).1 == Pass
    requires FixRecordSpec(ms[f]).1.Fail?
    ensures var b := FixBatchFrom(ms, i);
      && b.outcome == FixRecordSpec(ms[f]).1
      && |b.records| == |ms|
      && (forall k :: i <= k <= f ==> b.records[k] == FixRecordSpec(ms[k]).0)
      && (forall k :: 0 <= k < |ms| && (k < i || f < k) ==> b.records[k] == ms[k])
    decreases f - i
  {
    var r := FixRecordSpec(ms[i]).0;
    var ms' := ms[i := r];
    if i < f {
      assert FixBatchFrom(ms, i) == FixBatchFrom(ms', i + 1);
      assert forall k :: i < k < |ms| ==> ms'[k] == ms[k];
      FixBatchFromFailure(ms', i + 1, f);
    } else {
      assert FixBatchFrom(ms, i) == BatchStep(ms', FixRecordSpec(ms[f]).1);
    }
  }

  /** `_fix_maps` on an empty list does nothing. */
  lemma FixBatchEmpty()
    ensures FixBatchSpec([]) == BatchStep([], Pass)
  {
  }

  /**
    `_fix_maps` keeps the list's length and order: it succeeds exactly when
    every entry does, and then entry `k` is entry `k` processed on its own.
   */
  lemma FixBatchInOrder(ms: seq<Option<Fields>>)
    ensures |FixBatchSpec(ms).records| == |ms|
    ensures FixBatchSpec(ms).outcome == Pass <==> forall k :: 0 <= k < |ms| ==> FixRecordSpec(ms[k]).1 == Pass
    ensures FixBatchSpec(ms).outcome == Pass ==>
      forall k :: 0 <= k < |ms| ==> FixBatchSpec(ms).records[k] == FixRecordSpec(ms[k]).0
  {
    FixBatchFromShape(ms, 0);
  }

  /**
    `_fix_maps` stops at the first entry that raises: the entries before it
    are processed, it holds the state its failure left, the rest are untouched.
   */
  lemma FixBatchStopsAtFirstFailure(ms: seq<Option<Fields>>, f: nat)
    requires f < |ms|
    requires forall k :: 0 <= k < f ==> FixRecordSpec(ms[k]).1 == Pass
    requires FixRecordSpec(ms[f]).1.Fail?
    ensures FixBatchSpec(ms).outcome == FixRecordSpec(ms[f]).1
    ensures |FixBatchSpec(ms).records| == |ms|
    ensures forall k :: 0 <= k <= f ==> FixBatchSpec(ms).records[k] == FixRecordSpec(ms[k]).0
    ensures forall k :: f < k < |ms| ==> FixBatchSpec(ms).records[k] == ms[k]
  {
    FixBatchFromFailure(ms, 0, f);
  }
}
