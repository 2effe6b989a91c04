/**
  One credited mapper: a dictionary with exactly the two keys `name` and
  `id64`, each holding an optional string. Both values are written once,
  at construction, after the placeholder values `""` and `"null"` that the
  upstream data uses for "unknown" have been turned into `None`.
 */
module Structs {
  import opened Wrappers

  const NAME_KEY: string := "name"
  const ID64_KEY: string := "id64"

  /** The two stored entries; build one with `NewMapper`, not with the bare constructor. */
  datatype Mapper = Mapper(name: Option<string>, id64: Option<string>)

  /** A raw value that the upstream data uses to mean "no value". */
  predicate IsPlaceholder(s: Option<string>)
  {
    s == None || s == Some("") || s == Some("null")
  }

  /** The value normalisation applied to both constructor arguments. */
  function FixVal(s: Option<string>): (r: Option<string>)
    ensures r == None <==> IsPlaceholder(s)
    ensures r != None ==> r == s
  {
    if s.Some? && s.value != "" && s.value != "null" then s else None
  }

  /** The constructor `Mapper(name, id64)`. */
  function NewMapper(name: Option<string>, id64: Option<string>): (m: Mapper)
    ensures !IsPlaceholder(name) ==> m.name == name
    ensures !IsPlaceholder(id64) ==> m.id64 == id64
    ensures IsPlaceholder(name) ==> m.name == None
    ensures IsPlaceholder(id64) ==> m.id64 == None
  {
    Mapper(FixVal(name), FixVal(id64))
  }

  /** A mapper that could have come out of the constructor. */
  predicate Normalised(m: Mapper)
  {
    m.name != Some("") && m.name != Some("null") &&
    m.id64 != Some("") && m.id64 != Some("null")
  }

  /** The mapper seen as the dictionary it is in the program (and in the JSON it is written to). */
  function Items(m: Mapper): (d: map<string, Option<string>>)
    ensures d.Keys == {NAME_KEY, ID64_KEY}
  {
    map[NAME_KEY := m.name, ID64_KEY := m.id64]
  }

  /** The `name` accessor: the entry stored under `"name"`. */
  function Name(m: Mapper): (r: Option<string>)
    ensures r == Items(m)[NAME_KEY]
  {
    m.name
  }

  /** The `id64` accessor: the entry stored under `"id64"`. */
  function Id64(m: Mapper): (r: Option<string>)
    ensures r == Items(m)[ID64_KEY]
  {
    m.id64
  }

  /** No constructed mapper holds `""` or `"null"` in either field. */
  lemma ConstructedIsNormalised(name: Option<string>, id64: Option<string>)
    ensures Normalised(NewMapper(name, id64))
  {
  }

  /** The accessors give back exactly the normalised constructor arguments. */
  lemma AccessorsReturnFixedArguments(name: Option<string>, id64: Option<string>)
    ensures Name(NewMapper(name, id64)) == FixVal(name)
    ensures Id64(NewMapper(name, id64)) == FixVal(id64)
    ensures Items(NewMapper(name, id64)) == map[NAME_KEY := FixVal(name), ID64_KEY := FixVal(id64)]
  {
  }

  /** Normalising a value twice is the same as normalising it once. */
  lemma FixValIdempotent(s: Option<string>)
    ensures FixVal(FixVal(s)) == FixVal(s)
  {
  }

  /** Rebuilding a mapper from its own accessors changes nothing. */
  lemma RebuildIsIdentity(m: Mapper)
    requires Normalised(m)
    ensures NewMapper(Name(m), Id64(m)) == m
  {
  }
}
