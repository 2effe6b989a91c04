# maps-info record normalisation, in Dafny

This project models the record-normalisation pipeline of the maps-info
metadata fetcher and proves properties of it. The fetcher downloads JSON
arrays of map records. Each record is a dictionary, and the pipeline rewrites
it in place before it is written out:

- `_fix_mappers` removes the flat `mapper_name` and `mapper_steamid64`
  fields. Each holds a string joined with `", "`. The code splits both,
  pads the shorter list with `None`, and stores the pairs as a `mappers`
  list of `Mapper` dictionaries (`{"name": …, "id64": …}`).
- `_fix_urls` corrects `workshop_url`. It replaces the first `http://` with
  `https://`, then the first `/?` with `?`.
- `_fix_maps` runs both over every record of a list, in order.

A `Mapper` turns the placeholder values `""` and `"null"` into `None` when
it is built.

Files:

- `wrappers.dfy` (`Wrappers`): `Option`, standing for Python's `Optional`.
- `strings.dfy` (`Strings`): the `str` operations the code uses, as recursive
  functions. These are leftmost `find`, `replace(old, new, 1)`, `split(sep)`
  and `sep.join`.
- `structs.dfy` (`Structs`): `Mapper`, an immutable datatype. It has the
  smart constructor `NewMapper`, the value fix `FixVal`, the dictionary view
  `Items` and the accessors `Name` and `Id64`.
- `update.dfy` (`Update`): the constants of `src/update.py:27-32`, JSON
  values, the `Record` class with its `fields` map, and `StrList`, a Python
  list that `_norm_list` resizes. It also holds the methods `NormList`,
  `FixMappers`, `FixUrls` and `FixMaps`. Each method is proved against a
  specification function (`Normalized`, `FixMappersSpec`, `FixUrlsSpec`,
  `FixBatchSpec`).
- `update_props.dfy` (`UpdateProperties`): lemmas about those
  specification functions.

Python exceptions are modelled as `Fail(KeyError | TypeError | AttributeError)`
outcomes. Each failing outcome comes with the record state that the code
leaves behind when it raises. A `None` record or list is a `null` reference
or a `None` option.

Behaviour of the code worth noting (the model follows the code):

- An author field that is present but empty, `null` or otherwise falsy makes
  `_str_to_list` return `None`. `len(None)` then raises `TypeError` at
  `src/update.py:92`, after the fields were already deleted. Such input does
  not degrade to "no authors" (`FixMappersErrors`, `FixMappersEmptyStrings`).
- A non-empty record with neither author field gets `mappers = []`. The list
  is not absent (`FixMappersNoAuthors`).
- `http://` is replaced wherever it first occurs, not only as a prefix
  (`FixUrlNotAnchored`).
- Normalising a record a second time is not a no-op. With the flat fields
  gone, `mappers` is overwritten with `[]` (`FixMappersTwiceClearsMappers`).
- A missing `workshop_url` raises a lookup error.
  The mapper rewrite has already happened by then (`FixRecordMissingUrl`).

## Model

| member | source | states |
|---|---|---|
| `Strings.Split` | src/update.py:60 | `val.split(", ")` yields at least one piece; the pieces joined with the separator give back the input, and no piece contains the separator |
| `Strings.ReplaceFirst` | src/update.py:112-113 | `replace(old, new, 1)`: a string without `old` is unchanged; otherwise exactly the leftmost occurrence is replaced and the rest is kept |
| `Structs.FixVal` | src/structs.py:22-24 | the result is `None` exactly for `None`, `""` and `"null"`; any other value is returned unchanged |
| `Structs.NewMapper` | src/structs.py:8-12 | each field is the argument when that is a real value and `None` when it is a placeholder |
| `Structs.Items` | src/structs.py:4-12 | a mapper is a dictionary with exactly the keys `"name"` and `"id64"` |
| `Structs.Name` | src/structs.py:14-16 | the `name` accessor returns the entry stored under `"name"` |
| `Structs.Id64` | src/structs.py:18-20 | the `id64` accessor returns the entry stored under `"id64"` |
| `Structs.ConstructedIsNormalised` | src/structs.py:11-24 | no constructed mapper holds `""` or `"null"` in either field |
| `Structs.AccessorsReturnFixedArguments` | src/structs.py:5-20 | the accessors and the dictionary hold exactly the normalised constructor arguments under `"name"` and `"id64"` |
| `Structs.FixValIdempotent` | src/structs.py:24 | normalising twice equals normalising once |
| `Structs.RebuildIsIdentity` | src/structs.py:8-20 | rebuilding a normalised mapper from its accessors gives the same mapper |
| `Update.StrToList` | src/update.py:56-60 | a falsy value gives `None`; a non-empty string gives a non-empty list whose pieces rejoin to it and hold no separator; a truthy non-string raises on `split` |
| `Update.Normalized` | src/update.py:69-74 | the result has length exactly `size`; the first `min(len, size)` elements are kept and every added element is `None` |
| `Update.NormList` | src/update.py:63-74 | with a list and a size `>= 0` the list becomes `Normalized(old, size)`; with no list, no size or a negative size it is unchanged |
| `Update.PopAuthors` | src/update.py:81-90 | reading one author field gives its split list (an empty list when the key is absent, `None` when it is falsy) and deletes the key; an error from `split` leaves the record untouched |
| `Update.StoreMappers` | src/update.py:92-102 | both lists are padded to the longer length, zipped position by position into mappers, and stored under `mappers` |
| `Update.FixMappers` | src/update.py:77-102 | the record's new fields and the outcome are exactly `FixMappersSpec` of the old fields; a `None` record is left alone |
| `Update.FixUrl` | src/update.py:112-113 | a URL holding neither `http://` nor `/?` is unchanged; with no `http://`, exactly the leftmost `/?` becomes `?` and the rest is kept (the `http://` step is `Strings.ReplaceFirst`, whose contract states the leftmost replacement) |
| `Update.FixUrls` | src/update.py:105-113 | the record's new fields and the outcome are exactly `FixUrlsSpec` of the old fields; a `None` record is left alone |
| `Update.FixEntry` | src/update.py:120-122 | one loop step: `_fix_mappers`, then `_fix_urls` unless the first raised |
| `Update.FixMaps` | src/update.py:116-122 | a `None` list does nothing; otherwise the records' new contents and the outcome are exactly `FixBatchSpec` of their old contents |
| `UpdateProperties.FixMappersEmptyRecord` | src/update.py:78-79 | an empty record is left unchanged |
| `UpdateProperties.FixMappersReadable` | src/update.py:84-102 | with author fields absent or non-empty strings: success, both flat keys gone, other keys unchanged, `mappers` of length `max(#names, #ids)`, entry `i` = `Mapper(names[i], ids[i])` with `None` past the end of either list |
| `UpdateProperties.FixMappersNoAuthors` | src/update.py:81-102 | a non-empty record with neither author key gets `mappers = []` |
| `UpdateProperties.FixMappersErrors` | src/update.py:84-92 | a truthy non-string name raises before any delete; a truthy non-string id raises after the name was deleted; otherwise a blank field raises `TypeError` after both were deleted |
| `UpdateProperties.FixMappersPassIff` | src/update.py:77-102 | `_fix_mappers` succeeds if and only if the record is empty or both author fields are absent or non-empty strings |
| `UpdateProperties.FixMappersTwiceClearsMappers` | src/update.py:84-102 | a second run on a normalised record replaces `mappers` with `[]` |
| `UpdateProperties.FixMappersAliceBob` | src/update.py:84-102 | `{"mapper_name": "Alice, Bob", "mapper_steamid64": "111"}` becomes `{"mappers": [Alice/111, Bob/None]}` |
| `UpdateProperties.FixMappersEmptyStrings` | src/update.py:84-92 | `{"mapper_name": "", "mapper_steamid64": ""}` raises `TypeError` and is left empty |
| `UpdateProperties.FixUrlUnchanged` | src/update.py:112-113 | a URL with neither `http://` nor `/?` is unchanged |
| `UpdateProperties.FixUrlFirstQueryOnly` | src/update.py:113 | without `http://`, only the leftmost `/?` becomes `?` |
| `UpdateProperties.FixUrlExample` | src/update.py:112-113 | `http://example.com/?a=1` becomes `https://example.com?a=1` |
| `UpdateProperties.FixUrlNotAnchored` | src/update.py:112 | an `http://` after the start is upgraded too |
| `UpdateProperties.FixUrlTwoQueries` | src/update.py:113 | of two `/?`, only the first is corrected |
| `UpdateProperties.FixUrlsCases` | src/update.py:105-113 | an empty record is left alone; a missing `workshop_url` raises `KeyError`; a non-string raises on `replace`; a string is corrected by `FixUrl` and nothing else changes |
| `UpdateProperties.FixRecordNone` | src/update.py:120-122 | a `None` entry of the list is skipped by both fixes |
| `UpdateProperties.FixRecordMissingUrl` | src/update.py:120-122 | readable authors but no `workshop_url`: the authors are rewritten, then `KeyError` is raised |
| `UpdateProperties.FixBatchEmpty` | src/update.py:117-118 | an empty list is unchanged |
| `UpdateProperties.FixBatchInOrder` | src/update.py:120-122 | the list keeps its length; the batch succeeds if and only if every entry does, and then entry `k` is entry `k` processed alone |
| `UpdateProperties.FixBatchStopsAtFirstFailure` | src/update.py:120-122 | at the first failing entry `f`: entries before `f` are processed, `f` keeps its partial state, later entries are untouched, and the batch raises `f`'s error |

## Left out

- `_unescape` (src/update.py:38-45) is not modelled. It is a byte-level round trip through Python's `unicode-escape` codec, which is library behaviour.
- `_get_json` (src/update.py:48-53) is not modelled. It is an HTTP fetch.
- `_dump_maps` (src/update.py:125-136) is not modelled. It covers file writes and JSON formatting, so no pretty/minified round trip is claimed.
- The `__main__` loop and the configuration constants (src/update.py:10-25, 34-35, 139-144) are not modelled. They are static configuration and I/O driving.
- The `sep=None` whitespace split of `_str_to_list` is not modelled. Every call passes `", "`, so `Strings.Split` requires a non-empty separator.
- Dictionary key order is not modelled. A record is a Dafny `map`, so the JSON position of the `mappers` key (last, by insertion) is not captured.
- JSON values other than strings, `null` and mapper lists are abstracted to `VOther(truthy)`. The code only tests their truthiness and whether they are strings.
- Entries of a record list that are neither objects nor `null` are not modelled.
- `Update.FixMaps`: requires the list's records to be distinct objects. A decoded JSON array never shares a dictionary between entries, and aliased records are not modelled.
- `Update.StrList`: holds optional strings rather than `list[Any]`. Only lists of split strings ever reach `_norm_list`.
- `Structs.Mapper`: modelled as an immutable value. Writing into the dictionary after construction is not modelled, since the program never does it.
