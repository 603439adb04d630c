# async-pmtiles readers, in Dafny

This project models the two asynchronous PMTiles v3 readers of the
repository: `async_pmtiles.PMTilesReader` (`src/async_pmtiles/_reader.py`) and
`aiopmtiles.PMTilesReader` (`aiopmtiles/aiopmtiles.py`). Both read an archive
through a byte-range store. Both do the same four things:

- **Version gate.** Fetch the 127-byte header at offset 0. Reject any spec
  version byte (offset 7) other than 3 before decoding. `open` raises a
  ValueError naming the version. `__aenter__` fails an `assert`.
- **Directory walk.** `get_tile` turns (z, x, y) into a tile id and starts at
  the root directory. It runs at most four passes. On each pass it fetches a
  directory, decodes it and looks the tile up.
  - A pointer entry (`run_length == 0`) moves the target to
    `leaf_directory_offset + offset`.
  - A data entry ends the walk with one fetch at `tile_data_offset + offset`.
    The bytes come back undecoded.
  - A miss leaves the target unchanged, so the same directory is fetched again
    on the next pass.
  - Running out of passes yields `None`.
- **Metadata.** Fetch the metadata range and undo its internal compression:
  identity for NONE, gunzip for GZIP, NotImplementedError for anything else.
  Then parse it as JSON.
- **Header accessors.** Field projections. `bounds` and `center` divide the
  fixed-point coordinates by 10^7. `is_vector` compares the tile type with MVT.

The readers import `deserialize_header`, `deserialize_directory`, `find_tile`
and `zxy_to_tileid` from `pmtiles.tile`, plus `gzip.decompress` and
`json.loads`. The model does not re-specify them. A `Library` value passes
them in as uninterpreted functions, each of which except `find_tile` may fail.

The store is a `Store` object. Its answer to each `(path, start, length)`
request is a fixed function, `ranges`. A ghost log, `fetches`, records every
request in order. So every contract about a reader call states two things:
the exact sequence of ranges it asks for, and its result as a function of the
store's answers.

The walk is specified once, by the function `TileWalk.WalkFrom`. The loop
both readers run, `TileWalk.WalkDirectories`, is proved against it. The
lemmas beside `WalkFrom` say what a walk can do:
- it makes at most four directory fetches and at most one data fetch;
- the first fetch is the root directory;
- each later directory is the one its predecessor pointed to, or the same one
  again after a miss;
- it ends in the given ways and no others.

Details of the code that the model keeps:

- **A miss does not end the walk.** The loop has no `break`. After a
  `find_tile` miss it fetches the same directory on every remaining pass and
  only then returns `None` (`TileWalk.RevisitEndsAbsent`). With a store that
  answers consistently, the result equals returning `None` at once, but the
  code makes more fetches.
- **Argument order of `get_tile`.** In `async_pmtiles`, `get_tile` takes
  `(x, y, z)`. In `aiopmtiles` it takes `(z, x, y)`. Both call
  `zxy_to_tileid(z, x, y)`, and both models do the same.
- **Version check comes before decoding.** The version is checked on the raw
  buffer before the header decoder runs. A short buffer fails on that index.

Modules:
- `pmtiles.dfy`: the shapes of the library's values.
- `store.dfy`: the range store.
- `walk.dfy`: the directory walk.
- `core.dfy`: header gate, metadata, coordinate scaling.
- `reader.dfy`: `async_pmtiles`.
- `aiopmtiles.dfy`: `aiopmtiles`.

## Model

| member | source | states |
|---|---|---|
| RangeStore.Store.GetRange | src/async_pmtiles/_reader.py:40-58 | one request for `(path, start, length)` is logged after all earlier ones, and its answer is the store's answer for that range |
| TileWalk.WalkFrom | src/async_pmtiles/_reader.py:141-161 | a walk fetches at most `depth` directories, the first being its starting directory; `None` comes only after exactly `depth` directory fetches and no data fetch; a returned tile, or a failed tile fetch, is exactly the store's answer for the data range it fetched |
| TileWalk.TileLookup | src/async_pmtiles/_reader.py:137-161 | a whole lookup fetches at most 4 directories and at most 5 ranges in all; a failed tile-id computation fails with that error and fetches nothing; otherwise the first fetch is `(root_offset, root_length)` |
| TileWalk.TraceFollowsDirectories | src/async_pmtiles/_reader.py:147-152 | each directory fetched after the first is the one the previous directory led to: `leaf_directory_offset + offset` and `length` of a pointer entry, or the same range again after a miss |
| TileWalk.LastStep | src/async_pmtiles/_reader.py:142-161 | a walk ends only in three ways: at a data entry of the last directory fetched, whose range `(tile_data_offset + offset, length)` is the one fetched; at the error from fetching or decoding the last directory; or with `None` after all passes, when the last directory still pointed onward |
| TileWalk.RevisitEndsAbsent | src/async_pmtiles/_reader.py:141-152 | a directory that leads back to itself, by a miss or a pointer to its own range, is fetched once per remaining pass and the walk returns `None` |
| TileWalk.VisitDirectory | src/async_pmtiles/_reader.py:142-159 | one pass fetches the current directory; it goes on exactly when the directory leads somewhere (to that next range), and otherwise stops with the walk's final result after fetching the data range, if any |
| TileWalk.WalkDirectories | src/async_pmtiles/_reader.py:139-161 | the loop returns the specified walk's result and leaves in the store's log exactly the specified walk's fetches, in order |
| ReaderCore.ReadHeader | src/async_pmtiles/_reader.py:93-104 | the header is produced iff the fetched buffer has a byte 7, that byte is 3, and decoding succeeds; it is then the decoder's output; a store error, a short buffer and a wrong version each fail with their own error, the last naming the version |
| ReaderCore.VersionGateSkipsDecoder | src/async_pmtiles/_reader.py:98-104 | when the version byte is missing or is not 3, the outcome fails and is the same whatever the header decoder does, so decoding is never reached |
| ReaderCore.Decompress | src/async_pmtiles/_reader.py:115-128 | only NONE and GZIP succeed: NONE leaves the bytes unchanged, GZIP gives gzip's result, and every other kind fails as not implemented, with its message |
| ReaderCore.MetadataOf | src/async_pmtiles/_reader.py:110-130 | metadata succeeds only when the fetch succeeded and the compression is NONE or GZIP; a fetch failure propagates; NONE parses the fetched bytes directly and GZIP parses their decompression |
| ReaderCore.UnsupportedCompressionFails | src/async_pmtiles/_reader.py:120-128 | BROTLI, ZSTD, UNKNOWN and any other kind fail with the same NotImplementedError whatever the metadata bytes and whatever gzip and json would do |
| ReaderCore.FetchMetadata | src/async_pmtiles/_reader.py:108-130 | `metadata` makes exactly one fetch, of `(metadata_offset, metadata_length)`, and returns the specified metadata for what the store answered |
| ReaderCore.BoundsOf | src/async_pmtiles/_reader.py:173-181 | each bound, multiplied back by 10^7, is the header's fixed-point coordinate |
| ReaderCore.CenterOf | src/async_pmtiles/_reader.py:183-190 | the center longitude and latitude, multiplied back by 10^7, are the header's fixed-point values, and the zoom is the header's center zoom |
| AsyncPmtiles.PMTilesReader.constructor | src/async_pmtiles/_reader.py:61-75 | the dataclass holds the given path, store and header |
| AsyncPmtiles.PMTilesReader.Open | src/async_pmtiles/_reader.py:77-106 | `open` makes exactly one fetch, `(0, 127)`; it succeeds iff the gated header decodes, with a new reader keeping path and store and holding the decoded header, and otherwise fails with the gate's error (ValueError with the version for a wrong version) |
| AsyncPmtiles.PMTilesReader.Metadata | src/async_pmtiles/_reader.py:108-130 | one fetch of the header's metadata range; the result is the specified metadata |
| AsyncPmtiles.PMTilesReader.GetTile | src/async_pmtiles/_reader.py:132-161 | `get_tile(x, y, z)` looks up `zxy_to_tileid(z, x, y)`: the result and the fetch sequence are those of the specified lookup, and at most 5 ranges are fetched |
| AsyncPmtiles.PMTilesReader.MinZoom | src/async_pmtiles/_reader.py:163-166 | the header's min zoom, unchanged |
| AsyncPmtiles.PMTilesReader.MaxZoom | src/async_pmtiles/_reader.py:168-171 | the header's max zoom, unchanged |
| AsyncPmtiles.PMTilesReader.Bounds | src/async_pmtiles/_reader.py:173-181 | each bound times 10^7 is the header's fixed-point coordinate |
| AsyncPmtiles.PMTilesReader.Center | src/async_pmtiles/_reader.py:183-190 | center longitude and latitude times 10^7 are the header's values; the zoom is the header's center zoom |
| AsyncPmtiles.PMTilesReader.TileCompression | src/async_pmtiles/_reader.py:192-195 | the header's tile compression, unchanged |
| AsyncPmtiles.PMTilesReader.TileType | src/async_pmtiles/_reader.py:197-200 | the header's tile type, unchanged |
| Aiopmtiles.PMTilesReader.constructor | aiopmtiles/aiopmtiles.py:31-40 | a new reader keeps path and store, has no header yet, and its header range is `(0, 127)` |
| Aiopmtiles.PMTilesReader.Enter | aiopmtiles/aiopmtiles.py:42-55 | `__aenter__` makes exactly one fetch, `(_header_offset, _header_length)`; it assigns `header` only when the version is 3 and decoding succeeds, returning the reader itself; otherwise it leaves `header` as it was and fails (AssertionError for a wrong version) |
| Aiopmtiles.PMTilesReader.Metadata | aiopmtiles/aiopmtiles.py:61-83 | without a header it fails before any fetch; with one it makes one fetch of the metadata range and returns the specified metadata |
| Aiopmtiles.PMTilesReader.GetTile | aiopmtiles/aiopmtiles.py:85-110 | `get_tile(z, x, y)` computes the tile id first (its failure fetches nothing), then needs a header (its absence fetches nothing); the result and fetch sequence are those of the specified lookup, at most 5 fetches |
| Aiopmtiles.PMTilesReader.MinZoom | aiopmtiles/aiopmtiles.py:112-115 | available iff the header is loaded, and then the header's min zoom |
| Aiopmtiles.PMTilesReader.MaxZoom | aiopmtiles/aiopmtiles.py:117-120 | available iff the header is loaded, and then the header's max zoom |
| Aiopmtiles.PMTilesReader.Bounds | aiopmtiles/aiopmtiles.py:122-130 | available iff the header is loaded; each bound times 10^7 is the header's fixed-point coordinate |
| Aiopmtiles.PMTilesReader.Center | aiopmtiles/aiopmtiles.py:132-139 | available iff the header is loaded; center coordinates times 10^7 are the header's values, the zoom is the header's |
| Aiopmtiles.PMTilesReader.IsVector | aiopmtiles/aiopmtiles.py:141-144 | available iff the header is loaded, and then true iff the tile type is MVT |
| Aiopmtiles.PMTilesReader.TileCompression | aiopmtiles/aiopmtiles.py:146-149 | available iff the header is loaded, and then the header's tile compression |
| Aiopmtiles.PMTilesReader.TileType | aiopmtiles/aiopmtiles.py:151-154 | available iff the header is loaded, and then the header's tile type |

## Left out

- `async`/`await` and the context-manager protocol: each call is a sequential method. `__aexit__` does nothing and has no counterpart. Concurrent calls on one reader are not modelled.
- `pmtiles.tile` (header and directory decoding, `find_tile`, `zxy_to_tileid`), `gzip.decompress` and `json.loads` are uninterpreted functions of a `Library` value. Any exception they raise is one `Err` result. `find_tile` is modelled as never raising: it returns an entry or nothing. The readers never inspect what they raise.
- The store answers each range with a fixed function of the request. A real store may answer the same range differently on a second request, and the model does not cover that. The difference between `Buffer`, `memoryview` and `bytes` is not modelled either: all are byte sequences.
- AsyncPmtiles.PMTilesReader.Bounds, AsyncPmtiles.PMTilesReader.Center, Aiopmtiles.PMTilesReader.Bounds, Aiopmtiles.PMTilesReader.Center: the division by 10^7 is exact real division, not IEEE double rounding.
- Aiopmtiles.PMTilesReader.Enter: the version `assert` is modelled as always enabled. Under `python -O` it is removed, and a header of any version would be decoded.
- Aiopmtiles.PMTilesReader.constructor: `_header_offset` and `_header_length` are mutable dataclass fields, modelled as constants `(0, 127)`. Reassigning them after construction is not modelled; no code of the reader does so.
- `find_tile`'s truthiness test: an entry tuple is always truthy, so the model treats "an entry" and "a true result" as the same.
- Python type errors (non-integer coordinates, a header dict missing a key) are not modelled. Coordinates are integers, and the header is a record with every field the readers read.
- The dataclass-generated `__eq__` and `__repr__`, the aiohttp adapter in the tests, `_version.py` and the `__init__.py` files: plumbing and packaging, with no behaviour of the readers.
