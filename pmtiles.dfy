/** The interface the readers import from `pmtiles.tile`, `gzip` and `json`.
    Only the shapes of the values are fixed here; the decoding itself belongs
    to those libraries and is passed to the readers as a `Library` value of
    uninterpreted functions. */
module Pmtiles {

  type Byte = b: int | 0 <= b < 256
  type Bytes = seq<Byte>

  datatype Option<+T> = None | Some(value: T)

  /** The exceptions a reader call can end in. */
  datatype Error =
    | StoreFailure(reason: string)          // anything raised by get_range_async, passed through
    | IndexOutOfRange                       // memoryview(buffer)[7] on a buffer of fewer than 8 bytes
    | UnsupportedVersion(version: Byte)     // the ValueError raised by PMTilesReader.open
    | VersionAssertion                      // the AssertionError raised by __aenter__
    | NotImplemented(message: string)       // a metadata compression the readers do not handle
    | LibraryFailure(reason: string)        // anything raised inside pmtiles.tile, gzip or json
    | HeaderNotLoaded                       // the AttributeError of reading `header` before it is assigned

  datatype Result<+T> = Ok(value: T) | Err(error: Error)

  /** `pmtiles.tile.Compression`; `OtherCompression` stands for any value
      outside the enumeration, which the readers' `case _` arm handles. */
  datatype Compression =
    | UnknownCompression
    | NoCompression
    | Gzip
    | Brotli
    | Zstd
    | OtherCompression(code: nat)

  /** `pmtiles.tile.TileType`. */
  datatype TileType = UnknownType | Mvt | Png | Jpeg | Webp | Avif

  /** The fields of `HeaderDict` that the readers use. Offsets and lengths are
      Python integers, so sums of them never wrap. */
  datatype Header = Header(
    rootOffset: nat,
    rootLength: nat,
    metadataOffset: nat,
    metadataLength: nat,
    leafDirectoryOffset: nat,
    tileDataOffset: nat,
    internalCompression: Compression,
    tileCompression: Compression,
    tileType: TileType,
    minZoom: nat,
    maxZoom: nat,
    minLonE7: int,
    minLatE7: int,
    maxLonE7: int,
    maxLatE7: int,
    centerZoom: nat,
    centerLonE7: int,
    centerLatE7: int)

  /** A directory entry: `runLength == 0` makes it point at a leaf directory. */
  datatype Entry = Entry(tileId: nat, offset: nat, length: nat, runLength: nat)

  type Directory = seq<Entry>

  /** What `json.loads` produces. */
  datatype Json =
    | JNull
    | JBool(b: bool)
    | JNumber(n: real)
    | JString(s: string)
    | JArray(items: seq<Json>)
    | JObject(members: seq<(string, Json)>)

  /** The imported functions, each of which may raise. */
  datatype Library = Library(
    deserializeHeader: Bytes -> Result<Header>,
    deserializeDirectory: Bytes -> Result<Directory>,
    findTile: (Directory, nat) -> Option<Entry>,
    zxyToTileId: (int, int, int) -> Result<nat>,
    gzipDecompress: Bytes -> Result<Bytes>,
    jsonLoads: Bytes -> Result<Json>)
}
