/** What the two readers share besides the directory walk: the header's
    location and version gate, and reading the metadata block. */
module ReaderCore {
  import opened Pmtiles
  import opened RangeStore

  /** The header is the first 127 bytes of the archive. */
  const HeaderOffset: nat := 0
  const HeaderLength: nat := 127
  /** The spec version sits in byte 7 of the header; only version 3 is read. */
  const VersionOffset: nat := 7
  const SupportedVersion: Byte := 3
  /** Coordinates are stored as integers scaled by 10^7. */
  const E7: real := 10000000.0

  /** How a reader rejects a wrong version: `open` raises a ValueError that
      names the version, `__aenter__` fails an `assert`. */
  datatype Gate = RaiseValueError | AssertVersion

  function Mismatch(gate: Gate, version: Byte): Error
  {
    match gate
    case RaiseValueError => UnsupportedVersion(version)
    case AssertVersion => VersionAssertion
  }

  /** The header a reader ends up with, given what the store answered for the
      header range: the version byte is checked before anything is decoded. */
  function ReadHeader(lib: Library, gate: Gate, fetched: Result<Bytes>): (r: Result<Header>)
    ensures r.Ok? <==>
      && fetched.Ok?
      && |fetched.value| > VersionOffset
      && fetched.value[VersionOffset] == SupportedVersion
      && lib.deserializeHeader(fetched.value).Ok?
    ensures r.Ok? ==> r == lib.deserializeHeader(fetched.value)
    ensures fetched.Err? ==> r == Err(fetched.error)
    ensures fetched.Ok? && |fetched.value| <= VersionOffset ==> r == Err(IndexOutOfRange)
    ensures fetched.Ok? && |fetched.value| > VersionOffset && fetched.value[VersionOffset] != SupportedVersion ==>
      r == Err(Mismatch(gate, fetched.value[VersionOffset]))
  {
    match fetched
    case Err(e) => Err(e)
    case Ok(raw) =>
      if |raw| <= VersionOffset then Err(IndexOutOfRange)
      else if raw[VersionOffset] != SupportedVersion then Err(Mismatch(gate, raw[VersionOffset]))
      else lib.deserializeHeader(raw)
  }

  /** A header of any version other than 3 is rejected without being decoded:
      the outcome is the same whatever the header decoder would do. */
  lemma VersionGateSkipsDecoder(lib: Library, other: Library, gate: Gate, fetched: Result<Bytes>)
    requires fetched.Ok? ==> |fetched.value| <= VersionOffset || fetched.value[VersionOffset] != SupportedVersion
    ensures ReadHeader(lib, gate, fetched) == ReadHeader(other, gate, fetched)
    ensures ReadHeader(lib, gate, fetched).Err?
  {
  }

  /** The message each unsupported metadata compression raises with. */
  function UnsupportedMessage(compression: Compression): string
  {
    match compression
    case Brotli => "Brotli compression is not yet supported"
    case Zstd => "Zstd compression is not yet supported"
    case UnknownCompression => "Unknown compression is not supported"
    case _ => ""
  }

  predicate Supported(compression: Compression)
  {
    compression == NoCompression || compression == Gzip
  }

  /** The metadata bytes once the internal compression is undone. */
  function Decompress(lib: Library, compression: Compression, raw: Bytes): (r: Result<Bytes>)
    ensures r.Ok? ==> Supported(compression)
    ensures compression == NoCompression ==> r == Ok(raw)
    ensures compression == Gzip ==> r == lib.gzipDecompress(raw)
    ensures !Supported(compression) ==> r == Err(NotImplemented(UnsupportedMessage(compression)))
  {
    match compression
    case NoCompression => Ok(raw)
    case Gzip => lib.gzipDecompress(raw)
    case _ => Err(NotImplemented(UnsupportedMessage(compression)))
  }

  /** The metadata document, given what the store answered for the metadata range. */
  function MetadataOf(lib: Library, compression: Compression, fetched: Result<Bytes>): (r: Result<Json>)
    ensures r.Ok? ==> fetched.Ok? && Supported(compression)
    ensures fetched.Err? ==> r == Err(fetched.error)
    ensures fetched.Ok? && compression == NoCompression ==> r == lib.jsonLoads(fetched.value)
    ensures fetched.Ok? && compression == Gzip ==>
      r == match lib.gzipDecompress(fetched.value) case Ok(text) => lib.jsonLoads(text) case Err(e) => Err(e)
  {
    match fetched
    case Err(e) => Err(e)
    case Ok(raw) =>
      match Decompress(lib, compression, raw)
      case Err(e) => Err(e)
      case Ok(text) => lib.jsonLoads(text)
  }

  /** An unsupported compression fails the same way whatever the metadata
      holds and whatever gzip and json would do with it. */
  lemma UnsupportedCompressionFails(lib: Library, other: Library, compression: Compression, raw: Bytes, raw2: Bytes)
    requires !Supported(compression)
    ensures MetadataOf(lib, compression, Ok(raw)) == MetadataOf(other, compression, Ok(raw2))
    ensures MetadataOf(lib, compression, Ok(raw)) == Err(NotImplemented(UnsupportedMessage(compression)))
  {
  }

  /** `metadata`: fetch the metadata range, undo its compression, parse it. */
  method FetchMetadata(lib: Library, store: Store, path: string, header: Header) returns (r: Result<Json>)
    modifies store
    ensures store.fetches == old(store.fetches) + [Fetch(path, header.metadataOffset, header.metadataLength)]
    ensures r == MetadataOf(lib, header.internalCompression,
                            store.ranges(Fetch(path, header.metadataOffset, header.metadataLength)))
  {
    var metadata := store.GetRange(path, header.metadataOffset, header.metadataLength);
    if metadata.Err? {
      return Err(metadata.error);
    }
    var text: Bytes;
    match header.internalCompression {
      case NoCompression =>
        text := metadata.value;
      case Gzip =>
        var decompressed := lib.gzipDecompress(metadata.value);
        if decompressed.Err? {
          return Err(decompressed.error);
        }
        text := decompressed.value;
      case Brotli =>
        return Err(NotImplemented("Brotli compression is not yet supported"));
      case Zstd =>
        return Err(NotImplemented("Zstd compression is not yet supported"));
      case UnknownCompression =>
        return Err(NotImplemented("Unknown compression is not supported"));
      case OtherCompression(_) =>
        return Err(NotImplemented(""));
    }
    r := lib.jsonLoads(text);
  }

  /** `bounds`: the archive's extent in degrees, as (min_lon, min_lat, max_lon, max_lat). */
  function BoundsOf(header: Header): (b: (real, real, real, real))
    ensures b.0 * E7 == header.minLonE7 as real && b.1 * E7 == header.minLatE7 as real
    ensures b.2 * E7 == header.maxLonE7 as real && b.3 * E7 == header.maxLatE7 as real
  {
    (header.minLonE7 as real / E7, header.minLatE7 as real / E7,
     header.maxLonE7 as real / E7, header.maxLatE7 as real / E7)
  }

  /** `center`: the archive's center in degrees, and its zoom. */
  function CenterOf(header: Header): (c: (real, real, nat))
    ensures c.0 * E7 == header.centerLonE7 as real && c.1 * E7 == header.centerLatE7 as real
    ensures c.2 == header.centerZoom
  {
    (header.centerLonE7 as real / E7, header.centerLatE7 as real / E7, header.centerZoom)
  }
}
