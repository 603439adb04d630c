/** `async_pmtiles.PMTilesReader`: a reader built by `open`, whose header is
    fixed from then on. */
module AsyncPmtiles {
  import opened Pmtiles
  import opened RangeStore
  import opened TileWalk
  import opened ReaderCore

  class PMTilesReader {
    const path: string
    const store: Store
    const header: Header

    constructor (path: string, store: Store, header: Header)
      ensures this.path == path && this.store == store && this.header == header
    {
      this.path := path;
      this.store := store;
      this.header := header;
    }

    /** `open`: one fetch of the header range, the version gate, then decoding. */
    static method Open(lib: Library, path: string, store: Store) returns (r: Result<PMTilesReader>)
      modifies store
      ensures store.fetches == old(store.fetches) + [Fetch(path, HeaderOffset, HeaderLength)]
      ensures var expected := ReadHeader(lib, RaiseValueError, store.ranges(Fetch(path, HeaderOffset, HeaderLength)));
        && (r.Ok? <==> expected.Ok?)
        && (r.Err? ==> r.error == expected.error)
        && (r.Ok? ==> fresh(r.value) && r.value.path == path && r.value.store == store
                      && r.value.header == expected.value)
    {
      var headerValues := store.GetRange(path, HeaderOffset, HeaderLength);
      if headerValues.Err? {
        return Err(headerValues.error);
      }
      var raw := headerValues.value;
      if |raw| <= VersionOffset {
        return Err(IndexOutOfRange);
      }
      var specVersion := raw[VersionOffset];
      if specVersion != SupportedVersion {
        return Err(UnsupportedVersion(specVersion));
      }
      var header := lib.deserializeHeader(raw);
      if header.Err? {
        return Err(header.error);
      }
      var reader := new PMTilesReader(path, store, header.value);
      return Ok(reader);
    }

    /** `metadata`: the archive's metadata document. */
    method Metadata(lib: Library) returns (r: Result<Json>)
      modifies store
      ensures store.fetches == old(store.fetches) + [Fetch(path, header.metadataOffset, header.metadataLength)]
      ensures r == MetadataOf(lib, header.internalCompression,
                              store.ranges(Fetch(path, header.metadataOffset, header.metadataLength)))
    {
      r := FetchMetadata(lib, store, path, header);
    }

    /** `get_tile(x, y, z)`: the tile's bytes, or `None` when the walk finds none. */
    method GetTile(lib: Library, x: int, y: int, z: int) returns (r: Result<Option<Bytes>>)
      modifies store
      ensures var w := TileLookup(lib, store.ranges, path, header, lib.zxyToTileId(z, x, y));
        r == w.result && store.fetches == old(store.fetches) + Trace(w)
      ensures |store.fetches| <= |old(store.fetches)| + MaxDepth + 1
    {
      var tileId := lib.zxyToTileId(z, x, y);
      if tileId.Err? {
        return Err(tileId.error);
      }
      r := WalkDirectories(lib, store, path, header, tileId.value);
    }

    /** `minzoom`. */
    function MinZoom(): (zoom: nat)
      ensures zoom == header.minZoom
    {
      header.minZoom
    }

    /** `maxzoom`. */
    function MaxZoom(): (zoom: nat)
      ensures zoom == header.maxZoom
    {
      header.maxZoom
    }

    /** `bounds`. */
    function Bounds(): (b: (real, real, real, real))
      ensures b.0 * E7 == header.minLonE7 as real && b.1 * E7 == header.minLatE7 as real
      ensures b.2 * E7 == header.maxLonE7 as real && b.3 * E7 == header.maxLatE7 as real
    {
      BoundsOf(header)
    }

    /** `center`. */
    function Center(): (c: (real, real, nat))
      ensures c.0 * E7 == header.centerLonE7 as real && c.1 * E7 == header.centerLatE7 as real
      ensures c.2 == header.centerZoom
    {
      CenterOf(header)
    }

    /** `tile_compression`. */
    function TileCompression(): (compression: Compression)
      ensures compression == header.tileCompression
    {
      header.tileCompression
    }

    /** `tile_type`. */
    function TileType(): (tileType: Pmtiles.TileType)
      ensures tileType == header.tileType
    {
      header.tileType
    }
  }
}
