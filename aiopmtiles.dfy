/** `aiopmtiles.PMTilesReader`: a reader made from a path and a store, whose
    header is loaded by entering it as an async context manager. Until then
    `header` is unassigned, and every member that reads it raises. */
module Aiopmtiles {
  import opened Pmtiles
  import opened RangeStore
  import opened TileWalk
  import opened ReaderCore

  class PMTilesReader {
    const path: string
    const store: Store
    var header: Option<Header>
    const headerOffset: nat := HeaderOffset
    const headerLength: nat := HeaderLength

    /** The dataclass constructor: `header` is declared with `init=False` and
        no default, so it starts out unassigned. */
    constructor (path: string, store: Store)
      ensures this.path == path && this.store == store && header == None
      ensures headerOffset == HeaderOffset && headerLength == HeaderLength
    {
      this.path := path;
      this.store := store;
      header := None;
    }

    /** `__aenter__`: fetch the header range, assert the version, decode, and
        only then assign `header`. */
    method Enter(lib: Library) returns (r: Result<PMTilesReader>)
      modifies this, store
      ensures store.fetches == old(store.fetches) + [Fetch(path, headerOffset, headerLength)]
      ensures var expected := ReadHeader(lib, AssertVersion, store.ranges(Fetch(path, headerOffset, headerLength)));
        && (r.Ok? <==> expected.Ok?)
        && (r.Ok? ==> r.value == this && header == Some(expected.value))
        && (r.Err? ==> r.error == expected.error && header == old(header))
    {
      var headerValues := store.GetRange(path, headerOffset, headerLength);
      if headerValues.Err? {
        return Err(headerValues.error);
      }
      var raw := headerValues.value;
      if |raw| <= VersionOffset {
        return Err(IndexOutOfRange);
      }
      var specVersion := raw[VersionOffset];
      if specVersion != SupportedVersion {
        return Err(VersionAssertion);
      }
      var decoded := lib.deserializeHeader(raw);
      if decoded.Err? {
        return Err(decoded.error);
      }
      header := Some(decoded.value);
      return Ok(this);
    }

    /** `metadata`: the archive's metadata document; reading `header` comes first. */
    method Metadata(lib: Library) returns (r: Result<Json>)
      modifies store
      ensures header.None? ==> r == Err(HeaderNotLoaded) && store.fetches == old(store.fetches)
      ensures header.Some? ==>
        var h := header.value;
        && store.fetches == old(store.fetches) + [Fetch(path, h.metadataOffset, h.metadataLength)]
        && r == MetadataOf(lib, h.internalCompression, store.ranges(Fetch(path, h.metadataOffset, h.metadataLength)))
    {
      if header.None? {
        return Err(HeaderNotLoaded);
      }
      r := FetchMetadata(lib, store, path, header.value);
    }

    /** `get_tile(z, x, y)`: the tile id is computed before `header` is read. */
    method GetTile(lib: Library, z: int, x: int, y: int) returns (r: Result<Option<Bytes>>)
      modifies store
      ensures var tileId := lib.zxyToTileId(z, x, y);
        tileId.Err? ==> r == Err(tileId.error) && store.fetches == old(store.fetches)
      ensures lib.zxyToTileId(z, x, y).Ok? && header.None? ==>
        r == Err(HeaderNotLoaded) && store.fetches == old(store.fetches)
      ensures header.Some? ==>
        var w := TileLookup(lib, store.ranges, path, header.value, lib.zxyToTileId(z, x, y));
        r == w.result && store.fetches == old(store.fetches) + Trace(w)
      ensures |store.fetches| <= |old(store.fetches)| + MaxDepth + 1
    {
      var tileId := lib.zxyToTileId(z, x, y);
      if tileId.Err? {
        return Err(tileId.error);
      }
      if header.None? {
        return Err(HeaderNotLoaded);
      }
      r := WalkDirectories(lib, store, path, header.value, tileId.value);
    }

    /** `minzoom`. */
    function MinZoom(): (zoom: Result<nat>)
      reads this
      ensures zoom.Ok? <==> header.Some?
      ensures zoom.Ok? ==> zoom.value == header.value.minZoom
    {
      if header.None? then Err(HeaderNotLoaded) else Ok(header.value.minZoom)
    }

    /** `maxzoom`. */
    function MaxZoom(): (zoom: Result<nat>)
      reads this
      ensures zoom.Ok? <==> header.Some?
      ensures zoom.Ok? ==> zoom.value == header.value.maxZoom
    {
      if header.None? then Err(HeaderNotLoaded) else Ok(header.value.maxZoom)
    }

    /** `bounds`. */
    function Bounds(): (b: Result<(real, real, real, real)>)
      reads this
      ensures b.Ok? <==> header.Some?
      ensures b.Ok? ==>
        && b.value.0 * E7 == header.value.minLonE7 as real && b.value.1 * E7 == header.value.minLatE7 as real
        && b.value.2 * E7 == header.value.maxLonE7 as real && b.value.3 * E7 == header.value.maxLatE7 as real
    {
      if header.None? then Err(HeaderNotLoaded) else Ok(BoundsOf(header.value))
    }

    /** `center`. */
    function Center(): (c: Result<(real, real, nat)>)
      reads this
      ensures c.Ok? <==> header.Some?
      ensures c.Ok? ==>
        && c.value.0 * E7 == header.value.centerLonE7 as real && c.value.1 * E7 == header.value.centerLatE7 as real
        && c.value.2 == header.value.centerZoom
    {
      if header.None? then Err(HeaderNotLoaded) else Ok(CenterOf(header.value))
    }

    /** `is_vector`: whether the archive holds Mapbox Vector Tiles. */
    function IsVector(): (vector: Result<bool>)
      reads this
      ensures vector.Ok? <==> header.Some?
      ensures vector.Ok? ==> (vector.value <==> header.value.tileType == Mvt)
    {
      if header.None? then Err(HeaderNotLoaded) else Ok(header.value.tileType == Mvt)
    }

    /** `tile_compression`. */
    function TileCompression(): (compression: Result<Compression>)
      reads this
      ensures compression.Ok? <==> header.Some?
      ensures compression.Ok? ==> compression.value == header.value.tileCompression
    {
      if header.None? then Err(HeaderNotLoaded) else Ok(header.value.tileCompression)
    }

    /** `tile_type`. */
    function TileType(): (tileType: Result<Pmtiles.TileType>)
      reads this
      ensures tileType.Ok? <==> header.Some?
      ensures tileType.Ok? ==> tileType.value == header.value.tileType
    {
      if header.None? then Err(HeaderNotLoaded) else Ok(header.value.tileType)
    }
  }
}
