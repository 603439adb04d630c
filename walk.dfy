/** The bounded directory walk behind `get_tile`, which both readers share:
    start at the root directory, follow leaf-directory pointers, stop at the
    first data entry, and give up (with no tile) after four directories. */
module TileWalk {
  import opened Pmtiles
  import opened RangeStore

  /** The loop's bound, `range(4)`. */
  const MaxDepth: nat := 4

  /** Everything one lookup depends on. */
  datatype Lookup = Lookup(lib: Library, ranges: Ranges, path: string, header: Header, tileId: nat)

  /** The outcome of a walk: its result, the directory ranges it fetched, and
      the tile-data range it fetched last, if it got that far. */
  datatype Walk = Walk(result: Result<Option<Bytes>>, directoryFetches: seq<Fetch>, dataFetch: Option<Fetch>)

  /** Every fetch of a walk, in the order the store sees them. */
  function Trace(w: Walk): seq<Fetch>
  {
    w.directoryFetches + match w.dataFetch case Some(f) => [f] case None => []
  }

  function Root(q: Lookup): Fetch
  {
    Fetch(q.path, q.header.rootOffset, q.header.rootLength)
  }

  /** The directory a pointer entry leads to, relative to the leaf-directory region. */
  function ChildOf(q: Lookup, e: Entry): Fetch
  {
    Fetch(q.path, q.header.leafDirectoryOffset + e.offset, e.length)
  }

  /** The payload of a data entry, relative to the tile-data region. */
  function DataOf(q: Lookup, e: Entry): Fetch
  {
    Fetch(q.path, q.header.tileDataOffset + e.offset, e.length)
  }

  /** Fetch a directory, decode it and search it for the tile. */
  function Probe(q: Lookup, target: Fetch): Result<Option<Entry>>
  {
    match q.ranges(target)
    case Err(e) => Err(e)
    case Ok(raw) =>
      match q.lib.deserializeDirectory(raw)
      case Err(e) => Err(e)
      case Ok(directory) => Ok(q.lib.findTile(directory, q.tileId))
  }

  /** The directory the walk fetches after `target`, if it goes on: the same
      one again after a miss, the child after a pointer entry. */
  function Next(q: Lookup, target: Fetch): Option<Fetch>
  {
    match Probe(q, target)
    case Ok(None) => Some(target)
    case Ok(Some(e)) => if e.runLength == 0 then Some(ChildOf(q, e)) else None
    case Err(_) => None
  }

  /** The answer to a tile-data fetch. */
  function AsTile(fetched: Result<Bytes>): Result<Option<Bytes>>
  {
    match fetched
    case Ok(b) => Ok(Some(b))
    case Err(e) => Err(e)
  }

  /** Where the walk ends when it does not go on from `target`: at an error
      fetching or decoding `target`, or at its data entry, whose payload is
      fetched and returned. */
  function Halt(q: Lookup, target: Fetch): Walk
    requires Next(q, target).None?
  {
    match Probe(q, target)
    case Err(e) => Walk(Err(e), [target], None)
    case Ok(Some(e)) => Walk(AsTile(q.ranges(DataOf(q, e))), [target], Some(DataOf(q, e)))
  }

  /** `target` is a directory whose data entry for the tile is stored at `data`. */
  predicate EndsAt(q: Lookup, target: Fetch, data: Fetch)
  {
    match Probe(q, target)
    case Ok(Some(e)) => e.runLength != 0 && data == DataOf(q, e)
    case _ => false
  }

  function Prefixed(done: seq<Fetch>, w: Walk): Walk
  {
    w.(directoryFetches := done + w.directoryFetches)
  }

  /** The walk from directory `target` with `depth` iterations left. */
  function WalkFrom(q: Lookup, target: Fetch, depth: nat): (w: Walk)
    ensures |w.directoryFetches| <= depth
    ensures depth > 0 ==> |w.directoryFetches| > 0 && w.directoryFetches[0] == target
    ensures w.result == Ok(None) ==> |w.directoryFetches| == depth && w.dataFetch == None
    ensures w.result.Ok? && w.result.value.Some? ==> w.dataFetch.Some?
    ensures w.dataFetch.Some? ==> w.result == AsTile(q.ranges(w.dataFetch.value))
    decreases depth
  {
    if depth == 0 then
      Walk(Ok(None), [], None)
    else
      match Next(q, target)
      case Some(next) => Prefixed([target], WalkFrom(q, next, depth - 1))
      case None => Halt(q, target)
  }

  /** A whole `get_tile` once the tile id is computed (or failed to compute). */
  function TileLookup(lib: Library, ranges: Ranges, path: string, header: Header, tileId: Result<nat>): (w: Walk)
    ensures |w.directoryFetches| <= MaxDepth && |Trace(w)| <= MaxDepth + 1
    ensures tileId.Err? ==> w.result == Err(tileId.error) && Trace(w) == []
    ensures tileId.Ok? ==>
      |w.directoryFetches| > 0 && w.directoryFetches[0] == Fetch(path, header.rootOffset, header.rootLength)
  {
    match tileId
    case Err(e) => Walk(Err(e), [], None)
    case Ok(id) =>
      var q := Lookup(lib, ranges, path, header, id);
      WalkFrom(q, Root(q), MaxDepth)
  }

  /** Each directory in `s` leads to the one after it. */
  predicate Linked(q: Lookup, s: seq<Fetch>)
  {
    forall i :: 0 <= i < |s| - 1 ==> Next(q, s[i]) == Some(s[i + 1])
  }

  /** Consecutive directory fetches are linked: each one is the directory the
      previous one pointed to, or the same one again after a miss. */
  lemma {:induction false} TraceFollowsDirectories(q: Lookup, target: Fetch, depth: nat)
    ensures Linked(q, WalkFrom(q, target, depth).directoryFetches)
    decreases depth
  {
    if depth > 0 && Next(q, target).Some? {
      var next := Next(q, target).value;
      TraceFollowsDirectories(q, next, depth - 1);
      var rest := WalkFrom(q, next, depth - 1).directoryFetches;
      var s := [target] + rest;
      assert WalkFrom(q, target, depth).directoryFetches == s;
      forall i | 0 <= i < |s| - 1
        ensures Next(q, s[i]) == Some(s[i + 1])
      {
        if i > 0 {
          assert s[i] == rest[i - 1] && s[i + 1] == rest[i];
        }
      }
    }
  }

  /** How a walk ends, seen from the last directory it fetched: a returned
      tile (or a failed tile fetch) comes from that directory's data entry; an
      error comes from fetching or decoding that directory; no tile at all
      means the walk would have gone on but ran out of iterations. */
  lemma {:induction false} LastStep(q: Lookup, target: Fetch, depth: nat)
    requires depth > 0
    ensures var w := WalkFrom(q, target, depth);
      var last := w.directoryFetches[|w.directoryFetches| - 1];
      match w.dataFetch
      case Some(data) => EndsAt(q, last, data)
      case None =>
        || (w.result.Err? && Probe(q, last) == Err(w.result.error))
        || (w.result == Ok(None) && |w.directoryFetches| == depth && Next(q, last).Some?)
    decreases depth
  {
    if depth > 1 && Next(q, target).Some? {
      var next := Next(q, target).value;
      LastStep(q, next, depth - 1);
      var w := WalkFrom(q, target, depth);
      var rest := WalkFrom(q, next, depth - 1);
      assert w.directoryFetches[|w.directoryFetches| - 1] == rest.directoryFetches[|rest.directoryFetches| - 1];
    }
  }

  /** A directory that leads back to itself, by a miss or by a pointer to its
      own range, is fetched on every remaining iteration and the walk ends
      with no tile: a cyclic archive cannot make the walk run forever. */
  lemma {:induction false} RevisitEndsAbsent(q: Lookup, target: Fetch, depth: nat)
    requires Next(q, target) == Some(target)
    ensures WalkFrom(q, target, depth) == Walk(Ok(None), seq(depth, _ => target), None)
  {
    if depth > 0 {
      RevisitEndsAbsent(q, target, depth - 1);
      assert seq(depth, _ => target) == [target] + seq(depth - 1, _ => target);
    }
  }

  /** One pass of the loop, seen from the fetches `done` before it. */
  lemma Iteration(q: Lookup, done: seq<Fetch>, target: Fetch, depth: nat, whole: Walk)
    requires depth > 0 && Prefixed(done, WalkFrom(q, target, depth)) == whole
    ensures Next(q, target).Some? ==>
      whole == Prefixed(done + [target], WalkFrom(q, Next(q, target).value, depth - 1))
    ensures Next(q, target).None? ==> whole == Prefixed(done, Halt(q, target))
  {
    if Next(q, target).Some? {
      var rest := WalkFrom(q, Next(q, target).value, depth - 1);
      assert done + ([target] + rest.directoryFetches) == (done + [target]) + rest.directoryFetches;
    }
  }

  lemma TracePrefixed(done: seq<Fetch>, w: Walk)
    ensures Trace(Prefixed(done, w)) == done + Trace(w)
  {
  }

  /** What one pass of the loop decides: return, or go on with another directory. */
  datatype Step = Stop(result: Result<Option<Bytes>>) | Descend(dirOffset: nat, dirLength: nat)

  /** One pass of the loop: fetch the directory, decode it, look the tile up,
      and either fetch the tile's payload or say which directory comes next. */
  method VisitDirectory(lib: Library, store: Store, path: string, header: Header, tileId: nat,
                        dirOffset: nat, dirLength: nat)
    returns (step: Step)
    modifies store
    ensures var q := Lookup(lib, store.ranges, path, header, tileId);
      var target := Fetch(path, dirOffset, dirLength);
      && (step.Descend? <==> Next(q, target).Some?)
      && (step.Descend? ==>
            Next(q, target) == Some(Fetch(path, step.dirOffset, step.dirLength))
            && store.fetches == old(store.fetches) + [target])
      && (step.Stop? ==>
            step.result == Halt(q, target).result
            && store.fetches == old(store.fetches) + Trace(Halt(q, target)))
  {
    var directoryValues := store.GetRange(path, dirOffset, dirLength);
    if directoryValues.Err? {
      return Stop(Err(directoryValues.error));
    }
    var directory := lib.deserializeDirectory(directoryValues.value);
    if directory.Err? {
      return Stop(Err(directory.error));
    }
    var result := lib.findTile(directory.value, tileId);
    if result.None? {
      return Descend(dirOffset, dirLength);
    }
    if result.value.runLength == 0 {
      return Descend(header.leafDirectoryOffset + result.value.offset, result.value.length);
    }
    var data := store.GetRange(path, header.tileDataOffset + result.value.offset, result.value.length);
    return Stop(AsTile(data));
  }

  /** The loop of `get_tile` once the tile id is known. */
  method WalkDirectories(lib: Library, store: Store, path: string, header: Header, tileId: nat)
    returns (r: Result<Option<Bytes>>)
    modifies store
    ensures var w := WalkFrom(Lookup(lib, store.ranges, path, header, tileId),
                              Fetch(path, header.rootOffset, header.rootLength), MaxDepth);
      r == w.result && store.fetches == old(store.fetches) + Trace(w)
  {
    ghost var q := Lookup(lib, store.ranges, path, header, tileId);
    ghost var whole := WalkFrom(q, Root(q), MaxDepth);
    ghost var done: seq<Fetch> := [];
    var dirOffset: nat, dirLength: nat := header.rootOffset, header.rootLength;
    for i := 0 to MaxDepth
      invariant store.fetches == old(store.fetches) + done
      invariant Prefixed(done, WalkFrom(q, Fetch(path, dirOffset, dirLength), MaxDepth - i)) == whole
    {
      ghost var target := Fetch(path, dirOffset, dirLength);
      Iteration(q, done, target, MaxDepth - i, whole);
      var step := VisitDirectory(lib, store, path, header, tileId, dirOffset, dirLength);
      match step
      case Stop(result) =>
        TracePrefixed(done, Halt(q, target));
        return result;
      case Descend(nextOffset, nextLength) =>
        dirOffset, dirLength := nextOffset, nextLength;
      done := done + [target];
    }
    return Ok(None);
  }
}
