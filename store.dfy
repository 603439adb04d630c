/** The byte-range store a reader is opened on (the `Store` protocol). */
module RangeStore {
  import opened Pmtiles

  /** One call of `get_range_async(path, start=start, length=length)`. */
  datatype Fetch = Fetch(path: string, start: nat, length: nat)

  /** What the store answers to each request: the bytes, or the exception it raises. */
  type Ranges = Fetch -> Result<Bytes>

  /** A store; `fetches` records every range it was asked for, in order. */
  class Store {
    const ranges: Ranges
    ghost var fetches: seq<Fetch>

    constructor (ranges: Ranges)
      ensures this.ranges == ranges && fetches == []
    {
      this.ranges := ranges;
      fetches := [];
    }

    method GetRange(path: string, start: nat, length: nat) returns (r: Result<Bytes>)
      modifies this
      ensures fetches == old(fetches) + [Fetch(path, start, length)]
      ensures r == ranges(Fetch(path, start, length))
    {
      fetches := fetches + [Fetch(path, start, length)];
      r := ranges(Fetch(path, start, length));
    }
  }
}
