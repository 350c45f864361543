/** UnityEngine.Random as an oracle: an arbitrary stream of raw values, each
    draw consuming the next one and forcing it into the requested range.
    Because the stream is arbitrary, every value of the range can be drawn,
    and callers can rely on nothing but the range. */
module Randomness {

  /** `v` forced into [lo, hi]. */
  function Clamp(v: real, lo: real, hi: real): (r: real)
    requires lo <= hi
    ensures lo <= r <= hi
    ensures lo <= v <= hi ==> r == v
  {
    if v < lo then lo else if v > hi then hi else v
  }

  class RandomSource {
    const stream: nat -> real
    var cursor: nat

    constructor (stream: nat -> real)
      ensures this.stream == stream && cursor == 0
    {
      this.stream := stream;
      cursor := 0;
    }

    /** `Random.Range(float lo, float hi)`: a value in the closed range [lo, hi]. */
    method Range(lo: real, hi: real) returns (r: real)
      requires lo <= hi
      modifies this`cursor
      ensures lo <= r <= hi
      ensures r == Clamp(stream(old(cursor)), lo, hi)
      ensures cursor == old(cursor) + 1
    {
      r := Clamp(stream(cursor), lo, hi);
      cursor := cursor + 1;
    }

    /** `Random.Range(int lo, int hi)`: a value in the half-open range [lo, hi). */
    method RangeInt(lo: int, hi: int) returns (r: int)
      requires lo < hi
      modifies this`cursor
      ensures lo <= r < hi
      ensures r == lo + stream(old(cursor)).Floor % (hi - lo)
      ensures cursor == old(cursor) + 1
    {
      r := lo + stream(cursor).Floor % (hi - lo);
      cursor := cursor + 1;
    }
  }
}
