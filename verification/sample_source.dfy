/**
 * The upstream audio source: a finite stream of interleaved samples with a fixed format, read
 * from the front. A read returns fewer samples than requested only when the stream runs out.
 */
module Source {
  import opened Wrappers

  class SampleSource {
    /** The whole stream, interleaved. */
    const data: seq<real>
    const sampleRate: nat
    const channels: nat
    /** How many samples have been read so far. */
    var position: nat

    ghost predicate Valid()
      reads this
    {
      position <= |data|
    }

    constructor (data: seq<real>, sampleRate: nat, channels: nat)
      ensures Valid() && position == 0
      ensures this.data == data && this.sampleRate == sampleRate && this.channels == channels
    {
      this.data, this.sampleRate, this.channels := data, sampleRate, channels;
      position := 0;
    }

    /** Copies the next samples of the stream into `buffer[offset..]`, at most `count` of them. */
    method Read(buffer: array<real>, offset: nat, count: nat) returns (n: nat)
      requires Valid() && offset + count <= buffer.Length
      modifies this, buffer
      ensures Valid()
      ensures n == Min(count, |data| - old(position))
      ensures position == old(position) + n
      ensures buffer[offset..offset + n] == data[old(position)..position]
      ensures forall i :: 0 <= i < buffer.Length && !(offset <= i < offset + n) ==> buffer[i] == old(buffer[i])
    {
      n := Min(count, |data| - position);
      forall i | 0 <= i < n {
        buffer[offset + i] := data[position + i];
      }
      position := position + n;
    }
  }
}
