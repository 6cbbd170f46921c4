/**
 * Value types shared by the reconstruction pipeline: octets as held in a
 * Uint8Array, samples as held in an Int16Array, an optional value, and the
 * concatenation of a list of byte runs.
 */
module ByteData {

  /** One element of a Uint8Array (what DataView.getUint8 reads back). */
  type byte = b: int | 0 <= b < 0x100

  type Bytes = seq<byte>

  /** One element of an Int16Array. */
  type int16 = x: int | -0x8000 <= x < 0x8000

  datatype Option<T> = None | Some(value: T)

  /** The runs laid end to end, in order. */
  function Flatten<T>(parts: seq<seq<T>>): seq<T>
  {
    if parts == [] then [] else Flatten(parts[..|parts| - 1]) + parts[|parts| - 1]
  }

  /** Flattening distributes over concatenation of the list of runs. */
  lemma {:induction false} FlattenConcat<T>(a: seq<seq<T>>, b: seq<seq<T>>)
    ensures Flatten(a + b) == Flatten(a) + Flatten(b)
  {
    if b == [] {
      assert a + b == a;
    } else {
      var last := |b| - 1;
      assert (a + b)[..|a + b| - 1] == a + b[..last];
      FlattenConcat(a, b[..last]);
    }
  }
}
