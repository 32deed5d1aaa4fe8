/** Types shared by every part of the model. */
module Base {
  type Byte = b: int | 0 <= b < 256
  type Bytes = seq<Byte>

  datatype Option<+T> = None | Some(value: T)

  /** The concatenation of a list of byte strings. */
  function Concat(parts: seq<Bytes>): (r: Bytes) {
    if parts == [] then [] else Concat(parts[..|parts| - 1]) + parts[|parts| - 1]
  }

  lemma ConcatAppend(parts: seq<Bytes>, last: Bytes)
    ensures Concat(parts + [last]) == Concat(parts) + last
  {
    assert (parts + [last])[..|parts|] == parts;
  }

  /** Of the events of many callers, those of caller `i`, in order. */
  function Own<E>(evs: seq<(nat, E)>, i: nat): seq<E> {
    if evs == [] then [] else
    var last := evs[|evs| - 1];
    Own(evs[..|evs| - 1], i) + (if last.0 == i then [last.1] else [])
  }
}
