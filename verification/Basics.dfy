/** Types and small facts shared by all modules. */
module Basics {

  datatype Option<+T> = None | Some(value: T)

  datatype Result<+T, +E> = Ok(value: T) | Err(error: E)

  // Go strings and byte slices are byte sequences.
  newtype byte = b: int | 0 <= b < 256
  type Bytes = seq<byte>

  function Min(a: nat, b: nat): (m: nat) { if a <= b then a else b }

  function Max(a: nat, b: nat): (m: nat) { if a <= b then b else a }

  lemma {:induction false} SubsetSize<T>(a: set<T>, b: set<T>)
    requires a <= b
    ensures |a| <= |b|
  {
    if a != {} {
      var x :| x in a;
      SubsetSize(a - {x}, b - {x});
    }
  }

  ghost function AnyOf<T>(s: set<T>): (x: T)
    requires s != {}
    ensures x in s
  {
    var x :| x in s;
    x
  }
}
