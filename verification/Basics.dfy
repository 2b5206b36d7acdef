/** Stock datatypes and machine-integer bounds shared by every module. */
module Basics {

  datatype Option<+T> = None | Some(value: T) {
    function GetOr(default: T): T {
      match this
      case Some(v) => v
      case None => default
    }
  }

  /** gRPC status codes that the modelled services return; message texts are not modelled. */
  datatype Code = NotFound | InvalidArgument | FailedPrecondition | AlreadyExists | ResourceExhausted | Internal

  datatype Result<+T> = Ok(value: T) | Err(code: Code) {
    predicate IsFailure() { Err? }

    function PropagateFailure<U>(): Result<U>
      requires Err?
    {
      Err(code)
    }

    function Extract(): T
      requires Ok?
    {
      value
    }
  }

  /** The outcome of an operation that only changes state. */
  datatype Status = Done | Failed(code: Code)

  type Byte = x: int | 0 <= x < 256

  const U64: nat := 0x1_0000_0000_0000_0000
  const U64_MAX: nat := 0xFFFF_FFFF_FFFF_FFFF
  const U32: nat := 0x1_0000_0000

  function Min(a: nat, b: nat): nat { if a <= b then a else b }

  /** Rust's u64::saturating_add, saturating_sub and saturating_mul. */
  function SatAdd(a: nat, b: nat): nat { Min(a + b, U64_MAX) }

  function SatSub(a: nat, b: nat): nat { if a >= b then a - b else 0 }

  function SatMul(a: nat, b: nat): nat { Min(a * b, U64_MAX) }

  /** The residue that u64 arithmetic keeps when it wraps around. */
  function Wrap64(n: nat): nat {
    if n < U64 then n else Wrap64(n - U64)
  }

  lemma {:induction false} WrapAdd(a: nat, b: nat)
    ensures Wrap64(Wrap64(a) + b) == Wrap64(a + b)
  {
    if a >= U64 {
      WrapAdd(a - U64, b);
    }
  }

  ghost predicate NoDuplicates<T(!new)>(s: seq<T>) {
    forall i, j :: 0 <= i < j < |s| ==> s[i] != s[j]
  }

  /** The members of a finite set, each once. */
  ghost function Listed<T(!new)>(s: set<T>): (r: seq<T>)
    ensures NoDuplicates(r) && |r| == |s|
    ensures forall x :: x in r <==> x in s
    decreases |s|
  {
    if s == {} then [] else
      var x :| x in s;
      Listed(s - {x}) + [x]
  }
}
