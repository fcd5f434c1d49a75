/** Valuers: descriptions of how a value is obtained at resolution time, and
    in particular the constant `Error(err)` valuer. */
module Valuer {
  import opened Types

  /** A Go `error`. User errors are identified by `id` (two errors built from
      the same text are different errors); `NilErrorSubstitute` is the error
      the `Error` valuer reports when it was given nil. */
  datatype Error = Error(id: nat, message: string) | NilErrorSubstitute

  /** The text `err.Error()` returns. */
  function Message(e: Error): string {
    match e
    case Error(_, m) => m
    case NilErrorSubstitute => "error is nil"
  }

  /** `errors.Is` for errors that wrap nothing: the same error. */
  predicate Is(e: Error, target: Error) {
    e == target
  }

  /** The outcome of `Value`: an ordered result list or an error. */
  datatype Result<T> = Values(values: seq<T>) | Failed(error: Error)

  /** `Result.AsError`: the carried error, present exactly for a failed result. */
  function AsError<T>(r: Result<T>): (e: Option<Error>)
    ensures e.Some? <==> r.Failed?
    ensures e.Some? ==> e.value == r.error
  {
    if r.Failed? then Some(r.error) else None
  }

  /** A Go value handed to `Func`: nil, or a value of some reflected type. */
  datatype Callable = NilValue | ValueOf(typ: Type)

  /** The constant valuer built by `Error(err)`; `err` may be nil. */
  datatype ConstValuer = ConstValuer(err: Option<Error>)

  /** The closed set of valuers. */
  datatype Valuer =
    | Func(callee: Callable)
    | Param(index: nat)
    | Index(index: nat)
    | Const(constant: ConstValuer)

  /** `Error(err)`. */
  function ErrorValuer(err: Option<Error>): (v: ConstValuer)
    ensures err.Some? ==> Value<int>(v, []) == Failed(err.value)
  {
    ConstValuer(err)
  }

  /** `Value(input)`: always a failed result, whatever the input; the error is
      the wrapped one, or a substituted non-nil error when none was wrapped. */
  function Value<T>(v: ConstValuer, input: seq<T>): (r: Result<T>)
    ensures AsError(r).Some?
    ensures v.err.Some? ==> Is(AsError(r).value, v.err.value)
    ensures v.err.None? ==> r == Failed(NilErrorSubstitute)
  {
    Failed(v.err.GetOr(NilErrorSubstitute))
  }

  /** `String()`: "Error: " followed by the message of the error `Value` reports. */
  function String(v: ConstValuer): (s: string)
    ensures |s| >= 7 && s[..7] == "Error: "
    ensures s[7..] == Message(Value<int>(v, []).error)
  {
    "Error: " + Message(v.err.GetOr(NilErrorSubstitute))
  }

  /** The "String" test: a valuer wrapping "this is error" prints as
      "Error: this is error". */
  lemma StringOfWrappedError(id: nat)
    ensures String(ErrorValuer(Some(Error(id, "this is error")))) == "Error: this is error"
  {
  }

  /** `Equal`, on possibly nil receivers: two nil valuers are equal, a nil and a
      non-nil one are not, and two valuers are equal when they wrap the same
      error (in the sense of `Is`) or both wrap nil. */
  predicate Equal(a: Option<ConstValuer>, b: Option<ConstValuer>) {
    match (a, b)
    case (None, None) => true
    case (Some(x), Some(y)) =>
      (x.err.None? && y.err.None?) ||
      (x.err.Some? && y.err.Some? && Is(x.err.value, y.err.value))
    case _ => false
  }

  /** Equal valuers report the same result for every input. */
  lemma EqualValuersYieldSameResult<T>(a: ConstValuer, b: ConstValuer, input: seq<T>)
    requires Equal(Some(a), Some(b))
    ensures Value(a, input) == Value(b, input)
  {
  }

  /** `Equal` is an equivalence on possibly nil valuers. */
  lemma EqualIsEquivalence(a: Option<ConstValuer>, b: Option<ConstValuer>, c: Option<ConstValuer>)
    ensures Equal(a, a)
    ensures Equal(a, b) ==> Equal(b, a)
    ensures Equal(a, b) && Equal(b, c) ==> Equal(a, c)
  {
  }

  /** A nil valuer equals only a nil valuer, in either order. */
  lemma NilValuerEquality(v: ConstValuer)
    ensures Equal(None, None)
    ensures !Equal(None, Some(v)) && !Equal(Some(v), None)
  {
  }

  /** Valuers wrapping different errors are not equal. */
  lemma DifferentErrorsAreUnequal(e1: Error, e2: Error)
    requires e1 != e2
    ensures !Equal(Some(ErrorValuer(Some(e1))), Some(ErrorValuer(Some(e2))))
  {
  }

  /** `Clone()`: a copy that is structurally the same and `Equal` to the original. */
  function Clone(v: ConstValuer): (c: ConstValuer)
    ensures c == v
    ensures Equal(Some(c), Some(v)) && Equal(Some(v), Some(c))
  {
    ConstValuer(v.err)
  }
}
