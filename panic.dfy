/**
  The panic payload of the errorx package (panic.go): the carrier that `Panic`
  hands to the Go runtime, and `ErrorFromPanic`, which decodes whatever
  `recover()` returned.

  Go's dynamic interface types become the constructors of `Err` and `Payload`;
  Go's pointer identity becomes an explicit `id`. Allocation is a counter `next`:
  every object already built has an id below it, and each new object takes
  `next` and moves the counter on.
 */
module Errorx {
  import opened Wrappers

  /** The identity of a heap object (a Go pointer). */
  type Id = nat

  /** The errorx type of an `*Error`; only the transparent wrapper type matters here. */
  datatype ErrorType = TransparentWrapper | Named(name: string)

  /** A non-nil Go `error`, told apart by the dynamic type panic.go asserts against. */
  datatype Err =
      /** any error that is neither an errorx `*Error` nor a `*panicErrorWrapper` */
    | Plain(id: Id, message: string)
      /** an errorx `*Error`; `hasStackTrace` stands for `stackTrace != nil` */
    | Structured(id: Id, errorType: ErrorType, message: string, cause: Option<Err>, hasStackTrace: bool)
      /** a `*panicErrorWrapper` */
    | Wrapper(wrapper: PanicErrorWrapper)

  /** The carrier: the error as given to `Panic`, and a version of it that holds a stack trace. */
  datatype PanicErrorWrapper = PanicErrorWrapper(id: Id, originalError: Option<Err>, errorWithStackTrace: Err)
  {
    /**
      `Error()` is the detailed (`%+v`) rendering of the original error, never of
      the copy with the stack trace. `detailed` stands for `fmt.Sprintf("%+v", _)`.
     */
    function Error(detailed: Option<Err> -> string): (s: string)
      ensures s == detailed(originalError)
    {
      detailed(originalError)
    }

    /** `String()` is the same text as `Error()`. */
    function String(detailed: Option<Err> -> string): (s: string)
      ensures s == Error(detailed) && s == detailed(originalError)
    {
      Error(detailed)
    }
  }

  /** The value `recover()` returns: nil, some value that is not an error, or an error. */
  datatype Payload = Nil | NonError(description: string) | ErrorValue(err: Err)

  /** A value together with the allocation counter after building it. */
  datatype Alloc<T> = Alloc(value: T, next: Id)

  /** Every object identity reachable from `e`. */
  function Ids(e: Err): set<Id>
  {
    match e
    case Plain(id, _) => {id}
    case Structured(id, _, _, cause, _) =>
      {id} + (if cause.Some? then Ids(cause.value) else {})
    case Wrapper(w) =>
      {w.id} + (if w.originalError.Some? then Ids(w.originalError.value) else {})
      + Ids(w.errorWithStackTrace)
  }

  /** Every object reachable from `e` was allocated before the counter reached `next`. */
  predicate Allocated(e: Option<Err>, next: Id)
  {
    e.Some? ==> forall i :: i in Ids(e.value) ==> i < next
  }

  /** `err.(*Error)` succeeds and the error carries a stack trace (nil fails the assertion). */
  predicate HasStackTrace(err: Option<Err>)
  {
    err.Some? && err.value.Structured? && err.value.hasStackTrace
  }

  /**
    `NewErrorBuilder(transparentWrapper).WithConditionallyFormattedMessage("").WithCause(cause).Create()`:
    a new errorx error of the transparent wrapper type, with an empty message, the
    given cause and a stack trace.
   */
  function BuildTransparentWrapper(cause: Option<Err>, next: Id): (r: Alloc<Err>)
    ensures r.value.Structured? && r.value.errorType == TransparentWrapper
    ensures r.value.message == "" && r.value.cause == cause
    ensures HasStackTrace(Some(r.value))
    ensures r.value.id == next && r.next == next + 1
  {
    Alloc(Structured(next, TransparentWrapper, "", cause, true), next + 1)
  }

  /**
    Builds the carrier for `err`. A stack trace is synthesised only when `err`
    does not already have one; the original error is always kept as it was.
   */
  function NewPanicErrorWrapper(err: Option<Err>, next: Id): (r: Alloc<PanicErrorWrapper>)
    ensures r.value.originalError == err
    ensures HasStackTrace(Some(r.value.errorWithStackTrace))
    ensures HasStackTrace(err) <==> Some(r.value.errorWithStackTrace) == err
    ensures HasStackTrace(err) ==> r.value.id == next && r.next == next + 1
    ensures !HasStackTrace(err) ==>
      var s := r.value.errorWithStackTrace;
      && s.Structured? && s.errorType == TransparentWrapper && s.message == "" && s.cause == err
      && s.id == next && r.value.id == next + 1 && r.next == next + 2
  {
    if HasStackTrace(err) then
      Alloc(PanicErrorWrapper(next, err, err.value), next + 1)
    else
      var built := BuildTransparentWrapper(err, next);
      assert Some(built.value) != err by {
        if err.Some? { assert err.value < built.value; }
      }
      Alloc(PanicErrorWrapper(built.next, err, built.value), built.next + 1)
  }

  /**
    The payload `Panic(err)` raises, with the allocation counter after it;
    `Panic` itself never returns.
   */
  function Panic(err: Option<Err>, next: Id): (p: Alloc<Payload>)
    ensures p.value.ErrorValue? && p.value.err.Wrapper?
    ensures p.value.err.wrapper.originalError == err
    ensures HasStackTrace(Some(p.value.err.wrapper.errorWithStackTrace))
  {
    var w := NewPanicErrorWrapper(err, next);
    Alloc(ErrorValue(Wrapper(w.value)), w.next)
  }

  /**
    Decodes a recovered value: a non-error gives `(nil, false)`; a carrier gives
    its error with the stack trace; any other error comes back as it is.
   */
  function ErrorFromPanic(recoverResult: Payload): (r: (Option<Err>, bool))
    ensures r.1 <==> recoverResult.ErrorValue?
    ensures r.1 <==> r.0.Some?
    ensures recoverResult.ErrorValue? && recoverResult.err.Wrapper? ==>
      r.0 == Some(recoverResult.err.wrapper.errorWithStackTrace) && r.0 != Some(recoverResult.err)
    ensures recoverResult.ErrorValue? && !recoverResult.err.Wrapper? ==> r.0 == Some(recoverResult.err)
  {
    if !recoverResult.ErrorValue? then
      (None, false)
    else if recoverResult.err.Wrapper? then
      assert recoverResult.err.wrapper.errorWithStackTrace < recoverResult.err;
      (Some(recoverResult.err.wrapper.errorWithStackTrace), true)
    else
      (Some(recoverResult.err), true)
  }

  /**
    The objects `NewPanicErrorWrapper` builds are new: none of them is `err` or
    anything reachable from it, and the carrier again only reaches allocated objects.
   */
  lemma NewPanicErrorWrapperIsFresh(err: Option<Err>, next: Id)
    requires Allocated(err, next)
    ensures var r := NewPanicErrorWrapper(err, next);
      && (err.Some? ==> r.value.id !in Ids(err.value))
      && (err.Some? && !HasStackTrace(err) ==> r.value.errorWithStackTrace.id !in Ids(err.value))
      && Allocated(Some(Wrapper(r.value)), r.next)
  {
  }

  /**
    Raise then recover: the recovered error is found and holds a stack trace. It is
    `err` itself exactly when `err` already had a stack trace; otherwise it is the new
    transparent wrapper whose cause is `err`. A carrier never comes back out.
   */
  lemma RoundTrip(err: Option<Err>, next: Id)
    ensures var (r, found) := ErrorFromPanic(Panic(err, next).value);
      && found && r.Some? && HasStackTrace(r) && !r.value.Wrapper?
      && (r == err <==> HasStackTrace(err))
      && (!HasStackTrace(err) ==>
            r.value.errorType == TransparentWrapper && r.value.message == "" && r.value.cause == err)
  {
  }

  /**
    The text an unaware handler prints for the payload of `Panic(err)` is the
    detailed rendering of `err`, whether or not a wrapper was synthesised.
   */
  lemma PanicTextIsOriginal(err: Option<Err>, next: Id, detailed: Option<Err> -> string)
    ensures var p := Panic(err, next).value;
      p.err.wrapper.Error(detailed) == detailed(err) && p.err.wrapper.String(detailed) == detailed(err)
  {
  }

  /**
    `n` nested frames, each of which recovers with `ErrorFromPanic` and raises what
    it got again with `Panic`; the result is what the outermost frame recovers.
   */
  function ReRaise(err: Option<Err>, n: nat, next: Id): (r: Option<Err>)
    decreases n
    ensures n >= 1 ==> HasStackTrace(r) && !r.value.Wrapper?
    ensures n == 0 ==> r == err
  {
    if n == 0 then err
    else
      var p := Panic(err, next);
      RoundTrip(err, next);
      ReRaise(ErrorFromPanic(p.value).0, n - 1, p.next)
  }

  /** Re-raising an error that already has a stack trace gives it back, through any number of frames. */
  lemma {:induction false} ReRaiseKeepsStackedError(err: Option<Err>, n: nat, next: Id)
    requires HasStackTrace(err)
    ensures ReRaise(err, n, next) == err
  {
    if n > 0 {
      RoundTrip(err, next);
      ReRaiseKeepsStackedError(err, n - 1, Panic(err, next).next);
    }
  }

  /**
    Only the first raise synthesises a stack trace: recovering and re-raising
    through `n >= 1` frames recovers the same error as a single raise.
   */
  lemma {:induction false} ReRaiseWrapsOnce(err: Option<Err>, n: nat, next: Id)
    requires n >= 1
    ensures ReRaise(err, n, next) == ReRaise(err, 1, next)
    ensures var (r, _) := ErrorFromPanic(Panic(err, next).value); ReRaise(err, n, next) == r
  {
    var p := Panic(err, next);
    var r := ErrorFromPanic(p.value).0;
    RoundTrip(err, next);
    ReRaiseKeepsStackedError(r, n - 1, p.next);
  }

  /**
    An error with no stack trace (nil included) is not what `ErrorFromPanic` gives
    back: it returns `errorWithStackTrace`, the wrapper around it, although the
    comment on `ErrorFromPanic` speaks of recovering the original error.
   */
  lemma StacklessErrorComesBackWrapped(err: Option<Err>, next: Id)
    requires !HasStackTrace(err)
    ensures var (r, found) := ErrorFromPanic(Panic(err, next).value);
      found && r != err && r.value.cause == err
  {
  }
}
