# errorx panic payload, in Dafny

This project models `panic.go` of the Go package errorx: the carrier value
(`panicErrorWrapper`) that `Panic` hands to the Go runtime, and
`ErrorFromPanic`, which decodes whatever `recover()` returned.

- `Panic(err)` builds a carrier holding `err` as `originalError`, together with
  `errorWithStackTrace`: `err` itself when `err` is an errorx `*Error` that
  already has a stack trace, otherwise a new errorx error of the
  `transparentWrapper` type, with an empty message and `err` as its cause.
- `ErrorFromPanic(v)` gives `(nil, false)` when `v` is not an error (nil
  included), the carrier's `errorWithStackTrace` when `v` is a carrier, and any
  other error unchanged, each with `found = true`.
- The carrier's `Error()` and `String()` are the detailed (`%+v`) rendering of
  `originalError`.

Go's dynamic types become the constructors of `Err` (`Plain`, `Structured` for
`*Error`, `Wrapper` for `*panicErrorWrapper`) and of `Payload` (`Nil`,
`NonError`, `ErrorValue`). Go's pointer identity becomes an explicit `id`, and
allocation is a counter: the builder's new `*Error` takes the counter's value
and the carrier takes the next one. A nil `err` is modelled as `None`: the type
assertion at panic.go:49 fails on it, so it gets a transparent wrapper with no
cause.

Beyond the single raise and recover, the model follows a panic through `n`
nested frames that each recover with `ErrorFromPanic` and raise again with
`Panic` (`ReRaise`). It proves that only the first raise synthesises a stack
trace, so wrappers never pile up.

The code and the package's documentation disagree on one point. The comment at
panic.go:25 says that `ErrorFromPanic` recovers the original error; the code at
panic.go:41 returns `errorWithStackTrace`. The model follows the code. So an
error without a stack trace comes back as the transparent wrapper around it, not
as itself (`StacklessErrorComesBackWrapped`).

## Model

| member | source | states |
|---|---|---|
| Errorx.BuildTransparentWrapper | panic.go:50-51 | the builder yields a new error (its id is the next free one) of the transparent wrapper type, with an empty message, the given cause and a stack trace |
| Errorx.NewPanicErrorWrapper | panic.go:47-58 | `originalError` is the input; `errorWithStackTrace` always has a stack trace; it is the input itself if and only if the input already had one; otherwise it is a new transparent wrapper with an empty message whose cause is the input |
| Errorx.Panic | panic.go:21-23 | the payload raised is a carrier whose `originalError` is the argument and whose other field has a stack trace |
| Errorx.ErrorFromPanic | panic.go:34-45 | `found` holds exactly when the recovered value is an error, and exactly when the returned error is non-nil; a carrier gives its `errorWithStackTrace` and never the carrier itself; any other error is returned unchanged |
| Errorx.PanicErrorWrapper.Error | panic.go:65-68 | the text is the detailed rendering of `originalError` |
| Errorx.PanicErrorWrapper.String | panic.go:70-72 | the text equals `Error()` |
| Errorx.NewPanicErrorWrapperIsFresh | panic.go:47-58 | when everything reachable from the input was allocated before, the carrier and any synthesised wrapper are new objects, none of them reachable from the input, and the carrier again reaches only allocated objects |
| Errorx.RoundTrip | panic.go:21-58 | recovering the payload of `Panic(err)` finds an error that has a stack trace and is not a carrier; it is `err` if and only if `err` had a stack trace, and otherwise a transparent wrapper with an empty message whose cause is `err` |
| Errorx.PanicTextIsOriginal | panic.go:65-72 | the text of the payload of `Panic(err)` is the detailed rendering of `err`, whether or not a wrapper was synthesised |
| Errorx.ReRaise | panic.go:21-45 | after one or more recover-and-raise frames the recovered error has a stack trace and is not a carrier |
| Errorx.ReRaiseKeepsStackedError | panic.go:47-58 | an error that already has a stack trace comes back unchanged through any number of recover-and-raise frames |
| Errorx.ReRaiseWrapsOnce | panic.go:21-58 | through any number of frames (at least one) the recovered error is the one a single raise and recover gives: no second wrapper is built |
| Errorx.StacklessErrorComesBackWrapped | panic.go:40-51 | an error without a stack trace (nil, a non-errorx error, or an errorx error whose stack trace is nil) is not returned as itself after a raise and recover; what comes back has it as cause |

## Left out

- The `panic(...)` call in `Panic` and the unwinding it starts: `Panic` is modelled as the payload it raises, since it never returns.
- The errorx `*Error` type, `NewErrorBuilder`, `WithConditionallyFormattedMessage`, `WithCause`, `Create` and stack-trace capture are not part of this model; the builder is the function `BuildTransparentWrapper`, whose result always has a stack trace.
- `fmt.Sprintf("%+v", ...)` and the errorx formatter: `Error()` and `String()` take the detailed rendering as a function parameter and say only that they apply it to `originalError`.
- Go's type system and heap: dynamic types are datatype constructors and pointers are ids; a typed nil pointer stored in an `error` cannot be expressed. For a nil `*Error` the type assertion at panic.go:49 succeeds and reading `typedErr.stackTrace` dereferences nil, so `Panic` raises a Go runtime nil-pointer panic instead of a carrier; the model has no such input.
- The message an errorx error prints (a transparent wrapper with an empty message shows its cause's message) belongs to the formatter and is not modelled.
