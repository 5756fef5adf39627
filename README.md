# micmute error type, modelled in Dafny

micmute's only logic is its error type (`micmute/src/error.rs`). It has three parts:

- `MiMuErrorKind`: a one-variant tag, `Misc(&'static str)`.
- `MiMuWrappedError`: a closed wrapper whose only live variant boxes another `MiMuError`.
- `MiMuError`: a kind plus an optional wrapped cause.

The type also has its `Display`, `Debug` and `Error::source` implementations. This project models all of them as Dafny datatypes and functions, and proves what they render and return.

- `rust_fmt.dfy` (module `RustFmt`) models the `{:?}` form of a string: the escaped body between two double quotes. The character escaping of `<str as Debug>::fmt` belongs to Rust's standard library. It is a parameter `esc` of every renderer. The only fact assumed of it, and only by the lemmas that need it, is `KeepsEmpty(esc)`: the empty string escapes to the empty string.
- `error.dfy` (module `MiMuErrors`) holds the three datatypes, `new` and `wrap`, the three renderers and the two `source` implementations. It also holds the lemmas about them.

The model follows the code, whose renderings are not the ones a reader might expect:

- An error's `Display` formats its kind with `{:?}`. It writes the derived form `Misc("<escaped message>")`, not the bare message.
- An error's `Debug` writes the bare message, then the suffix formatted with `{:?}`. The suffix is quoted and escaped. For a leaf the suffix is empty, so the output ends in `""`.
- The wrapped part of `Debug` uses the cause's `Display`, not its `Debug`. Exactly one level of the chain is rendered.
- `source()` forwards to the wrapped error's own `source()`, so it skips the immediate cause. Because the only wrapped family is `MiMuError` itself, `source()` is `None` for every value. The model reproduces this behaviour and proves it; it does not replace it with the conventional "return the immediate cause".

`LeafExample` and `WrappedExample` pin down what the code renders for a leaf and for a two-level chain.

## Model

| member | source | states |
|---|---|---|
| `RustFmt.DebugStr` | micmute/src/error.rs:98 | the `{:?}` form of a string is two characters longer than its escaped body, starts and ends with a double quote, and holds exactly the escaped body between them |
| `RustFmt.DebugStrOfEmpty` | micmute/src/error.rs:100 | with an escaper that keeps the empty string empty, the `{:?}` form of `String::new()` is exactly two quote characters |
| `MiMuErrors.KindToString` | micmute/src/error.rs:10-17 | `String::from(&kind)` yields a string from which `Misc` rebuilds the same kind: the message is returned unchanged |
| `MiMuErrors.KindDisplay` | micmute/src/error.rs:19-24 | the kind's `Display` writes exactly the message the kind carries |
| `MiMuErrors.KindDebug` | micmute/src/error.rs:5-8 | the derived `Debug` of a kind is `Misc(`, then the quoted, escaped message, then `)` |
| `MiMuErrors.New` | micmute/src/error.rs:111-116 | `new(k)` has kind `k` and no wrapped error; its chain is the error alone and its `source()` is `None` |
| `MiMuErrors.Wrap` | micmute/src/error.rs:121-126 | `wrap(k, w)` has kind `k` and wrapped error `Some(w)` and nothing else; its chain is the error followed by the chain of the wrapped error |
| `MiMuErrors.Chain` | micmute/src/error.rs:84-88 | following wrapped causes from an error gives a finite list that starts at the error, in which each element wraps the next, and that ends at a leaf |
| `MiMuErrors.Unwrap` | micmute/src/error.rs:40-62 | the three `unwrap_as_*` functions return the error held by the `MiMu` variant, which rebuilds the same wrapper |
| `MiMuErrors.WrappedDisplay` | micmute/src/error.rs:64-68 | the wrapper's `Display` is the held error's `Display`: `Misc(`, then the quoted, escaped message of the held error's kind |
| `MiMuErrors.WrappedDebug` | micmute/src/error.rs:70-74 | the wrapper's `Debug` is the held error's `Debug`, which begins with the held error's raw message |
| `MiMuErrors.WrappedSource` | micmute/src/error.rs:79-81 | the wrapper's `source()` is the held error's own `source()` |
| `MiMuErrors.WrapperForwards` | micmute/src/error.rs:64-82 | `Display`, `Debug` and `source()` of `MiMu(e)` equal those of `e` |
| `MiMuErrors.ErrDisplay` | micmute/src/error.rs:90-94 | an error's `Display` is `Misc(`, then the quoted, escaped message of its kind, then `)` |
| `MiMuErrors.DisplayDependsOnlyOnKind` | micmute/src/error.rs:90-94 | two errors with equal kinds display identically, whatever they wrap |
| `MiMuErrors.DebugSuffix` | micmute/src/error.rs:98-101 | the suffix is empty exactly when nothing is wrapped; otherwise it is `[WRAPPED ERROR]: ` followed by the cause's `Display` |
| `MiMuErrors.ErrDebug` | micmute/src/error.rs:96-103 | an error's `Debug` begins with its kind's `Display`, the raw message; the rest is the `{:?}` form of `""` for a leaf, or of `[WRAPPED ERROR]: ` followed by the cause's `Display` |
| `MiMuErrors.LeafDebug` | micmute/src/error.rs:98-101 | a leaf's `Debug` is its message followed by two quote characters |
| `MiMuErrors.DebugOneLevel` | micmute/src/error.rs:98-99 | the `Debug` of an outer error is the same for any two inner errors of the same kind, whatever those inner errors wrap |
| `MiMuErrors.RenderingDepth` | micmute/src/error.rs:90-103 | cutting the chain below the error itself leaves `Display` unchanged, and cutting it below the immediate cause leaves `Debug` unchanged (the cut is made by `Truncate`, a proof helper that models no source operation) |
| `MiMuErrors.Source` | micmute/src/error.rs:136-141 | a leaf's `source()` is `None`; a wrapping error's `source()` is its immediate cause's own `source()`, one level down |
| `MiMuErrors.SourceIsNone` | micmute/src/error.rs:136-141 | `source()` of every `MiMuError`, at any depth of wrapping, is `None` |
| `MiMuErrors.WrappedSourceIsNone` | micmute/src/error.rs:79-81 | `source()` of every `MiMuWrappedError` is `None` |
| `MiMuErrors.LeafExample` | micmute/src/error.rs:90-116 | for `new(Misc("disk full"))`: `Display` is `Misc(` plus the quoted message plus `)`, `Debug` is `disk full""`, and `source()` is `None` |
| `MiMuErrors.WrappedExample` | micmute/src/error.rs:90-126 | for `save failed` wrapping a `permission denied` leaf: `Debug` is `save failed` plus the quoted `[WRAPPED ERROR]: Misc(…)`; `source()` is `None` although a cause is present |
| `MiMuErrors.LeafDebugShowsQuotes` | micmute/src/error.rs:98-101 | as written, a leaf's `Debug` is `disk full""`, which differs from the bare message |
| `MiMuErrors.IntendedDebug` | micmute/src/error.rs:96-103 | with `{}` for the suffix, a leaf's `Debug` is exactly its message, and a wrapping error's `Debug` is its message, `[WRAPPED ERROR]: ` and the cause's `Display` |

## Findings

| source | as written | input that shows it | evidently intended | confidence | as-written member | corrected member |
|---|---|---|---|---|---|---|
| micmute/src/error.rs:98-101 | the suffix after the kind is formatted with `{:?}`, so it is quoted and escaped even when it is empty | `MiMuError::new(MiMuErrorKind::Misc("disk full"))` renders with `Debug` as `disk full""` | the suffix formatted with `{}`: the comment on line 100 says the leaf suffix is the empty string, so a leaf renders as `disk full` | medium, not executed | `MiMuErrors.LeafDebugShowsQuotes` | `MiMuErrors.IntendedDebug` |

`ErrDebug` stays the model of `Debug`, so the rest of the model describes the code as written. `IntendedDebug` is the corrected rendering. Its contract proves the intended property.

## Left out

- `micmute/src/main.rs`: the entry point builds one leaf error and returns it to Rust's default reporter. Printing and the process exit status belong to the host runtime.
- The character escaping of `<str as Debug>::fmt`: it is Rust standard-library behaviour. It is the parameter `esc`, and only `KeepsEmpty(esc)` is assumed of it.
- `std::fmt::Formatter` and the failure path of `fmt::Result`: every `write!` is taken to succeed, so each renderer is a function returning its string.
- Trait objects, lifetimes and `Box` ownership: `&dyn Display`, `&dyn Debug` and `&(dyn Error + 'static)` become direct recursion on the datatypes. `unwrap_as_display`, `unwrap_as_debug` and `unwrap_as_static_error` differ only in the trait they return, so one function, `Unwrap`, models all three. `source()` returns an `ErrorRef` value in place of a reference.
- The commented-out `Io(io::Error)` variant (error.rs lines 33-37, 44, 51, 58): it is not live code and would wrap a foreign type.
- The `MiMuResult<T>` alias (error.rs line 27): a type synonym with no behaviour.
