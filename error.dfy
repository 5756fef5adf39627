/** micmute's principal error type: a kind tag, an optional wrapped cause,
    and the Display, Debug and `Error::source` behaviour of both the error
    and the wrapper around its cause.

    Rust's trait objects (`&dyn Display`, `&dyn Debug`, `&dyn Error`) and
    `Box` become direct recursion on the datatypes; every `write!` is taken
    to succeed, so each renderer is a function returning the string it
    writes. */
module MiMuErrors {
  import opened RustFmt

  datatype Option<T> = None | Some(value: T)

  /** `MiMuErrorKind`: a closed tag set whose one variant carries a static
      message. */
  datatype MiMuErrorKind = Misc(msg: string)

  /** `MiMuWrappedError`: the closed set of error families an error may wrap.
      Its only live variant boxes another `MiMuError`. */
  datatype MiMuWrappedError = MiMu(inner: MiMuError)

  /** `MiMuError`: a kind and, optionally, the wrapped cause. */
  datatype MiMuError = MiMuError(kind: MiMuErrorKind, wrapped: Option<MiMuWrappedError>)

  /** What `Error::source` hands back when it is not `None`: a reference to
      some error value. */
  datatype ErrorRef = ToError(err: MiMuError) | ToWrapped(wrapper: MiMuWrappedError)

  // ---------------------------------------------------------------------
  // MiMuErrorKind
  // ---------------------------------------------------------------------

  /** `String::from(&kind)`: the kind's message. The kind is recovered from
      the string, so nothing is added to or dropped from the message. */
  function KindToString(kind: MiMuErrorKind): (s: string)
    ensures Misc(s) == kind
  {
    match kind
    case Misc(msg) => msg
  }

  /** `Display` for a kind (`{}`): writes the string conversion, which is the
      bare message. */
  function KindDisplay(kind: MiMuErrorKind): (s: string)
    ensures Misc(s) == kind
  {
    KindToString(kind)
  }

  /** The derived `Debug` for a kind (`{:?}`): the variant name, then the
      message in its quoted and escaped form, in parentheses. */
  function KindDebug(esc: Escaper, kind: MiMuErrorKind): (s: string)
    ensures IsPrefix("Misc(", s) && s[|s| - 1] == ')'
    ensures s[5..|s| - 1] == DebugStr(esc, kind.msg)
  {
    "Misc(" + DebugStr(esc, KindToString(kind)) + ")"
  }

  // ---------------------------------------------------------------------
  // Construction
  // ---------------------------------------------------------------------

  /** `MiMuError::new`: a leaf error of the given kind. Its cause chain is
      the error alone and it has no source. */
  function New(kind: MiMuErrorKind): (e: MiMuError)
    ensures e.kind == kind && e.wrapped == None
    ensures Chain(e) == [e]
    ensures Source(e) == None
  {
    MiMuError(kind, None)
  }

  /** `MiMuError::wrap`: an error of the given kind that owns `wrapped`.
      Its cause chain is the error followed by the wrapped error's chain. */
  function Wrap(kind: MiMuErrorKind, wrapped: MiMuWrappedError): (e: MiMuError)
    ensures e.kind == kind && e.wrapped == Some(wrapped)
    ensures Chain(e) == [e] + Chain(wrapped.inner)
  {
    MiMuError(kind, Some(wrapped))
  }

  /** The chain of errors reached by following each wrapped cause: it starts
      at `e`, each element wraps the next, and it ends at a leaf. */
  function Chain(e: MiMuError): (c: seq<MiMuError>)
    ensures |c| >= 1 && c[0] == e
    ensures c[|c| - 1].wrapped == None
    ensures forall i :: 0 < i < |c| ==> c[i - 1].wrapped == Some(MiMu(c[i]))
    decreases e
  {
    match e.wrapped
    case None => [e]
    case Some(MiMu(inner)) => [e] + Chain(inner)
  }

  // ---------------------------------------------------------------------
  // MiMuWrappedError: unwrapping and forwarding
  // ---------------------------------------------------------------------

  /** `unwrap_as_display`, `unwrap_as_debug` and `unwrap_as_static_error`:
      the error held by the live variant. */
  function Unwrap(w: MiMuWrappedError): (e: MiMuError)
    ensures MiMu(e) == w
  {
    match w
    case MiMu(e) => e
  }

  /** `Display` for the wrapper: the held error's `Display`, so the derived
      form of the held error's kind. */
  function WrappedDisplay(esc: Escaper, w: MiMuWrappedError): (s: string)
    ensures s == ErrDisplay(esc, w.inner)
    ensures IsPrefix("Misc(", s) && s[5..|s| - 1] == DebugStr(esc, w.inner.kind.msg)
  {
    ErrDisplay(esc, Unwrap(w))
  }

  /** `Debug` for the wrapper: the held error's `Debug`, which begins with
      the held error's raw message. */
  function WrappedDebug(esc: Escaper, w: MiMuWrappedError): (s: string)
    ensures s == ErrDebug(esc, w.inner)
    ensures IsPrefix(w.inner.kind.msg, s)
  {
    ErrDebug(esc, Unwrap(w))
  }

  /** `Error::source` for the wrapper: the held error's own `source()`. */
  function WrappedSource(w: MiMuWrappedError): (r: Option<ErrorRef>)
    ensures r == Source(w.inner)
    decreases w
  {
    Source(Unwrap(w))
  }

  // ---------------------------------------------------------------------
  // MiMuError: rendering and source
  // ---------------------------------------------------------------------

  /** `Display` for an error: the kind formatted with `{:?}`, so the derived
      form `Misc("<escaped message>")`; the cause is never rendered. */
  function ErrDisplay(esc: Escaper, e: MiMuError): (s: string)
    ensures IsPrefix("Misc(", s) && s[|s| - 1] == ')'
    ensures s[5..|s| - 1] == DebugStr(esc, e.kind.msg)
  {
    KindDebug(esc, e.kind)
  }

  /** The string that `Debug` formats after the kind: empty for a leaf, the
      tag and the wrapped error's `Display` otherwise. */
  function DebugSuffix(esc: Escaper, e: MiMuError): (s: string)
    ensures (s == "") == (e.wrapped == None)
    ensures e.wrapped.Some? ==>
      IsPrefix("[WRAPPED ERROR]: ", s) && s[17..] == ErrDisplay(esc, e.wrapped.value.inner)
  {
    match e.wrapped
    case Some(w) => "[WRAPPED ERROR]: " + WrappedDisplay(esc, w)
    case None => ""
  }

  /** `Debug` for an error: the kind's `Display` (the raw message), then the
      suffix formatted with `{:?}`, hence quoted and escaped. */
  function ErrDebug(esc: Escaper, e: MiMuError): (s: string)
    ensures IsPrefix(KindDisplay(e.kind), s)
    ensures e.wrapped == None ==> s == e.kind.msg + DebugStr(esc, "")
    ensures e.wrapped.Some? ==>
      s == e.kind.msg + DebugStr(esc, "[WRAPPED ERROR]: " + ErrDisplay(esc, e.wrapped.value.inner))
  {
    KindDisplay(e.kind) + DebugStr(esc, DebugSuffix(esc, e))
  }

  /** `Error::source` for an error: the wrapped error's `source()` when
      there is one, `None` for a leaf. It skips a level: what a wrapping
      error returns is its immediate cause's own `source()`. */
  function Source(e: MiMuError): (r: Option<ErrorRef>)
    ensures e.wrapped == None ==> r == None
    ensures e.wrapped.Some? ==> r == Source(e.wrapped.value.inner)
    decreases e
  {
    match e.wrapped
    case Some(w) => WrappedSource(w)
    case None => None
  }

  // ---------------------------------------------------------------------
  // Properties
  // ---------------------------------------------------------------------

  /** Because both `source` implementations only forward, `source()` is
      `None` for every error, however deep its chain. */
  lemma {:induction false} SourceIsNone(e: MiMuError)
    ensures Source(e) == None
    decreases e
  {
    match e.wrapped
    case None =>
    case Some(w) => WrappedSourceIsNone(w);
  }

  /** ... and for every wrapper. */
  lemma {:induction false} WrappedSourceIsNone(w: MiMuWrappedError)
    ensures WrappedSource(w) == None
    decreases w
  {
    SourceIsNone(w.inner);
  }

  /** The wrapper is pure forwarding: its `Display`, `Debug` and `source`
      are those of the error it holds. */
  lemma WrapperForwards(esc: Escaper, e: MiMuError)
    ensures WrappedDisplay(esc, MiMu(e)) == ErrDisplay(esc, e)
    ensures WrappedDebug(esc, MiMu(e)) == ErrDebug(esc, e)
    ensures WrappedSource(MiMu(e)) == Source(e)
  {
  }

  /** An error's `Display` depends on its kind alone: two errors of the same
      kind display identically, whatever they wrap. */
  lemma DisplayDependsOnlyOnKind(esc: Escaper, e1: MiMuError, e2: MiMuError)
    requires e1.kind == e2.kind
    ensures ErrDisplay(esc, e1) == ErrDisplay(esc, e2)
  {
  }

  /** A leaf's `Debug` is its message followed by two quote characters: the
      `{:?}` form of the empty suffix. */
  lemma LeafDebug(esc: Escaper, e: MiMuError)
    requires KeepsEmpty(esc)
    requires e.wrapped == None
    ensures ErrDebug(esc, e) == e.kind.msg + "\"\""
  {
  }

  /** The `Debug` of an outer error uses the inner error's `Display`, which
      sees only the inner kind: what the inner error wraps does not show. */
  lemma DebugOneLevel(esc: Escaper, kind: MiMuErrorKind, inner1: MiMuError, inner2: MiMuError)
    requires inner1.kind == inner2.kind
    ensures ErrDebug(esc, Wrap(kind, MiMu(inner1))) == ErrDebug(esc, Wrap(kind, MiMu(inner2)))
  {
  }

  function Min(a: nat, b: nat): nat {
    if a <= b then a else b
  }

  /** Proof helper, not a source operation: `e` with its cause chain cut
      after `n` wrapped levels, the error at depth `n` becoming a leaf of
      the same kind. */
  function Truncate(e: MiMuError, n: nat): (t: MiMuError)
    ensures |Chain(t)| == Min(n + 1, |Chain(e)|)
    ensures forall i :: 0 <= i < |Chain(t)| ==> Chain(t)[i].kind == Chain(e)[i].kind
    decreases e
  {
    match e.wrapped
    case None => e
    case Some(MiMu(inner)) =>
      if n == 0 then New(e.kind) else Wrap(e.kind, MiMu(Truncate(inner, n - 1)))
  }

  /** The renderers look a bounded distance down the chain: `Display` sees
      only the error itself and `Debug` only the error and its immediate
      cause, so cutting the chain below those levels changes nothing. */
  lemma RenderingDepth(esc: Escaper, e: MiMuError)
    ensures ErrDisplay(esc, e) == ErrDisplay(esc, Truncate(e, 0))
    ensures ErrDebug(esc, e) == ErrDebug(esc, Truncate(e, 1))
  {
  }

  /** A leaf built by `new`, rendered: the kind's debug form for `Display`,
      the message and two quote characters for `Debug`, and no source. */
  lemma LeafExample(esc: Escaper)
    requires KeepsEmpty(esc)
    ensures var e := New(Misc("disk full"));
      && ErrDisplay(esc, e) == "Misc(" + DebugStr(esc, "disk full") + ")"
      && ErrDebug(esc, e) == "disk full\"\""
      && Source(e) == None
  {
  }

  /** A two-level chain built by `wrap`: `Debug` shows the outer message and,
      quoted, the tag and the inner error's `Display`; `source()` is `None`
      although a cause is present. */
  lemma WrappedExample(esc: Escaper)
    ensures var outer := Wrap(Misc("save failed"), MiMu(New(Misc("permission denied"))));
      && ErrDebug(esc, outer)
         == "save failed" + DebugStr(esc, "[WRAPPED ERROR]: Misc(" + DebugStr(esc, "permission denied") + ")")
      && outer.wrapped.Some?
      && Source(outer) == None
  {
    var outer := Wrap(Misc("save failed"), MiMu(New(Misc("permission denied"))));
    assert ErrDisplay(esc, New(Misc("permission denied")))
        == "Misc(" + DebugStr(esc, "permission denied") + ")";
    var quoted := DebugStr(esc, "permission denied");
    assert "[WRAPPED ERROR]: " + ("Misc(" + quoted + ")") == "[WRAPPED ERROR]: Misc(" + quoted + ")";
    SourceIsNone(outer);
  }

  // ---------------------------------------------------------------------
  // Finding: the `{:?}` on the Debug suffix
  // ---------------------------------------------------------------------

  /** As written, a leaf's `Debug` is not its bare message: the empty suffix
      is printed as two quote characters. */
  lemma LeafDebugShowsQuotes(esc: Escaper)
    requires KeepsEmpty(esc)
    ensures ErrDebug(esc, New(Misc("disk full"))) == "disk full\"\""
    ensures ErrDebug(esc, New(Misc("disk full"))) != IntendedDebug(esc, New(Misc("disk full")))
  {
  }

  /** `Debug` with the suffix formatted by `{}` instead of `{:?}`: a leaf
      renders as its bare message and a wrapping error as its message, the
      tag and the cause's `Display`, with nothing added between them. */
  function IntendedDebug(esc: Escaper, e: MiMuError): (s: string)
    ensures IsPrefix(KindDisplay(e.kind), s)
    ensures e.wrapped == None ==> s == e.kind.msg
    ensures e.wrapped.Some? ==>
      s == e.kind.msg + "[WRAPPED ERROR]: " + ErrDisplay(esc, e.wrapped.value.inner)
  {
    KindDisplay(e.kind) + DebugSuffix(esc, e)
  }
}
