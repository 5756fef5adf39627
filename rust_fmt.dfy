/** The piece of Rust's formatting machinery that the error type's renderers
    rely on: the `{:?}` form of a string, a quoted and escaped copy of it.

    The character escaping of `<str as Debug>::fmt` is standard-library
    behaviour (Unicode tables included) and is not modelled. Every renderer
    takes the escaping function as a parameter `esc`; the only fact assumed
    of it, and only where a lemma needs it, is that it leaves the empty
    string empty. */
module RustFmt {

  /** Stands for the character escaping of `<str as Debug>::fmt`: maps a
      string to its escaped body. */
  type Escaper = string -> string

  /** The one property of the real escaper the model relies on. */
  predicate KeepsEmpty(esc: Escaper) {
    esc("") == ""
  }

  /** `p` is a prefix of `s`. */
  predicate IsPrefix(p: string, s: string) {
    |p| <= |s| && s[..|p|] == p
  }

  /** `format!("{:?}", s)` for a string `s`: the escaped body between two
      double quotes. */
  function DebugStr(esc: Escaper, s: string): (r: string)
    ensures |r| == |esc(s)| + 2
    ensures r[0] == '"' && r[|r| - 1] == '"'
    ensures r[1..|r| - 1] == esc(s)
  {
    "\"" + esc(s) + "\""
  }

  /** The `{:?}` form of the empty string is two quote characters. */
  lemma DebugStrOfEmpty(esc: Escaper)
    requires KeepsEmpty(esc)
    ensures DebugStr(esc, "") == "\"\""
  {
  }
}
