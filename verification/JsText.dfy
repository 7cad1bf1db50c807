/** JavaScript's notion of white space: what `trim` removes (section 12.2 and 22.1.3.32 of ECMA-262). */
module JsText {

  predicate Space(c: char) {
    c in {'\t', '\n', '\U{0B}', '\U{0C}', '\r', ' ', '\U{A0}', '\U{1680}', '\U{2028}', '\U{2029}', '\U{202F}',
          '\U{205F}', '\U{3000}', '\U{FEFF}'} || '\U{2000}' <= c <= '\U{200A}'
  }

  function TrimStart(s: string): string {
    if s != "" && Space(s[0]) then TrimStart(s[1..]) else s
  }

  function TrimEnd(s: string): string {
    if s != "" && Space(s[|s| - 1]) then TrimEnd(s[..|s| - 1]) else s
  }

  function Trim(s: string): string {
    TrimEnd(TrimStart(s))
  }

  /** Nothing is left after trimming. */
  predicate Blank(s: string) {
    Trim(s) == ""
  }
}
