/** Source locations: spans, the dummy span and span-tagged values. */
module Codemap {

  /** A byte range of the source map. Expansion information is not modelled. */
  datatype Span = Span(lo: nat, hi: nat)

  /** The span given to synthesized nodes that have no source location. */
  const DUMMY_SP: Span := Span(0, 0)

  /** A value tagged with the span it came from. */
  datatype Spanned<T> = Spanned(node: T, span: Span)

  /** Tags `t` with the span `sp`. */
  function Respan<T>(sp: Span, t: T): (s: Spanned<T>)
    ensures s.node == t && s.span == sp
  {
    Spanned(t, sp)
  }
}
