/** The parts of the syntax tree that a variant is built from. */
module Ast {
  import Codemap

  datatype Option<T> = None | Some(value: T)

  /** An identifier; interning is not modelled, an identifier is its text. */
  datatype Ident = Ident(name: string)

  /** Converts a name to its identifier. */
  function ToIdent(name: string): (id: Ident)
    ensures id.name == name
  {
    Ident(name)
  }

  /** An attribute such as `#[doc = "..."]`, kept as its text and span. */
  datatype Attribute = Attribute(value: string, span: Codemap.Span)

  /** A field of a tuple or struct variant: an optional name and a type, kept as text. */
  datatype StructField = StructField(ident: Option<Ident>, ty: string)

  /** The payload of a variant: named fields, positional fields or nothing. */
  datatype VariantData =
    | StructData(fields: seq<StructField>)
    | TupleData(fields: seq<StructField>)
    | UnitData

  /** An expression, kept as text; only used as an explicit discriminant. */
  datatype Expr = Expr(text: string)

  /** An enum variant before it is tagged with a span. */
  datatype VariantNode = VariantNode(
    name: Ident,
    attrs: seq<Attribute>,
    data: VariantData,
    disrExpr: Option<Expr>)

  /** A variant tagged with its span. */
  type Variant = Codemap.Spanned<VariantNode>
}
