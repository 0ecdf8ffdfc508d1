/**
 * The few Babel AST node kinds the plugin inspects. Every other kind of node
 * is an `OtherNode` carrying its own kind name and its children.
 */
module Ast {

  /** One static chunk of a template literal: its raw source text and its cooked value. */
  datatype TemplateElement = TemplateElement(raw: string, cooked: string)

  datatype Node =
    | Identifier(name: string)
    | StringLiteral(value: string)
    | TemplateLiteral(quasis: seq<TemplateElement>, expressions: seq<Node>)
    | CallExpression(callee: Node, arguments: seq<Node>)
    | TaggedTemplateExpression(tag: Node, quasi: Node)
    | OtherNode(kind: string, children: seq<Node>)

  /**
   * The shape Babel's parser guarantees: a template literal has one more
   * static chunk than it has interpolations, so its first chunk always exists.
   */
  predicate WellFormed(n: Node) {
    match n
    case Identifier(_) => true
    case StringLiteral(_) => true
    case TemplateLiteral(qs, es) =>
      |qs| == |es| + 1 && forall e | e in es :: WellFormed(e)
    case CallExpression(c, args) =>
      WellFormed(c) && forall a | a in args :: WellFormed(a)
    case TaggedTemplateExpression(t, q) => WellFormed(t) && WellFormed(q)
    case OtherNode(_, cs) => forall c | c in cs :: WellFormed(c)
  }
}
