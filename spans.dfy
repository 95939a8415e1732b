/** Source positions shared by the syntax tree, the token stream and the comment stream
    that the MDX parser produces for one document. */
module Spans {

  /** A top-level body node, a lexical token or a comment: its `start` and `end`
      character offsets into the document, and whatever else it carries (node type,
      token value, comment text), which the filter never looks at. */
  datatype Spanned = Spanned(start: int, end: int, payload: string)

  /** The `ast` part of a parse result: the top-level body nodes, the tokens and the
      comments, each in the order the parser produced them. */
  datatype AstValue = AstValue(body: seq<Spanned>, tokens: seq<Spanned>, comments: seq<Spanned>)

  /** `node` encloses `x`: closed containment, non-strict at both ends. */
  predicate Encloses(node: Spanned, x: Spanned) {
    node.start <= x.start && node.end >= x.end
  }

  /** Some top-level body node encloses `x`. */
  predicate Covered(body: seq<Spanned>, x: Spanned) {
    exists i :: 0 <= i < |body| && Encloses(body[i], x)
  }
}
