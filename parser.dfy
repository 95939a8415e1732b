/** The parser object that the MDX configuration installs: a copy of the wrapped MDX
    parser whose `parse` runs the wrapped `parseForESLint` and then drops every token and
    comment that no top-level body node explains, editing the result in place. */
module PatchedParsers {
  import opened Spans
  import opened ConsistencyFilter

  /** What one call of the wrapped parser's `parseForESLint` does: it throws, or it
      returns an `ast` together with the rest of the result (services, scope manager,
      visitor keys), which the patch passes on untouched. */
  datatype RawOutcome = Threw(error: string) | Returned(ast: AstValue, services: string)

  /** The wrapped MDX parser, reduced to its `parseForESLint(text, options)`. */
  datatype MdxParser = MdxParser(parseForESLint: (string, string) -> RawOutcome)

  /** Which code the patched object's `parseForESLint` property runs: the wrapped parser's
      own, as copied by the object spread, or the patched `parse`. */
  datatype Route = Delegated | Filtering

  /** The mutable `result.ast` object. */
  class Ast {
    var body: seq<Spanned>
    var tokens: seq<Spanned>
    var comments: seq<Spanned>

    constructor (v: AstValue)
      ensures Value() == v
    {
      body, tokens, comments := v.body, v.tokens, v.comments;
    }

    function Value(): AstValue
      reads this
    {
      AstValue(body, tokens, comments)
    }

    /** The body of the patched `parse` after the wrapped call: build the predicate from
        the top-level body, then reassign `tokens` and `comments` to their filtered copies. */
    method DropOrphans()
      modifies this
      ensures body == old(body)
      ensures tokens == Kept(old(body), old(tokens))
      ensures comments == Kept(old(body), old(comments))
      ensures Value() == Patched(old(Value()))
    {
      var nodes := body;
      tokens := Filter(nodes, tokens);
      comments := Filter(nodes, comments);
    }
  }

  /** The object returned by `parseForESLint`; only its `ast` is edited in place. */
  class ParseResult {
    const ast: Ast
    const services: string

    constructor (tree: AstValue, services: string)
      ensures fresh(ast) && ast.Value() == tree && this.services == services
    {
      ast := new Ast(tree);
      this.services := services;
    }
  }

  /** A call of an entry point of the parser object: the exception it raised, or the
      result object it returned. */
  datatype Parsed = Failed(error: string) | Produced(result: ParseResult)

  /** `out` is what a call whose outcome is `expected` hands back. */
  ghost predicate Yields(out: Parsed, expected: RawOutcome)
    reads if out.Produced? then {out.result.ast} else {}
  {
    match expected
    case Threw(e) => out == Failed(e)
    case Returned(tree, services) =>
      out.Produced? && out.result.ast.Value() == tree && out.result.services == services
  }

  /** The outcome of the patched `parse` for a given outcome of the wrapped call:
      a throw passes through unchanged, a returned `ast` is filtered. */
  function PatchedOutcome(raw: RawOutcome): (r: RawOutcome)
    ensures r.Threw? <==> raw.Threw?
    ensures raw.Threw? ==> r == raw
    ensures raw.Returned? ==> r.services == raw.services && r.ast.body == raw.ast.body
    ensures raw.Returned? ==> forall k :: 0 <= k < |r.ast.tokens| ==> Covered(raw.ast.body, r.ast.tokens[k])
    ensures raw.Returned? ==> forall k :: 0 <= k < |r.ast.comments| ==> Covered(raw.ast.body, r.ast.comments[k])
  {
    match raw
    case Threw(_) => raw
    case Returned(tree, services) => Returned(Patched(tree), services)
  }

  /** The object literal `patchedParser`: the wrapped parser's properties, a new `parse`,
      and a `parseForESLint` property that later gets pointed at `parse`. */
  class PatchedParser {
    const inner: MdxParser
    var parseForESLint: Route

    /** The object literal itself: the spread copies the wrapped `parseForESLint`. */
    constructor (inner: MdxParser)
      ensures this.inner == inner && parseForESLint == Delegated
    {
      this.inner := inner;
      parseForESLint := Delegated;
    }

    /** `patchedParser.parseForESLint = patchedParser.parse` */
    method AliasParseForESLint()
      modifies this
      ensures parseForESLint == Filtering
    {
      parseForESLint := Filtering;
    }

    /** The wrapped call's result as a fresh result object, or its exception. */
    static method Deliver(raw: RawOutcome) returns (out: Parsed)
      ensures Yields(out, raw)
      ensures out.Produced? ==> fresh(out.result) && fresh(out.result.ast)
    {
      match raw
      case Threw(e) =>
        out := Failed(e);
      case Returned(tree, services) =>
        var result := new ParseResult(tree, services);
        out := Produced(result);
    }

    /** The patched `parse(text, options)`. */
    method Parse(text: string, options: string) returns (out: Parsed)
      ensures Yields(out, PatchedOutcome(inner.parseForESLint(text, options)))
      ensures out.Produced? ==> fresh(out.result) && fresh(out.result.ast)
    {
      out := Deliver(inner.parseForESLint(text, options));
      if out.Produced? {
        out.result.ast.DropOrphans();
      }
    }

    /** A call through the `parseForESLint` property: once aliased it is the very same
        `parse`; before that it is the wrapped parser's unfiltered call. */
    method ParseForESLint(text: string, options: string) returns (out: Parsed)
      ensures parseForESLint == Filtering ==>
                Yields(out, PatchedOutcome(inner.parseForESLint(text, options)))
      ensures parseForESLint == Delegated ==> Yields(out, inner.parseForESLint(text, options))
      ensures out.Produced? ==> fresh(out.result) && fresh(out.result.ast)
    {
      if parseForESLint == Filtering {
        out := Parse(text, options);
      } else {
        out := Deliver(inner.parseForESLint(text, options));
      }
    }
  }
}
