# MDX parser adapter of an ESLint configuration preset

This project models the one piece of logic in the preset's MDX support
(`src/configs/markdown.ts`): the defensive loader of `eslint-plugin-mdx`, the gate that
makes the whole MDX configuration empty when the plugin cannot be used, and the patched
parser that the configuration installs. The patched parser calls the plugin's own
`parseForESLint` and then keeps only those tokens and comments whose `[start, end]` span
lies inside some top-level `ast.body` node. Containment is closed at both ends. The
result's `ast.tokens` and `ast.comments` are edited in place and everything else is left
as it was. The patched object's `parseForESLint` property is then made the same function
as its `parse`.

Layout:

- `spans.dfy` (module `Spans`): positioned items (`Spanned`), the `ast` value
  (`AstValue`), and the containment predicates `Encloses` and `Covered`.
- `filter.dfy` (module `ConsistencyFilter`): the `predicate` closure as a loop
  (`IsCovered`), the `.filter(predicate)` call as a specification function (`Kept`) and
  as a loop (`Filter`), the lemmas about the filter, and `Patched`, the filtered `ast`.
- `parser.dfy` (module `PatchedParsers`): the mutable `result.ast` object (`Ast`), the
  result object (`ParseResult`) and the patched parser object (`PatchedParser`), whose
  `parseForESLint` field records which code that property runs.
- `loader.dfy` (module `MdxLoader`): the plugin's nested `configs.flat.languageOptions.parser`
  shape with every segment optional, `LoadMdxPlugin`, and `Markdown`, which builds the
  two configuration blocks or none.

The wrapped MDX parser is a parameter: a total function from `(text, options)` to either
a thrown error or a returned `{ast, services}` value. The dynamic import is a parameter
too (`Acquisition`): it either failed, or produced a default export that may be null.

## Model

| member | source | states |
|---|---|---|
| ConsistencyFilter.IsCovered | src/configs/markdown.ts:52-58 | the loop over `body` with early return answers true exactly when some top-level body node has `start <= token.start` and `end >= token.end` |
| ConsistencyFilter.Kept | src/configs/markdown.ts:61-62 | every element left by the filter is covered by some body node, and the filter never lengthens the sequence |
| ConsistencyFilter.Filter | src/configs/markdown.ts:61-62 | one pass of `.filter(predicate)` with the closure yields exactly the specification `Kept` |
| ConsistencyFilter.KeptAppend | src/configs/markdown.ts:61-62 | filtering a concatenation is the concatenation of the filtered parts: each element is judged alone and relative order is kept |
| ConsistencyFilter.KeptIsSubsequence | src/configs/markdown.ts:61-62 | the filtered tokens (comments) are a subsequence of the raw ones |
| ConsistencyFilter.KeptCount | src/configs/markdown.ts:52-62 | each value occurs in the output as often as in the input when covered and never otherwise: nothing added, nothing duplicated, every covered element kept |
| ConsistencyFilter.KeptMembership | src/configs/markdown.ts:52-62 | an element is in the output if and only if it is in the input and some body node covers it; so an element outside every body node is dropped |
| ConsistencyFilter.ExactSpanKept | src/configs/markdown.ts:54 | a token whose start and end equal those of a body node is kept, since both comparisons are non-strict |
| ConsistencyFilter.EmptyBodyDropsAll | src/configs/markdown.ts:53-57 | with an empty `body` every token and every comment is dropped |
| ConsistencyFilter.KeptIdempotent | src/configs/markdown.ts:61-62 | filtering already filtered tokens against the same body changes nothing |
| ConsistencyFilter.OrphanTokenScenario | src/configs/markdown.ts:52-62 | body `[0,10]` with tokens `[0,10]` and `[12,15]` keeps only `[0,10]` |
| ConsistencyFilter.Patched | src/configs/markdown.ts:50-62 | the filtered `ast` has the same body; its tokens and comments are each covered, subsequences of the raw ones, and contain every covered raw element |
| PatchedParsers.Ast.DropOrphans | src/configs/markdown.ts:50-62 | reassigns `tokens` and `comments` to their filtered copies built from the unchanged `body`; `body` is untouched |
| PatchedParsers.PatchedOutcome | src/configs/markdown.ts:48-64 | a throw of the wrapped parser passes through unchanged; a returned result keeps its body and services and has only covered tokens and comments |
| PatchedParsers.PatchedParser.constructor | src/configs/markdown.ts:46-47 | the object literal wraps the MDX parser and, through the spread, its `parseForESLint` is the wrapped, unfiltered one |
| PatchedParsers.PatchedParser.AliasParseForESLint | src/configs/markdown.ts:68 | afterwards the `parseForESLint` property runs the patched `parse` |
| PatchedParsers.PatchedParser.Deliver | src/configs/markdown.ts:49 | the wrapped call's outcome as a fresh result object or as its exception |
| PatchedParsers.PatchedParser.Parse | src/configs/markdown.ts:48-65 | the returned fresh result is the wrapped parser's result with its `ast` replaced by `Patched`; an exception propagates unchanged |
| PatchedParsers.PatchedParser.ParseForESLint | src/configs/markdown.ts:46-68 | once aliased, gives exactly what `Parse` gives for the same `(text, options)`; before the alias, the wrapped parser's unfiltered result |
| MdxLoader.LoadMdxPlugin | src/configs/markdown.ts:10-26 | `Ready` exactly when the import succeeded and `configs`, `flat`, `languageOptions` and `parser` are all present, and then with the imported plugin; an import failure or any missing segment gives `Unavailable` |
| MdxLoader.ParserOf | src/configs/markdown.ts:44 | on an accepted plugin the non-null assertions are sound: the parser found is the one at the end of the path |
| MdxLoader.EmptyConfigsUnavailable | src/configs/markdown.ts:15-18 | a plugin whose `configs` is an empty object is refused as `Unavailable` |
| MdxLoader.Markdown | src/configs/markdown.ts:36-122 | the empty list when the plugin is unavailable; otherwise exactly two blocks, the first registering the plugin and a fresh patched parser over the plugin's parser whose `parseForESLint` is aliased to `parse`, the second the code-block block with no parser |

## Left out

- The dynamic `import('eslint-plugin-mdx')`, `interopDefault` and the `await`: the import is the `Acquisition` parameter.
- The `console.warn` diagnostics: an output side channel with no effect on the results.
- The wrapped parser's own parsing and `mdx.createRemarkProcessor`: foreign library code; the parser is a function parameter and the processor is not modelled.
- A wrapped parser object without a `parseForESLint` function (the `!` at line 49 would throw a `TypeError`): `MdxParser` always has one.
- Tokens with an undefined `start` or `end` (the `!` at line 54): offsets are integers.
- A path segment that is present but falsy (for example a `parser` of `0` or `''`): each segment is either absent or present.
- The properties other than `parseForESLint` that the `...mdxParser` spread copies, and the result fields other than `ast` (kept as one opaque `services` value).
- `options` of the parser is an opaque string rather than an arbitrary object.
- The rule tables, `files` globs, `componentExts` globs, `languageOptions` literals and the `overrides` merged into the second block (lines 71-174): static configuration data; `ConfigItem` keeps only the block's name, parser and plugin.
- `eslint.config.ts`: a call of the preset with literal options and a debugging plugin that only logs tokens.
