/** The token/comment consistency filter of the patched MDX parser: keep exactly the
    tokens and comments that lie inside some top-level body node, in their original order. */
module ConsistencyFilter {
  import opened Spans

  /** The closure `predicate` of the patched `parse`: scans the top-level body nodes
      in order and answers true at the first one that encloses `x`. */
  method IsCovered(body: seq<Spanned>, x: Spanned) returns (keep: bool)
    ensures keep == Covered(body, x)
  {
    for i := 0 to |body|
      invariant forall j :: 0 <= j < i ==> !Encloses(body[j], x)
    {
      if body[i].start <= x.start && body[i].end >= x.end {
        return true;
      }
    }
    return false;
  }

  /** What `xs.filter(predicate)` yields: the elements of `xs` covered by `body`, in order. */
  function Kept(body: seq<Spanned>, xs: seq<Spanned>): (r: seq<Spanned>)
    ensures |r| <= |xs|
    ensures forall k :: 0 <= k < |r| ==> Covered(body, r[k])
  {
    if xs == [] then []
    else (if Covered(body, xs[0]) then [xs[0]] else []) + Kept(body, xs[1..])
  }

  /** `r` can be obtained from `xs` by deleting elements: order is kept, nothing is
      added and nothing is repeated. */
  ghost predicate IsSubsequence(r: seq<Spanned>, xs: seq<Spanned>)
    decreases |xs|
  {
    if r == [] then true
    else if xs == [] then false
    else (r[0] == xs[0] && IsSubsequence(r[1..], xs[1..])) || IsSubsequence(r, xs[1..])
  }

  /** `Array.prototype.filter` driven by the `predicate` closure: one pass over `xs`,
      appending each element the closure accepts. */
  method Filter(body: seq<Spanned>, xs: seq<Spanned>) returns (kept: seq<Spanned>)
    ensures kept == Kept(body, xs)
  {
    kept := [];
    for i := 0 to |xs|
      invariant kept == Kept(body, xs[..i])
    {
      var keep := IsCovered(body, xs[i]);
      KeptAppend(body, xs[..i], [xs[i]]);
      assert xs[..i + 1] == xs[..i] + [xs[i]];
      if keep {
        kept := kept + [xs[i]];
      }
    }
    assert xs[..|xs|] == xs;
  }

  /** Filtering a concatenation filters each part and concatenates the results:
      the filter treats every element on its own and keeps relative order. */
  lemma {:induction false} KeptAppend(body: seq<Spanned>, a: seq<Spanned>, b: seq<Spanned>)
    ensures Kept(body, a + b) == Kept(body, a) + Kept(body, b)
  {
    if a == [] {
      assert a + b == b;
    } else {
      assert (a + b)[0] == a[0];
      assert (a + b)[1..] == a[1..] + b;
      KeptAppend(body, a[1..], b);
    }
  }

  /** The filtered sequence is a subsequence of the raw one. */
  lemma {:induction false} KeptIsSubsequence(body: seq<Spanned>, xs: seq<Spanned>)
    ensures IsSubsequence(Kept(body, xs), xs)
  {
    if xs != [] {
      var rest := Kept(body, xs[1..]);
      KeptIsSubsequence(body, xs[1..]);
      if Covered(body, xs[0]) {
        assert Kept(body, xs) == [xs[0]] + rest;
        assert ([xs[0]] + rest)[1..] == rest;
      } else {
        assert Kept(body, xs) == rest;
      }
    }
  }

  /** Each value occurs in the filtered sequence exactly as often as in the raw one
      when some body node covers it, and not at all otherwise: nothing is duplicated,
      nothing is invented, and every covered element is kept. */
  lemma {:induction false} KeptCount(body: seq<Spanned>, xs: seq<Spanned>, x: Spanned)
    ensures multiset(Kept(body, xs))[x] == if Covered(body, x) then multiset(xs)[x] else 0
  {
    if xs != [] {
      KeptCount(body, xs[1..], x);
      assert xs == [xs[0]] + xs[1..];
      assert multiset(xs) == multiset{xs[0]} + multiset(xs[1..]);
    }
  }

  /** An element survives the filter if and only if it is in the raw sequence and some
      body node covers it. */
  lemma KeptMembership(body: seq<Spanned>, xs: seq<Spanned>, x: Spanned)
    ensures x in Kept(body, xs) <==> x in xs && Covered(body, x)
  {
    KeptCount(body, xs, x);
    assert x in Kept(body, xs) <==> multiset(Kept(body, xs))[x] > 0;
    assert x in xs <==> multiset(xs)[x] > 0;
  }

  /** A token or comment whose span is exactly that of a body node is kept: both
      comparisons of the closure are non-strict. */
  lemma ExactSpanKept(body: seq<Spanned>, xs: seq<Spanned>, x: Spanned, node: Spanned)
    requires x in xs && node in body
    requires node.start == x.start && node.end == x.end
    ensures x in Kept(body, xs)
  {
    var i :| 0 <= i < |body| && body[i] == node;
    assert Encloses(body[i], x);
    KeptMembership(body, xs, x);
  }

  /** With no top-level body node every token and every comment is dropped. */
  lemma {:induction false} EmptyBodyDropsAll(xs: seq<Spanned>)
    ensures Kept([], xs) == []
  {
    if xs != [] {
      EmptyBodyDropsAll(xs[1..]);
    }
  }

  /** Filtering an already filtered sequence against the same body changes nothing. */
  lemma {:induction false} KeptIdempotent(body: seq<Spanned>, xs: seq<Spanned>)
    ensures Kept(body, Kept(body, xs)) == Kept(body, xs)
  {
    if xs != [] {
      var rest := Kept(body, xs[1..]);
      KeptIdempotent(body, xs[1..]);
      if Covered(body, xs[0]) {
        var head := [xs[0]];
        assert Kept(body, head) == head by {
          assert head[1..] == [];
        }
        calc {
          Kept(body, Kept(body, xs));
          { assert Kept(body, xs) == head + rest; }
          Kept(body, head + rest);
          { KeptAppend(body, head, rest); }
          Kept(body, head) + Kept(body, rest);
          head + rest;
        }
      } else {
        assert Kept(body, xs) == rest;
      }
    }
  }

  /** The worked case: one body node [0, 10]; the token [0, 10] stays and the token
      [12, 15], outside every body node, is dropped. */
  lemma OrphanTokenScenario()
    ensures Kept([Spanned(0, 10, "")], [Spanned(0, 10, "a"), Spanned(12, 15, "b")])
         == [Spanned(0, 10, "a")]
  {
    var body := [Spanned(0, 10, "")];
    assert Encloses(body[0], Spanned(0, 10, "a"));
    assert !Covered(body, Spanned(12, 15, "b"));
    var xs := [Spanned(0, 10, "a"), Spanned(12, 15, "b")];
    assert xs[1..][1..] == [];
  }

  /** What the patched `parse` makes of the wrapped parser's `ast`: the body untouched,
      the tokens and the comments each passed through the same body-only filter. */
  function Patched(ast: AstValue): (r: AstValue)
    ensures r.body == ast.body
    ensures forall k :: 0 <= k < |r.tokens| ==> Covered(ast.body, r.tokens[k])
    ensures forall k :: 0 <= k < |r.comments| ==> Covered(ast.body, r.comments[k])
    ensures IsSubsequence(r.tokens, ast.tokens) && IsSubsequence(r.comments, ast.comments)
    ensures forall x :: x in ast.tokens && Covered(ast.body, x) ==> x in r.tokens
    ensures forall x :: x in ast.comments && Covered(ast.body, x) ==> x in r.comments
  {
    KeptIsSubsequence(ast.body, ast.tokens);
    KeptIsSubsequence(ast.body, ast.comments);
    forall x | x in ast.tokens && Covered(ast.body, x)
      ensures x in Kept(ast.body, ast.tokens)
    {
      KeptMembership(ast.body, ast.tokens, x);
    }
    forall x | x in ast.comments && Covered(ast.body, x)
      ensures x in Kept(ast.body, ast.comments)
    {
      KeptMembership(ast.body, ast.comments, x);
    }
    AstValue(ast.body, Kept(ast.body, ast.tokens), Kept(ast.body, ast.comments))
  }
}
