/** Properties of the generator that relate several renderings: every
    string the generation rules allow is produced by some choices, the
    parent only matters to wildcard tokens, anchors and sub-pattern blocks
    render alike, and every branch and every repeat count can be chosen. */
module GeneratorProperties {
  import opened Tokens
  import opened Nodes
  import opened PhpRange
  import opened ChoiceStream
  import opened GenSpec
  import opened RandomGenerator
  import opened Soundness

  /** The choices `cs`, put in front of any continuation, make node `n`
      render `s` and leave the continuation untouched. */
  ghost predicate Produces(n: Node, parent: Parent, cs: Choices, s: string)
    requires WellFormed(n)
  {
    forall rest :: Render(n, parent, cs + rest) == Rendered(s, rest)
  }

  ghost predicate ProducesSeq(ns: seq<Node>, parent: Parent, cs: Choices, s: string)
    requires AllWellFormed(ns)
  {
    forall rest :: RenderSeq(ns, parent, cs + rest) == Rendered(s, rest)
  }

  ghost predicate ProducesPasses(ns: seq<Node>, parent: Parent, k: nat, cs: Choices, s: string)
    requires AllWellFormed(ns)
  {
    forall rest :: RenderPasses(ns, parent, k, cs + rest) == Rendered(s, rest)
  }

  /** Appending is associative; stated once for the stream splits below. */
  lemma Reassociate(a: Choices, b: Choices, rest: Choices)
    ensures (a + b) + rest == a + (b + rest)
  {
  }

  /** Completeness: every string the rules allow for a node is the output of
      some choices. */
  lemma {:induction false} RenderComplete(n: Node, parent: Parent, s: string) returns (cs: Choices)
    requires WellFormed(n) && CanGen(n, parent, s)
    ensures Produces(n, parent, cs, s)
    decreases n, 1
  {
    match n
    case Begin(ch) => cs := SeqNodeComplete(n, parent, s);
    case End(ch) => cs := SeqNodeComplete(n, parent, s);
    case Alternative(ch) => cs := PickComplete(n, parent, s);
    case Block(ch, sub) =>
      if sub {
        cs := SeqNodeComplete(n, parent, s);
      } else {
        cs := PickComplete(n, parent, s);
      }
    case CharacterClass(a, b) => cs := CharacterClassComplete(n, parent, s);
    case Repetition(ch, lo, _) => cs := RepetitionComplete(n, parent, s);
    case TokenNode(t) => cs := TokenComplete(n, parent, s);
  }

  /** Begin, End and sub-pattern blocks: the choices of the children, in
      order. */
  lemma {:induction false} SeqNodeComplete(n: Node, parent: Parent, s: string) returns (cs: Choices)
    requires n.Begin? || n.End? || (n.Block? && n.subPattern)
    requires WellFormed(n) && CanGen(n, parent, s)
    ensures Produces(n, parent, cs, s)
    decreases n, 0
  {
    var p := ParentOf(n);
    cs := SeqComplete(n.childNodes, p, s);
    forall rest ensures Render(n, parent, cs + rest) == Rendered(s, rest) {
      assert RenderSeq(n.childNodes, p, cs + rest) == Rendered(s, rest);
    }
  }

  /** Alternatives and other blocks: the index of the branch, then the
      branch's own choices. */
  lemma {:induction false} PickComplete(n: Node, parent: Parent, s: string) returns (cs: Choices)
    requires n.Alternative? || (n.Block? && !n.subPattern)
    requires WellFormed(n) && CanGen(n, parent, s)
    ensures Produces(n, parent, cs, s)
    decreases n, 0
  {
    var ch := n.childNodes;
    var p := ParentOf(n);
    var i :| 0 <= i < |ch| && CanGen(ch[i], p, s);
    var ci := RenderComplete(ch[i], p, s);
    cs := [i] + ci;
    forall rest ensures Render(n, parent, cs + rest) == Rendered(s, rest) {
      Reassociate([i], ci, rest);
      BranchCoverage(n, parent, i, ci + rest);
      assert Render(ch[i], p, ci + rest) == Rendered(s, rest);
    }
  }

  /** Every branch of an Alternative, and every child of a block that is
      not a sub-pattern, can be chosen: the choice `i` in front of the
      stream renders child `i`, under the node as its parent, from the rest. */
  lemma BranchCoverage(n: Node, parent: Parent, i: nat, rest: Choices)
    requires n.Alternative? || (n.Block? && !n.subPattern)
    requires WellFormed(n) && i < |n.childNodes|
    ensures Render(n, parent, [i] + rest) == Render(n.childNodes[i], ParentOf(n), rest)
  {
    var ch := n.childNodes;
    var x := [i] + rest;
    assert Draw(0, |ch| - 1, x) == (i, rest) by {
      DrawReaches(0, |ch| - 1, i, rest);
    }
    if n.Alternative? {
      assert Render(n, parent, x) == RenderAlternative(n, x);
    } else {
      assert Render(n, parent, x) == RenderBlock(n, x);
    }
  }

  lemma CharacterClassComplete(n: Node, parent: Parent, s: string) returns (cs: Choices)
    requires n.CharacterClass? && WellFormed(n) && CanGen(n, parent, s)
    ensures Produces(n, parent, cs, s)
  {
    var range := CharRange(n.start.value[0], n.end.value[0]);
    assert s[0] in range;
    var j :| 0 <= j < |range| && range[j] == s[0];
    cs := [j];
    forall rest ensures Render(n, parent, cs + rest) == Rendered(s, rest) {
      ClassCoverage(n, parent, j, rest);
    }
  }

  /** Every character of the class's range can be drawn: the choice `j`
      renders the `j`-th character of PHP's `range(start, end)`. */
  lemma ClassCoverage(n: Node, parent: Parent, j: nat, rest: Choices)
    requires n.CharacterClass? && WellFormed(n)
    requires j < |CharRange(n.start.value[0], n.end.value[0])|
    ensures Render(n, parent, [j] + rest) == Rendered([CharRange(n.start.value[0], n.end.value[0])[j]], rest)
  {
    var range := CharRange(n.start.value[0], n.end.value[0]);
    assert Draw(0, |range| - 1, [j] + rest) == (j, rest) by {
      DrawReaches(0, |range| - 1, j, rest);
    }
    assert Render(n, parent, [j] + rest) == RenderCharacterClass(n, [j] + rest);
  }

  /** Repetitions: the repeat count, then the choices of the passes. */
  lemma {:induction false} RepetitionComplete(n: Node, parent: Parent, s: string) returns (cs: Choices)
    requires n.Repetition? && WellFormed(n) && CanGen(n, parent, s)
    ensures Produces(n, parent, cs, s)
    decreases n, 0
  {
    var ch, lo := n.childNodes, n.min;
    var k: nat :| lo <= k <= RepeatUpper(n) && CanGenPasses(ch, OtherParent, k, s);
    var ck := PassesComplete(ch, OtherParent, k, s);
    cs := [k - lo] + ck;
    forall rest ensures Render(n, parent, cs + rest) == Rendered(s, rest) {
      Reassociate([k - lo], ck, rest);
      DrawReaches(lo, RepeatUpper(n), k, ck + rest);
      assert RenderPasses(ch, OtherParent, k, ck + rest) == Rendered(s, rest);
    }
  }

  lemma TokenComplete(n: Node, parent: Parent, s: string) returns (cs: Choices)
    requires n.TokenNode? && WellFormed(n) && CanGen(n, parent, s)
    ensures Produces(n, parent, cs, s)
  {
    var t := n.token;
    if !IsEscape(t) && IsPeriod(t) && ExpandsWildcard(parent) {
      var range := CharRange('a', 'Z');
      DescendingLettersCodes(s[0]);
      var j :| 0 <= j < |range| && range[j] == s[0];
      cs := [j];
      forall rest ensures Render(n, parent, cs + rest) == Rendered(s, rest) {
        WildcardCoverage(n, parent, j, rest);
      }
    } else {
      cs := [];
      forall rest ensures Render(n, parent, cs + rest) == Rendered(s, rest) {
        assert cs + rest == rest;
      }
    }
  }

  /** Every character of `range('a', 'Z')` can be drawn for an expanding
      wildcard: the choice `j` renders the `j`-th of them. */
  lemma WildcardCoverage(n: Node, parent: Parent, j: nat, rest: Choices)
    requires n.TokenNode? && !IsEscape(n.token) && IsPeriod(n.token) && ExpandsWildcard(parent)
    requires j < |CharRange('a', 'Z')|
    ensures Render(n, parent, [j] + rest) == Rendered([CharRange('a', 'Z')[j]], rest)
  {
    var range := CharRange('a', 'Z');
    assert Draw(0, |range| - 1, [j] + rest) == (j, rest) by {
      DrawReaches(0, |range| - 1, j, rest);
    }
    assert Render(n, parent, [j] + rest) == RenderToken(n, parent, [j] + rest);
  }

  /** Completeness for a list rendered in order. */
  lemma {:induction false} SeqComplete(ns: seq<Node>, parent: Parent, s: string) returns (cs: Choices)
    requires AllWellFormed(ns) && CanGenSeq(ns, parent, s)
    ensures ProducesSeq(ns, parent, cs, s)
    decreases ns, 0, 0
  {
    if |ns| == 0 {
      cs := [];
      forall rest ensures RenderSeq(ns, parent, cs + rest) == Rendered(s, rest) {
        assert cs + rest == rest;
      }
    } else {
      var i :| 0 <= i <= |s| && CanGen(ns[0], parent, s[..i]) && CanGenSeq(ns[1..], parent, s[i..]);
      var c1 := RenderComplete(ns[0], parent, s[..i]);
      var c2 := SeqComplete(ns[1..], parent, s[i..]);
      cs := c1 + c2;
      forall rest ensures RenderSeq(ns, parent, cs + rest) == Rendered(s, rest) {
        Reassociate(c1, c2, rest);
        assert Render(ns[0], parent, c1 + (c2 + rest)) == Rendered(s[..i], c2 + rest);
        assert RenderSeq(ns[1..], parent, c2 + rest) == Rendered(s[i..], rest);
        assert s[..i] + s[i..] == s;
      }
    }
  }

  /** Completeness for `k` passes over a list. */
  lemma {:induction false} PassesComplete(ns: seq<Node>, parent: Parent, k: nat, s: string) returns (cs: Choices)
    requires AllWellFormed(ns) && CanGenPasses(ns, parent, k, s)
    ensures ProducesPasses(ns, parent, k, cs, s)
    decreases ns, 1, k
  {
    if k == 0 {
      cs := [];
      forall rest ensures RenderPasses(ns, parent, k, cs + rest) == Rendered(s, rest) {
        assert cs + rest == rest;
      }
    } else {
      var i :| 0 <= i <= |s| && CanGenSeq(ns, parent, s[..i]) && CanGenPasses(ns, parent, k - 1, s[i..]);
      var c1 := SeqComplete(ns, parent, s[..i]);
      var c2 := PassesComplete(ns, parent, k - 1, s[i..]);
      cs := c1 + c2;
      forall rest ensures RenderPasses(ns, parent, k, cs + rest) == Rendered(s, rest) {
        var x := c1 + (c2 + rest);
        assert cs + rest == x by { Reassociate(c1, c2, rest); }
        assert RenderSeq(ns, parent, x) == Rendered(s[..i], c2 + rest);
        assert RenderPasses(ns, parent, k - 1, c2 + rest) == Rendered(s[i..], rest);
        assert s[..i] + s[i..] == s;
      }
    }
  }

  /** The generator produces exactly the strings the rules allow: each
      output is allowed, and each allowed string is an output. */
  lemma GeneratesExactly(n: Node, parent: Parent, s: string)
    requires WellFormed(n)
    ensures CanGen(n, parent, s) <==> exists cs :: Render(n, parent, cs).output == s
  {
    if CanGen(n, parent, s) {
      var cs := RenderComplete(n, parent, s);
      assert Render(n, parent, cs + []) == Rendered(s, []);
      assert cs + [] == cs;
    } else {
      forall cs ensures Render(n, parent, cs).output != s {
        RenderSound(n, parent, cs);
      }
    }
  }

  /** The parent only matters to a token, and to a token only through
      whether it lets the wildcard expand. */
  lemma ParentOnlyMattersToWildcard(n: Node, p1: Parent, p2: Parent, cs: Choices)
    requires WellFormed(n)
    requires IsWildcard(n) ==> ExpandsWildcard(p1) == ExpandsWildcard(p2)
    ensures Render(n, p1, cs) == Render(n, p2, cs)
  {
  }

  lemma {:induction false} SeqUnderEquivalentParents(ns: seq<Node>, p1: Parent, p2: Parent, cs: Choices)
    requires AllWellFormed(ns)
    requires ExpandsWildcard(p1) == ExpandsWildcard(p2)
    ensures RenderSeq(ns, p1, cs) == RenderSeq(ns, p2, cs)
    decreases |ns|
  {
    if |ns| > 0 {
      ParentOnlyMattersToWildcard(ns[0], p1, p2, cs);
      var a := Render(ns[0], p1, cs);
      SeqUnderEquivalentParents(ns[1..], p1, p2, a.rest);
    }
  }

  /** Begin, End and a sub-pattern block over the same children render
      alike: the anchors contribute no characters of their own. */
  lemma AnchorsAddNothing(ch: seq<Node>, parent: Parent, cs: Choices)
    requires AllWellFormed(ch)
    ensures WellFormed(Begin(ch)) && WellFormed(End(ch)) && WellFormed(Block(ch, true))
    ensures Render(Begin(ch), parent, cs) == Render(Block(ch, true), parent, cs)
    ensures Render(End(ch), parent, cs) == Render(Block(ch, true), parent, cs)
  {
    SeqUnderEquivalentParents(ch, OtherParent, BlockParent(true), cs);
  }

  /** The node is a token for the `T_PERIOD` wildcard (and not an escape). */
  predicate IsWildcard(n: Node) {
    n.TokenNode? && !IsEscape(n.token) && IsPeriod(n.token)
  }

  /** An Alternative and a block that is not a sub-pattern pick among the
      same children alike, as long as none of them is a wildcard token. */
  lemma AlternativeAsBlock(ch: seq<Node>, parent: Parent, cs: Choices)
    requires |ch| > 0 && AllWellFormed(ch)
    requires forall i :: 0 <= i < |ch| ==> !IsWildcard(ch[i])
    ensures WellFormed(Alternative(ch)) && WellFormed(Block(ch, false))
    ensures Render(Alternative(ch), parent, cs) == Render(Block(ch, false), parent, cs)
  {
    var d := Draw(0, |ch| - 1, cs);
    assert !IsWildcard(ch[d.0]);
    ParentOnlyMattersToWildcard(ch[d.0], OtherParent, BlockParent(false), d.1);
  }

  /** ... and they differ on a wildcard: under the Alternative it becomes a
      character with code 90..97, under the block it stays its own text. */
  lemma AlternativeAndBlockDifferOnWildcard(t: Token, cs: Choices)
    requires IsPeriod(t)
    ensures Render(Block([TokenNode(t)], false), OtherParent, cs).output == t.value
    ensures var o := Render(Alternative([TokenNode(t)]), OtherParent, cs).output;
      |o| == 1 && 90 <= o[0] as int <= 97
  {
    var d := Draw(0, 0, cs);
    assert Render(Block([TokenNode(t)], false), OtherParent, cs)
      == RenderToken(TokenNode(t), BlockParent(false), d.1);
    assert Render(Alternative([TokenNode(t)]), OtherParent, cs)
      == RenderToken(TokenNode(t), OtherParent, d.1);
  }

  /** Every repeat count in the window can be chosen, and zero passes render
      nothing. */
  lemma RepetitionCoverage(n: Node, k: nat, rest: Choices)
    requires n.Repetition? && WellFormed(n) && n.min <= k <= RepeatUpper(n)
    ensures Render(n, OtherParent, [k - n.min] + rest) == RenderPasses(n.childNodes, OtherParent, k, rest)
    ensures k == 0 ==> Render(n, OtherParent, [k - n.min] + rest) == Rendered([], rest)
  {
    var cs := [k - n.min] + rest;
    DrawReaches(n.min, RepeatUpper(n), k, rest);
    assert Draw(n.min, RepeatUpper(n), cs) == (k, rest);
    assert RenderRepetition(n, cs) == RenderPasses(n.childNodes, OtherParent, k, rest);
  }

  /** An escape renders as nothing under any parent and draws nothing. */
  lemma EscapeRendersNothing(t: Token, parent: Parent, cs: Choices)
    requires IsEscape(t)
    ensures Render(TokenNode(t), parent, cs) == Rendered([], cs)
  {
  }
}
