/** `RandomGenerator`: renders a parse tree into one random string that has
    the pattern's shape.

    Every rendering function takes the choice stream and returns the output
    together with the stream that remains, so the choices are consumed left
    to right in the order `RandomGenerator` draws its random numbers. A node's
    parent is not looked up through a back-link; the caller passes the
    parent's description down (`ParentOf` of the node being expanded).
 */
module RandomGenerator {
  import opened Tokens
  import opened Nodes
  import opened PhpRange
  import opened ChoiceStream
  import opened GenSpec

  datatype Rendered = Rendered(output: string, rest: Choices)

  /** `printNode`: dispatch on the node's variant. */
  function Render(n: Node, parent: Parent, cs: Choices): (r: Rendered)
    requires WellFormed(n)
    decreases n, 1
  {
    match n
    case Alternative(_) => RenderAlternative(n, cs)
    case Block(_, _) => RenderBlock(n, cs)
    case CharacterClass(_, _) => RenderCharacterClass(n, cs)
    case Repetition(_, _, _) => RenderRepetition(n, cs)
    case TokenNode(_) => RenderToken(n, parent, cs)
    case Begin(_) => RenderBegin(n, cs)
    case End(_) => RenderEnd(n, cs)
  }

  /** `printAlternativeNode`: the rendering of exactly one branch, picked with
      one draw. */
  function RenderAlternative(n: Node, cs: Choices): (r: Rendered)
    requires n.Alternative? && WellFormed(n)
    ensures exists i :: 0 <= i < |n.childNodes| && r == Render(n.childNodes[i], OtherParent, Tail(cs))
    decreases n, 0
  {
    var ch := ChildNodes(n);
    var d := Draw(0, |ch| - 1, cs);
    Render(ch[d.0], ParentOf(n), d.1)
  }

  /** `printBlockNode`: a sub-pattern renders all of its children in order;
      any other block renders exactly one child, picked with one draw. */
  function RenderBlock(n: Node, cs: Choices): (r: Rendered)
    requires n.Block? && WellFormed(n)
    ensures n.subPattern ==> r == RenderSeq(n.childNodes, BlockParent(true), cs)
    ensures !n.subPattern ==>
      exists i :: 0 <= i < |n.childNodes| && r == Render(n.childNodes[i], BlockParent(false), Tail(cs))
    decreases n, 0
  {
    var ch := ChildNodes(n);
    if IsSubPattern(n) then
      RenderSeq(ch, ParentOf(n), cs)
    else
      var d := Draw(0, |ch| - 1, cs);
      Render(ch[d.0], ParentOf(n), d.1)
  }

  /** `printBeginNode`: the anchor adds nothing of its own; the output is
      the children's outputs in order. */
  function RenderBegin(n: Node, cs: Choices): (r: Rendered)
    requires n.Begin? && WellFormed(n)
    decreases n, 0
  {
    RenderSeq(ChildNodes(n), ParentOf(n), cs)
  }

  /** `printEndNode`: as `printBeginNode`. */
  function RenderEnd(n: Node, cs: Choices): (r: Rendered)
    requires n.End? && WellFormed(n)
    decreases n, 0
  {
    RenderSeq(ChildNodes(n), ParentOf(n), cs)
  }

  /** `printCharacterClassNode`: one character, drawn from PHP's
      `range(start, end)`, so it lies between the two boundaries whichever
      of them is larger. */
  function RenderCharacterClass(n: Node, cs: Choices): (r: Rendered)
    requires n.CharacterClass? && WellFormed(n)
    ensures |r.output| == 1
    ensures Between(r.output[0], n.start.value[0], n.end.value[0])
    ensures r.rest == Tail(cs)
    decreases n, 0
  {
    var range := CharRange(GetStart(n).value[0], GetEnd(n).value[0]);
    var d := Draw(0, |range| - 1, cs);
    Rendered([range[d.0]], d.1)
  }

  /** `printRepetitionNode`: a repeat count drawn from `[min, max]`, or from
      `[min, min + 5]` without a maximum, and that many full passes over the
      children. */
  function RenderRepetition(n: Node, cs: Choices): (r: Rendered)
    requires n.Repetition? && WellFormed(n)
    ensures exists k: nat ::
      n.min <= k <= RepeatUpper(n) && r == RenderPasses(n.childNodes, OtherParent, k, Tail(cs))
    decreases n, 0
  {
    var d := if n.max.Some? then Draw(n.min, n.max.value, cs) else Draw(n.min, n.min + 5, cs);
    RenderPasses(ChildNodes(n), ParentOf(n), d.0, d.1)
  }

  /** `printTokenNode`: escapes render as nothing; the wildcard renders one
      character with code 90..97 unless its parent is a block that is not a
      sub-pattern; every other token renders its own value. */
  function RenderToken(n: Node, parent: Parent, cs: Choices): (r: Rendered)
    requires n.TokenNode?
    ensures IsEscape(n.token) ==> r == Rendered([], cs)
    ensures !IsEscape(n.token) && IsPeriod(n.token) && ExpandsWildcard(parent) ==>
      |r.output| == 1 && 90 <= r.output[0] as int <= 97 && r.rest == Tail(cs)
    ensures !IsEscape(n.token) && !(IsPeriod(n.token) && ExpandsWildcard(parent)) ==>
      r == Rendered(n.token.value, cs)
    decreases n, 0
  {
    var token := n.token;
    if IsEscape(token) then
      Rendered([], cs)
    else if IsPeriod(token) &&
      (!parent.BlockParent? || (parent.BlockParent? && parent.isSubPattern)) then
      var range := CharRange('a', 'Z');
      var d := Draw(0, |range| - 1, cs);
      Rendered([range[d.0]], d.1)
    else
      Rendered(token.value, cs)
  }

  /** The children's renderings, in order, concatenated; each child starts
      from the stream its predecessor left. */
  function RenderSeq(ns: seq<Node>, parent: Parent, cs: Choices): (r: Rendered)
    requires AllWellFormed(ns)
    decreases ns, 0, 0
  {
    if |ns| == 0 then
      Rendered([], cs)
    else
      var a := Render(ns[0], parent, cs);
      var b := RenderSeq(ns[1..], parent, a.rest);
      Rendered(a.output + b.output, b.rest)
  }

  /** `k` full passes over the list `ns`, concatenated. */
  function RenderPasses(ns: seq<Node>, parent: Parent, k: nat, cs: Choices): (r: Rendered)
    requires AllWellFormed(ns)
    decreases ns, 1, k
  {
    if k == 0 then
      Rendered([], cs)
    else
      var a := RenderSeq(ns, parent, cs);
      var b := RenderPasses(ns, parent, k - 1, a.rest);
      Rendered(a.output + b.output, b.rest)
  }

  /** Well-formedness of a list survives concatenation with another
      well-formed list and dropping the list's first node. */
  lemma AllWellFormedSplit(ns1: seq<Node>, ns2: seq<Node>)
    requires AllWellFormed(ns1) && AllWellFormed(ns2)
    ensures AllWellFormed(ns1 + ns2)
    ensures |ns1| > 0 ==> AllWellFormed(ns1[1..]) && (ns1 + ns2)[1..] == ns1[1..] + ns2
  {
    forall i | 0 <= i < |ns1 + ns2| ensures WellFormed((ns1 + ns2)[i]) {
      if i < |ns1| { assert (ns1 + ns2)[i] == ns1[i]; } else { assert (ns1 + ns2)[i] == ns2[i - |ns1|]; }
    }
    if |ns1| > 0 {
      forall i | 0 <= i < |ns1[1..]| ensures WellFormed(ns1[1..][i]) {
        assert ns1[1..][i] == ns1[i + 1];
      }
    }
  }

  /** Rendering a list in two parts: the output of the whole is the output
      of the first part followed by the output of the second, which starts
      from the stream the first part left. */
  lemma {:induction false} RenderSeqAppend(ns1: seq<Node>, ns2: seq<Node>, parent: Parent, cs: Choices)
    requires AllWellFormed(ns1) && AllWellFormed(ns2)
    ensures AllWellFormed(ns1 + ns2)
    ensures
      var a := RenderSeq(ns1, parent, cs);
      var b := RenderSeq(ns2, parent, a.rest);
      RenderSeq(ns1 + ns2, parent, cs) == Rendered(a.output + b.output, b.rest)
    decreases |ns1|
  {
    AllWellFormedSplit(ns1, ns2);
    if |ns1| == 0 {
      assert ns1 + ns2 == ns2;
    } else {
      var h := Render(ns1[0], parent, cs);
      RenderSeqAppend(ns1[1..], ns2, parent, h.rest);
      var t := RenderSeq(ns1[1..], parent, h.rest);
      var b := RenderSeq(ns2, parent, t.rest);
      assert RenderSeq(ns1 + ns2, parent, cs) == Rendered(h.output + (t.output + b.output), b.rest) by {
        assert (ns1 + ns2)[0] == ns1[0];
      }
      assert RenderSeq(ns1, parent, cs) == Rendered(h.output + t.output, t.rest);
      assert h.output + (t.output + b.output) == (h.output + t.output) + b.output;
    }
  }

  /** `generate`: the renderings of the root's top-level children,
      concatenated in order, each child under the root as its parent. */
  method Generate(root: Node, cs: Choices) returns (output: string, rest: Choices)
    requires AllWellFormed(ChildNodes(root))
    ensures Rendered(output, rest) == RenderSeq(ChildNodes(root), ParentOf(root), cs)
  {
    var childNodes := ChildNodes(root);
    output := "";
    rest := cs;
    for i := 0 to |childNodes|
      invariant AllWellFormed(childNodes[..i])
      invariant Rendered(output, rest) == RenderSeq(childNodes[..i], ParentOf(root), cs)
    {
      var r := Render(childNodes[i], ParentOf(root), rest);
      assert childNodes[..i + 1] == childNodes[..i] + [childNodes[i]];
      RenderSeqAppend(childNodes[..i], [childNodes[i]], ParentOf(root), cs);
      assert [childNodes[i]][1..] == [];
      output := output + r.output;
      rest := r.rest;
    }
    assert childNodes[..|childNodes|] == childNodes;
  }
}
