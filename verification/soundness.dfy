/** Soundness of the generator against the relational specification:
    whatever the choices, every rendering is an output the generation rules
    allow, and the choices are only ever consumed from the front of the
    stream. One lemma per node variant, as in the generator. */
module Soundness {
  import opened Tokens
  import opened Nodes
  import opened ChoiceStream
  import opened GenSpec
  import opened RandomGenerator

  lemma {:induction false} RenderSound(n: Node, parent: Parent, cs: Choices)
    requires WellFormed(n)
    ensures CanGen(n, parent, Render(n, parent, cs).output)
    ensures IsSuffix(Render(n, parent, cs).rest, cs)
    decreases n, 1
  {
    match n
    case Alternative(_) => PickSound(n, parent, cs);
    case Block(_, sub) =>
      if sub {
        SeqNodeSound(n, parent, cs);
      } else {
        PickSound(n, parent, cs);
      }
    case CharacterClass(_, _) =>
    case Repetition(_, _, _) => RepetitionSound(n, parent, cs);
    case TokenNode(_) => TokenSound(n, parent, cs);
    case Begin(_) => SeqNodeSound(n, parent, cs);
    case End(_) => SeqNodeSound(n, parent, cs);
  }

  /** An Alternative, or a block that is not a sub-pattern, renders as one
      of its children does. */
  lemma {:induction false} PickSound(n: Node, parent: Parent, cs: Choices)
    requires n.Alternative? || (n.Block? && !n.subPattern)
    requires WellFormed(n)
    ensures exists i :: 0 <= i < |n.childNodes| && CanGen(n.childNodes[i], ParentOf(n), Render(n, parent, cs).output)
    ensures CanGen(n, parent, Render(n, parent, cs).output)
    ensures IsSuffix(Render(n, parent, cs).rest, cs)
    decreases n, 0
  {
    var ch := n.childNodes;
    var d := Draw(0, |ch| - 1, cs);
    assert Render(n, parent, cs) == Render(ch[d.0], ParentOf(n), d.1);
    RenderSound(ch[d.0], ParentOf(n), d.1);
    SuffixTransitive(Render(n, parent, cs).rest, d.1, cs);
  }

  /** Begin, End and sub-pattern blocks render their children in order. */
  lemma {:induction false} SeqNodeSound(n: Node, parent: Parent, cs: Choices)
    requires n.Begin? || n.End? || (n.Block? && n.subPattern)
    requires WellFormed(n)
    ensures CanGenSeq(n.childNodes, ParentOf(n), Render(n, parent, cs).output)
    ensures CanGen(n, parent, Render(n, parent, cs).output)
    ensures IsSuffix(Render(n, parent, cs).rest, cs)
    decreases n, 0
  {
    assert Render(n, parent, cs) == RenderSeq(n.childNodes, ParentOf(n), cs);
    SeqSound(n.childNodes, ParentOf(n), cs);
  }

  /** A repetition renders a number of passes inside its window. */
  lemma {:induction false} RepetitionSound(n: Node, parent: Parent, cs: Choices)
    requires n.Repetition? && WellFormed(n)
    ensures exists k: nat ::
      n.min <= k <= RepeatUpper(n) && CanGenPasses(n.childNodes, OtherParent, k, Render(n, parent, cs).output)
    ensures CanGen(n, parent, Render(n, parent, cs).output)
    ensures IsSuffix(Render(n, parent, cs).rest, cs)
    decreases n, 0
  {
    var d := Draw(n.min, RepeatUpper(n), cs);
    assert Render(n, parent, cs) == RenderPasses(n.childNodes, OtherParent, d.0, d.1);
    PassesSound(n.childNodes, OtherParent, d.0, d.1);
    SuffixTransitive(Render(n, parent, cs).rest, d.1, cs);
  }

  lemma TokenSound(n: Node, parent: Parent, cs: Choices)
    requires n.TokenNode?
    ensures CanGen(n, parent, Render(n, parent, cs).output)
    ensures IsSuffix(Render(n, parent, cs).rest, cs)
  {
    assert Render(n, parent, cs) == RenderToken(n, parent, cs);
  }

  lemma {:induction false} SeqSound(ns: seq<Node>, parent: Parent, cs: Choices)
    requires AllWellFormed(ns)
    ensures CanGenSeq(ns, parent, RenderSeq(ns, parent, cs).output)
    ensures IsSuffix(RenderSeq(ns, parent, cs).rest, cs)
    decreases ns, 0, 0
  {
    if |ns| > 0 {
      var a := Render(ns[0], parent, cs);
      var b := RenderSeq(ns[1..], parent, a.rest);
      RenderSound(ns[0], parent, cs);
      SeqSound(ns[1..], parent, a.rest);
      SuffixTransitive(b.rest, a.rest, cs);
      var s := a.output + b.output;
      assert s[..|a.output|] == a.output && s[|a.output|..] == b.output;
    }
  }

  lemma {:induction false} PassesSound(ns: seq<Node>, parent: Parent, k: nat, cs: Choices)
    requires AllWellFormed(ns)
    ensures CanGenPasses(ns, parent, k, RenderPasses(ns, parent, k, cs).output)
    ensures IsSuffix(RenderPasses(ns, parent, k, cs).rest, cs)
    decreases ns, 1, k
  {
    if k > 0 {
      var a := RenderSeq(ns, parent, cs);
      var b := RenderPasses(ns, parent, k - 1, a.rest);
      SeqSound(ns, parent, cs);
      PassesSound(ns, parent, k - 1, a.rest);
      SuffixTransitive(b.rest, a.rest, cs);
      var s := a.output + b.output;
      assert s[..|a.output|] == a.output && s[|a.output|..] == b.output;
    }
  }

  /** `generate` only produces strings the rules allow for the root's
      children, and what it leaves of its choices is them with a prefix
      dropped. */
  lemma GenerateSound(root: Node, cs: Choices)
    requires AllWellFormed(ChildNodes(root))
    ensures CanGenSeq(ChildNodes(root), ParentOf(root), RenderSeq(ChildNodes(root), ParentOf(root), cs).output)
    ensures var rest := RenderSeq(ChildNodes(root), ParentOf(root), cs).rest;
      IsSuffix(rest, cs) && |rest| <= |cs| && rest == cs[|cs| - |rest|..]
  {
    SeqSound(ChildNodes(root), ParentOf(root), cs);
    SuffixDrops(RenderSeq(ChildNodes(root), ParentOf(root), cs).rest, cs);
  }
}
