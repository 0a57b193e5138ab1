/** Concrete consequences of the generation rules: a repeated literal, and
    the tree of the pattern `a(b|c)d{2,3}`. */
module PatternExamples {
  import opened Tokens
  import opened Nodes
  import opened ChoiceStream
  import opened GenSpec
  import opened RandomGenerator
  import opened GeneratorProperties
  import opened Soundness

  /** A token that renders its own value under any parent. */
  predicate IsLiteral(t: Token) {
    !IsEscape(t) && !IsPeriod(t)
  }

  /** `s` written `k` times. */
  function Repeat(s: string, k: nat): string {
    if k == 0 then [] else s + Repeat(s, k - 1)
  }

  /** A list holding only a literal renders as the literal's value. */
  lemma SingleLiteralSeq(t: Token, parent: Parent, s: string)
    requires IsLiteral(t) && CanGenSeq([TokenNode(t)], parent, s)
    ensures s == t.value
  {
    var ns := [TokenNode(t)];
    var j :| 0 <= j <= |s| && CanGen(ns[0], parent, s[..j]) && CanGenSeq(ns[1..], parent, s[j..]);
    assert ns[1..] == [];
    assert s == s[..j] + s[j..];
  }

  /** `k` passes over a single literal are the literal written `k` times. */
  lemma {:induction false} LiteralPasses(t: Token, parent: Parent, k: nat, s: string)
    requires IsLiteral(t) && CanGenPasses([TokenNode(t)], parent, k, s)
    ensures s == Repeat(t.value, k)
    decreases k
  {
    if k > 0 {
      var i :| 0 <= i <= |s| && CanGenSeq([TokenNode(t)], parent, s[..i])
        && CanGenPasses([TokenNode(t)], parent, k - 1, s[i..]);
      SingleLiteralSeq(t, parent, s[..i]);
      LiteralPasses(t, parent, k - 1, s[i..]);
      assert s == s[..i] + s[i..];
    }
  }

  /** A repeated literal renders as the literal written `k` times, with `k`
      between the minimum and the maximum, or the minimum plus five when
      there is no maximum. */
  lemma RepeatedLiteral(t: Token, lo: nat, hi: Option<nat>, parent: Parent, cs: Choices)
    requires IsLiteral(t) && (hi.Some? ==> lo <= hi.value)
    ensures WellFormed(Repetition([TokenNode(t)], lo, hi))
    ensures exists k: nat ::
      && lo <= k <= (if hi.Some? then hi.value else lo + 5)
      && Render(Repetition([TokenNode(t)], lo, hi), parent, cs).output == Repeat(t.value, k)
  {
    var n := Repetition([TokenNode(t)], lo, hi);
    var s := Render(n, parent, cs).output;
    RepetitionSound(n, parent, cs);
    var k: nat :| lo <= k <= RepeatUpper(n) && CanGenPasses([TokenNode(t)], OtherParent, k, s);
    LiteralPasses(t, OtherParent, k, s);
  }

  function Literal(c: char): Node {
    TokenNode(Token(Other, [c]))
  }

  /** `(b|c)` */
  function Group(): Node {
    Block([Alternative([Literal('b'), Literal('c')])], true)
  }

  /** `d{2,3}` */
  function Twice(): Node {
    Repetition([Literal('d')], 2, Some(3))
  }

  /** The tree of `a(b|c)d{2,3}`: the literal `a`, a sub-pattern holding the
      alternative `b|c`, and `d` repeated two to three times. */
  function Example(): Node {
    Begin([Literal('a'), Group(), Twice()])
  }

  const ExampleStrings: set<string> := {"abdd", "abddd", "acdd", "acddd"}

  /** Splits an allowed output of a non-empty list at its first node. */
  lemma CanGenSeqCons(n: Node, ns: seq<Node>, parent: Parent, s: string) returns (head: string, tail: string)
    requires CanGenSeq([n] + ns, parent, s)
    ensures s == head + tail && CanGen(n, parent, head) && CanGenSeq(ns, parent, tail)
  {
    var l := [n] + ns;
    assert l[0] == n && l[1..] == ns;
    var i :| 0 <= i <= |s| && CanGen(l[0], parent, s[..i]) && CanGenSeq(l[1..], parent, s[i..]);
    head, tail := s[..i], s[i..];
  }

  /** Splits an allowed output of a list of three nodes into one allowed
      output per node. */
  lemma CanGenSeqThree(n1: Node, n2: Node, n3: Node, parent: Parent, s: string) returns (x: string, y: string, z: string)
    requires CanGenSeq([n1, n2, n3], parent, s)
    ensures s == x + (y + z)
    ensures CanGen(n1, parent, x) && CanGen(n2, parent, y) && CanGen(n3, parent, z)
  {
    assert [n1, n2, n3] == [n1] + [n2, n3];
    var r1, r2: string;
    x, r1 := CanGenSeqCons(n1, [n2, n3], parent, s);
    assert [n2, n3] == [n2] + [n3];
    y, r2 := CanGenSeqCons(n2, [n3], parent, r1);
    assert [n3] == [n3] + [];
    var r3: string;
    z, r3 := CanGenSeqCons(n3, [], parent, r2);
    assert r3 == [] && z + r3 == z;
  }

  /** A literal renders as its own value. */
  lemma LiteralSpec(t: Token, parent: Parent, s: string)
    requires IsLiteral(t) && CanGen(TokenNode(t), parent, s)
    ensures s == t.value
  {
  }

  /** A sub-pattern holding an alternative of two literals renders as one
      of the two. */
  lemma LiteralChoiceSpec(t1: Token, t2: Token, s: string)
    requires IsLiteral(t1) && IsLiteral(t2)
    requires CanGen(Block([Alternative([TokenNode(t1), TokenNode(t2)])], true), OtherParent, s)
    ensures s == t1.value || s == t2.value
  {
    var alt := Alternative([TokenNode(t1), TokenNode(t2)]);
    assert [alt] + [] == [alt];
    var g, tail := CanGenSeqCons(alt, [], BlockParent(true), s);
    assert tail == [] && s == g;
    var i :| 0 <= i < 2 && CanGen(alt.childNodes[i], OtherParent, g);
    LiteralSpec(alt.childNodes[i].token, OtherParent, g);
  }

  /** What the group `(b|c)` may render. */
  lemma GroupSpec(s: string)
    requires CanGen(Group(), OtherParent, s)
    ensures s == "b" || s == "c"
  {
    LiteralChoiceSpec(Token(Other, "b"), Token(Other, "c"), s);
  }

  /** What the repetition `d{2,3}` may render. */
  lemma TwiceSpec(s: string)
    requires CanGen(Twice(), OtherParent, s)
    ensures s == "dd" || s == "ddd"
  {
    var n := Twice();
    assert RepeatUpper(n) == 3 && n.childNodes == [TokenNode(Token(Other, "d"))];
    var k: nat :| 2 <= k <= 3 && CanGenPasses(n.childNodes, OtherParent, k, s);
    LiteralPasses(Token(Other, "d"), OtherParent, k, s);
    if k == 2 {
      assert Repeat("d", 2) == "dd";
    } else {
      assert Repeat("d", 3) == "ddd";
    }
  }

  /** Gluing the pieces of `a(b|c)d{2,3}` back together. */
  lemma Assemble(a: string, g: string, d: string)
    requires a == "a" && (g == "b" || g == "c") && (d == "dd" || d == "ddd")
    ensures a + (g + d) in ExampleStrings
  {
    if g == "b" {
      if d == "dd" { assert a + (g + d) == "abdd"; } else { assert a + (g + d) == "abddd"; }
    } else {
      if d == "dd" { assert a + (g + d) == "acdd"; } else { assert a + (g + d) == "acddd"; }
    }
  }

  /** Every string the rules allow for `a(b|c)d{2,3}` matches
      `^a[bc]d{2,3}$`. */
  lemma ExampleSpec(s: string)
    ensures CanGen(Example(), OtherParent, s) ==> s in ExampleStrings
  {
    if CanGen(Example(), OtherParent, s) {
      var a, g, d := CanGenSeqThree(Literal('a'), Group(), Twice(), OtherParent, s);
      LiteralSpec(Token(Other, "a"), OtherParent, a);
      GroupSpec(g);
      TwiceSpec(d);
      Assemble(a, g, d);
    }
  }

  /** Joins an allowed output of a node and one of a list behind it. */
  lemma CanGenSeqConsIntro(n: Node, ns: seq<Node>, parent: Parent, a: string, b: string)
    requires CanGen(n, parent, a) && CanGenSeq(ns, parent, b)
    ensures CanGenSeq([n] + ns, parent, a + b)
  {
    var l := [n] + ns;
    assert l[0] == n && l[1..] == ns;
    assert (a + b)[..|a|] == a && (a + b)[|a|..] == b;
  }

  /** Joins one allowed output per node of a list of three nodes. */
  lemma CanGenSeqThreeIntro(n1: Node, n2: Node, n3: Node, parent: Parent, x: string, y: string, z: string)
    requires CanGen(n1, parent, x) && CanGen(n2, parent, y) && CanGen(n3, parent, z)
    ensures CanGenSeq([n1, n2, n3], parent, x + (y + z))
  {
    var l3, l2 := [n3], [n2, n3];
    assert CanGenSeq(l3, parent, z) by {
      CanGenSeqConsIntro(n3, [], parent, z, []);
      assert [n3] + [] == l3 && z + [] == z;
    }
    assert CanGenSeq(l2, parent, y + z) by {
      CanGenSeqConsIntro(n2, l3, parent, y, z);
      assert [n2] + l3 == l2;
    }
    CanGenSeqConsIntro(n1, l2, parent, x, y + z);
    assert [n1] + l2 == [n1, n2, n3];
  }

  /** A single literal, repeated `k` times, is an allowed output of `k`
      passes over it. */
  lemma {:induction false} LiteralPassesAllowed(t: Token, parent: Parent, k: nat)
    requires IsLiteral(t)
    ensures CanGenPasses([TokenNode(t)], parent, k, Repeat(t.value, k))
    decreases k
  {
    if k > 0 {
      CanGenSeqConsIntro(TokenNode(t), [], parent, t.value, []);
      assert [TokenNode(t)] + [] == [TokenNode(t)] && t.value + [] == t.value;
      LiteralPassesAllowed(t, parent, k - 1);
      var s := Repeat(t.value, k);
      assert s[..|t.value|] == t.value && s[|t.value|..] == Repeat(t.value, k - 1);
    }
  }

  lemma GroupAllowed(c: char)
    requires c == 'b' || c == 'c'
    ensures CanGen(Group(), OtherParent, [c])
  {
    var alt := Alternative([Literal('b'), Literal('c')]);
    assert CanGen(alt, BlockParent(true), [c]) by {
      assert CanGen(alt.childNodes[if c == 'b' then 0 else 1], OtherParent, [c]);
    }
    CanGenSeqConsIntro(alt, [], BlockParent(true), [c], []);
    assert [alt] + [] == [alt] && [c] + [] == [c];
  }

  lemma TwiceAllowed(k: nat)
    requires 2 <= k <= 3
    ensures CanGen(Twice(), OtherParent, Repeat("d", k))
  {
    LiteralPassesAllowed(Token(Other, "d"), OtherParent, k);
  }

  /** The four strings, taken apart. */
  lemma ExampleStringsShape(s: string) returns (c: char, k: nat)
    requires s in ExampleStrings
    ensures (c == 'b' || c == 'c') && 2 <= k <= 3
    ensures s == "a" + ([c] + Repeat("d", k))
  {
    if s == "abdd" || s == "acdd" {
      c, k := s[1], 2;
      assert Repeat("d", 2) == "dd";
    } else {
      c, k := s[1], 3;
      assert Repeat("d", 3) == "ddd";
    }
  }

  /** Each of the four strings is allowed for `a(b|c)d{2,3}`. */
  lemma ExampleAllowed(s: string)
    requires s in ExampleStrings
    ensures CanGen(Example(), OtherParent, s)
  {
    var c, k := ExampleStringsShape(s);
    var g, d := [c], Repeat("d", k);
    GroupAllowed(c);
    TwiceAllowed(k);
    CanGenSeqThreeIntro(Literal('a'), Group(), Twice(), OtherParent, "a", g, d);
  }

  /** The generator renders `a(b|c)d{2,3}` as exactly the four strings that
      match `^a[bc]d{2,3}$`: every output is one of them, and each of them is
      the output of some choices. */
  lemma ExampleOutputs(s: string)
    ensures WellFormed(Example())
    ensures s in ExampleStrings <==> exists cs :: Render(Example(), OtherParent, cs).output == s
  {
    GeneratesExactly(Example(), OtherParent, s);
    if s in ExampleStrings {
      ExampleAllowed(s);
    } else {
      ExampleSpec(s);
    }
  }
}
