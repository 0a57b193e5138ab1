/** Which strings the generator may produce for a node, stated as a relation
    and independently of any random choices. `CanGen(n, parent, s)` holds
    when `s` is one of the outputs the generation rules allow for node `n`
    sitting under a parent described by `parent`. */
module GenSpec {
  import opened Tokens
  import opened Nodes
  import opened PhpRange

  /** The wildcard expands unless its parent is a block that is not a
      sub-pattern. */
  predicate ExpandsWildcard(parent: Parent) {
    !parent.BlockParent? || parent.isSubPattern
  }

  /** The largest repeat count a repetition may choose: its maximum, or five
      more than its minimum when it has none. */
  function RepeatUpper(n: Node): (u: nat)
    requires n.Repetition?
    ensures n.max.Some? ==> u == n.max.value
    ensures n.max.None? ==> u == n.min + 5
    ensures WellFormed(n) ==> n.min <= u
  {
    match n.max
    case Some(hi) => hi
    case None => n.min + 5
  }

  /** The context a node hands to its children lets a wildcard child expand
      unless the node is a block that is not a sub-pattern. */
  lemma WildcardContext(n: Node)
    ensures ExpandsWildcard(ParentOf(n)) <==> !(n.Block? && !n.subPattern)
  {
  }

  ghost predicate CanGen(n: Node, parent: Parent, s: string)
    decreases n, 1
  {
    match n
    case Begin(ch) => CanGenSeq(ch, OtherParent, s)
    case End(ch) => CanGenSeq(ch, OtherParent, s)
    case Alternative(ch) => exists i :: 0 <= i < |ch| && CanGen(ch[i], OtherParent, s)
    case Block(ch, sub) =>
      if sub then CanGenSeq(ch, BlockParent(true), s)
      else exists i :: 0 <= i < |ch| && CanGen(ch[i], BlockParent(false), s)
    case CharacterClass(a, b) =>
      && |a.value| == 1 && |b.value| == 1
      && |s| == 1 && Between(s[0], a.value[0], b.value[0])
    case Repetition(ch, lo, _) =>
      exists k: nat :: lo <= k <= RepeatUpper(n) && CanGenPasses(ch, OtherParent, k, s)
    case TokenNode(t) =>
      if IsEscape(t) then s == []
      else if IsPeriod(t) && ExpandsWildcard(parent) then |s| == 1 && 90 <= s[0] as int <= 97
      else s == t.value
  }

  /** `s` splits, in order, into one allowed output per node of `ns`. */
  ghost predicate CanGenSeq(ns: seq<Node>, parent: Parent, s: string)
    decreases ns, 0, 0
  {
    if |ns| == 0 then s == []
    else exists i :: 0 <= i <= |s| && CanGen(ns[0], parent, s[..i]) && CanGenSeq(ns[1..], parent, s[i..])
  }

  /** `s` splits, in order, into `k` allowed outputs of the whole list `ns`. */
  ghost predicate CanGenPasses(ns: seq<Node>, parent: Parent, k: nat, s: string)
    decreases ns, 1, k
  {
    if k == 0 then s == []
    else exists i :: 0 <= i <= |s| && CanGenSeq(ns, parent, s[..i]) && CanGenPasses(ns, parent, k - 1, s[i..])
  }
}
