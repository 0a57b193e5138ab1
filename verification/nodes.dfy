/** Lexer tokens, as far as the generator looks at them: whether the token
    is an escape sequence, whether it is the `T_PERIOD` wildcard, and its
    string value. */
module Tokens {

  datatype TokenKind = Escape | Period | Other

  datatype Token = Token(kind: TokenKind, value: string)

  /** `$token instanceof EscapeToken` */
  predicate IsEscape(t: Token) {
    t.kind == Escape
  }

  /** `$token->is('T_PERIOD')` */
  predicate IsPeriod(t: Token) {
    t.kind == Period
  }
}

/** The parse tree the generator walks. The tree is immutable: the classes
    of the PHP code expose getters only, so every node is a plain value. */
module Nodes {
  import opened Tokens
  import opened PhpRange

  datatype Option<T> = None | Some(value: T)

  /** One node of the tree. `childNodes` is the ordered child list a node
      owns. A `CharacterClass` holds its two boundary tokens (the token nodes
      of the PHP code, flattened to the tokens they wrap); a `Repetition`
      holds its bounds, with `None` for a missing maximum. */
  datatype Node =
    | Begin(childNodes: seq<Node>)
    | End(childNodes: seq<Node>)
    | Alternative(childNodes: seq<Node>)
    | Block(childNodes: seq<Node>, subPattern: bool)
    | CharacterClass(start: Token, end: Token)
    | Repetition(childNodes: seq<Node>, min: nat, max: Option<nat>)
    | TokenNode(token: Token)

  /** The payload a node stores besides its children: `null` for a block,
      the `{start, end}` pair for a character class. */
  datatype NodeValue = Null | StartEnd(start: Token, end: Token)

  /** What a node knows about its parent: the generator only asks whether the
      parent is a block and, if so, whether that block is a sub-pattern. */
  datatype Parent = OtherParent | BlockParent(isSubPattern: bool)

  /** The parent context a node hands to its own children. */
  function ParentOf(n: Node): Parent {
    if n.Block? then BlockParent(n.subPattern) else OtherParent
  }

  /** `getChildNodes()`: leaves own no children. */
  function ChildNodes(n: Node): seq<Node> {
    match n
    case CharacterClass(_, _) => []
    case TokenNode(_) => []
    case _ => n.childNodes
  }

  /** The kind tag a node class passes to its parent constructor. */
  function Name(n: Node): string
    requires n.Block? || n.CharacterClass?
  {
    if n.Block? then "block" else "character-class"
  }

  /** The value a node class passes to its parent constructor. */
  function Value(n: Node): NodeValue
    requires n.Block? || n.CharacterClass?
  {
    if n.Block? then Null else StartEnd(n.start, n.end)
  }

  /** `new BlockNode($childNodes, $isSubPattern = false)` */
  function NewBlock(childNodes: seq<Node>, isSubPattern: bool := false): (n: Node)
    ensures n.Block?
    ensures Name(n) == "block" && Value(n) == Null
    ensures ChildNodes(n) == childNodes
  {
    Block(childNodes, isSubPattern)
  }

  /** `isSubPattern()`: the flag is the one the block was built with, and
      together with the children it rebuilds the node. */
  function IsSubPattern(n: Node): (b: bool)
    requires n.Block?
    ensures n == NewBlock(ChildNodes(n), b)
  {
    n.subPattern
  }

  /** `new CharacterClassNode($start, $end)` */
  function NewCharacterClass(start: Token, end: Token): (n: Node)
    ensures n.CharacterClass?
    ensures Name(n) == "character-class" && Value(n) == StartEnd(start, end)
    ensures ChildNodes(n) == []
  {
    CharacterClass(start, end)
  }

  /** `getStart()`: the start token the node was built with. */
  function GetStart(n: Node): (t: Token)
    requires n.CharacterClass?
    ensures n == NewCharacterClass(t, n.end)
    ensures Value(n).start == t
  {
    n.start
  }

  /** `getEnd()`: the end token the node was built with. */
  function GetEnd(n: Node): (t: Token)
    requires n.CharacterClass?
    ensures n == NewCharacterClass(n.start, t)
    ensures Value(n).end == t
  {
    n.end
  }

  /** A boundary of a character class: a one-byte, one-character token. */
  predicate IsRangeEnd(t: Token) {
    |t.value| == 1 && IsByte(t.value[0])
  }

  /** What the generator needs of the tree: alternatives and non-sub-pattern
      blocks have a child to pick, repetition bounds are ordered, and
      character-class boundaries are single bytes. */
  predicate WellFormed(n: Node)
    decreases n
  {
    match n
    case Begin(ch) => forall i :: 0 <= i < |ch| ==> WellFormed(ch[i])
    case End(ch) => forall i :: 0 <= i < |ch| ==> WellFormed(ch[i])
    case Alternative(ch) => |ch| > 0 && forall i :: 0 <= i < |ch| ==> WellFormed(ch[i])
    case Block(ch, sub) => (sub || |ch| > 0) && forall i :: 0 <= i < |ch| ==> WellFormed(ch[i])
    case CharacterClass(s, e) => IsRangeEnd(s) && IsRangeEnd(e)
    case Repetition(ch, lo, hi) =>
      (hi.Some? ==> lo <= hi.value) && forall i :: 0 <= i < |ch| ==> WellFormed(ch[i])
    case TokenNode(_) => true
  }

  predicate AllWellFormed(ns: seq<Node>) {
    forall i :: 0 <= i < |ns| ==> WellFormed(ns[i])
  }

  lemma NewBlockFlag(childNodes: seq<Node>, isSubPattern: bool)
    ensures IsSubPattern(NewBlock(childNodes, isSubPattern)) == isSubPattern
    ensures !IsSubPattern(NewBlock(childNodes))
  {
  }

  lemma NewCharacterClassBounds(start: Token, end: Token)
    ensures GetStart(NewCharacterClass(start, end)) == start
    ensures GetEnd(NewCharacterClass(start, end)) == end
  {
  }
}
