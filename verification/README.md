# RandomGenerator of regex-parser, in Dafny

regex-parser parses a restricted regular expression into a tree of nodes.
Its `RandomGenerator` walks that tree and prints one random string of the
pattern's shape. This project models the generator and the two node classes
whose behaviour it depends on:

- `BlockNode`, with its `isSubPattern` flag;
- `CharacterClassNode`, with its `start` and `end` boundary tokens.

It then proves what the generator can and cannot print.

Files:

- `choices.dfy` (`ChoiceStream`) is the random source.
  - Every `mt_rand(lo, hi)` becomes a `Draw` from an explicit stream of naturals. The draw reduces the stream's head into `[lo, hi]`.
  - A stream that has run out answers `lo`, as if it went on with zeros.
  - Rendering is a pure function of the tree and the stream. So two runs with the same stream give the same output, which is the determinism a seed gives `RandomGenerator`.
- `php_range.dfy` (`PhpRange`) is PHP's `range()` on one-byte characters.
  - It counts down when the first end is larger: `range('a', 'Z')` is the eight characters with codes 97 down to 90.
- `nodes.dfy` (`Tokens`, `Nodes`) holds the tokens, the immutable node tree, the two node classes' constructors and accessors, and `WellFormed`.
  - `WellFormed` states what the generator needs of a tree.
  - A node's parent is passed down as a `Parent` value instead of a back-link.
- `gen_spec.dfy` (`GenSpec`) is `CanGen`, a relation that says which strings each node may print, with no reference to random numbers.
- `generator.dfy` (`RandomGenerator`) holds `generate`, `printNode` and one function per `print*Node` method.
  - Each function returns the output and the stream left over.
- `soundness.dfy` (`Soundness`) proves two things: every output is allowed by `CanGen`, and streams are only consumed from the front.
- `properties.dfy` (`GeneratorProperties`) holds the other direction and the rest.
  - Every allowed string is printed by some choices, so `CanGen` describes the outputs exactly.
  - Every branch, repeat count and range character can be chosen.
  - The parent matters only to a wildcard.
  - Anchors print nothing of their own.
- `examples.dfy` (`PatternExamples`) works through a repeated literal and the pattern `a(b|c)d{2,3}`.
  - The tree of `a(b|c)d{2,3}` prints exactly the four strings that match `^a[bc]d{2,3}$`.

## Model

| member | source | states |
|---|---|---|
| ChoiceStream.Draw | src/RegexParser/Generator/RandomGenerator.php:162-164 | `mt_rand(lo, hi)`: the drawn value lies in the inclusive range; at most one choice, the head, is consumed, and an exhausted stream answers `lo` and consumes nothing |
| ChoiceStream.DrawReaches | src/RegexParser/Generator/RandomGenerator.php:83 | every value of the inclusive range is drawn by some choice, whatever comes after it |
| PhpRange.CharRange | src/RegexParser/Generator/RandomGenerator.php:149 | `range(start, end)` has one entry per code step plus one, begins with `start`, ends with `end`, and holds exactly the characters between the two ends in either order |
| PhpRange.DescendingLetters | src/RegexParser/Generator/RandomGenerator.php:194 | `range('a', 'Z')` is `` a ` _ ^ ] \ [ Z ``, counting down |
| PhpRange.DescendingLettersCodes | src/RegexParser/Generator/RandomGenerator.php:194 | a character is in `range('a', 'Z')` exactly when its code is between 90 and 97 |
| GenSpec.WildcardContext | src/RegexParser/Generator/RandomGenerator.php:193 | the context a node passes down lets a wildcard child expand exactly when the node is not a `BlockNode`, or is one whose `isSubPattern()` is true |
| Nodes.NewBlock | src/RegexParser/Parser/Node/BlockNode.php:11-14 | the constructor builds a node named `block` with a null value, owning exactly the given children |
| Nodes.IsSubPattern | src/RegexParser/Parser/Node/BlockNode.php:16-19 | the flag returned, with the children, rebuilds the very same block: it is the flag the block was built with |
| Nodes.NewBlockFlag | src/RegexParser/Parser/Node/BlockNode.php:11 | `isSubPattern` reports the constructor argument, and `false` when it was left out |
| Nodes.NewCharacterClass | src/RegexParser/Parser/Node/CharacterClassNode.php:9-14 | the constructor builds a node named `character-class` whose value is the `{start, end}` pair and which owns no children |
| Nodes.GetStart | src/RegexParser/Parser/Node/CharacterClassNode.php:16-19 | returns the `start` entry of the value; with the end token it rebuilds the node |
| Nodes.GetEnd | src/RegexParser/Parser/Node/CharacterClassNode.php:21-24 | returns the `end` entry of the value; with the start token it rebuilds the node |
| Nodes.NewCharacterClassBounds | src/RegexParser/Parser/Node/CharacterClassNode.php:9-24 | the accessors return exactly the tokens given to the constructor |
| GenSpec.RepeatUpper | src/RegexParser/Generator/RandomGenerator.php:161-165 | the largest repeat count is the maximum, or the minimum plus five when there is no maximum; on a well-formed node it is never below the minimum, so the `mt_rand(min, max)` call always gets an ordered range |
| RandomGenerator.RenderAlternative | src/RegexParser/Generator/RandomGenerator.php:79-84 | the output is one branch's output, printed under the alternative, after one draw |
| RandomGenerator.RenderBlock | src/RegexParser/Generator/RandomGenerator.php:91-106 | a sub-pattern prints all of its children in order; any other block prints one child, picked with one draw, under a non-sub-pattern block parent |
| RandomGenerator.RenderCharacterClass | src/RegexParser/Generator/RandomGenerator.php:147-152 | one character, lying between the two boundaries whichever is larger, after one draw |
| RandomGenerator.RenderRepetition | src/RegexParser/Generator/RandomGenerator.php:159-176 | some count `k` between the minimum and the maximum (or the minimum plus five) of full passes over the children, after one draw |
| RandomGenerator.RenderToken | src/RegexParser/Generator/RandomGenerator.php:183-200 | an escape prints nothing and draws nothing; an expanding wildcard prints one character with code 90..97 after one draw; anything else prints its own value and draws nothing |
| RandomGenerator.RenderSeqAppend | src/RegexParser/Generator/RandomGenerator.php:96-100 | printing a list in two parts gives the first part's output followed by the second's, the second starting from the stream the first left |
| RandomGenerator.Generate | src/RegexParser/Generator/RandomGenerator.php:35-48 | the loop builds the root's children's outputs, concatenated in order, each child printed under the root |
| Soundness.RenderSound | src/RegexParser/Generator/RandomGenerator.php:55-72 | whatever the choices, `printNode` prints a string the rules allow for the node, and leaves a suffix of the stream |
| Soundness.PickSound | src/RegexParser/Generator/RandomGenerator.php:79-84 | an alternative, or a block that is not a sub-pattern, prints an allowed output of one of its children |
| Soundness.SeqNodeSound | src/RegexParser/Generator/RandomGenerator.php:113-140 | Begin, End and sub-pattern blocks print an allowed output of each child, in order |
| Soundness.RepetitionSound | src/RegexParser/Generator/RandomGenerator.php:167-173 | a repetition prints `k` allowed passes over its children for some `k` inside its window |
| Soundness.TokenSound | src/RegexParser/Generator/RandomGenerator.php:185-199 | a token prints what the rules allow for it under its parent |
| Soundness.SeqSound | src/RegexParser/Generator/RandomGenerator.php:118-120 | a list prints allowed outputs of its nodes, concatenated in order |
| Soundness.PassesSound | src/RegexParser/Generator/RandomGenerator.php:169-173 | `k` passes print `k` allowed outputs of the whole list, concatenated |
| Soundness.GenerateSound | src/RegexParser/Generator/RandomGenerator.php:41-47 | `generate` prints an allowed output of the root's children, in order |
| GeneratorProperties.RenderComplete | src/RegexParser/Generator/RandomGenerator.php:55-72 | every string the rules allow for a node is printed by some choices, whatever choices follow them |
| GeneratorProperties.SeqNodeComplete | src/RegexParser/Generator/RandomGenerator.php:113-123 | Begin, End and sub-pattern blocks can print every allowed concatenation of their children's outputs |
| GeneratorProperties.PickComplete | src/RegexParser/Generator/RandomGenerator.php:105 | an alternative or a plain block can print every allowed output of every child |
| GeneratorProperties.BranchCoverage | src/RegexParser/Generator/RandomGenerator.php:79-106 | every branch of an alternative and every child of a plain block is picked by some choice, and then printed under the node |
| GeneratorProperties.CharacterClassComplete | src/RegexParser/Generator/RandomGenerator.php:147-152 | a character class can print every character between its boundaries |
| GeneratorProperties.ClassCoverage | src/RegexParser/Generator/RandomGenerator.php:149-151 | the choice `j` prints the `j`-th entry of `range(start, end)` |
| GeneratorProperties.RepetitionComplete | src/RegexParser/Generator/RandomGenerator.php:159-176 | a repetition can print every allowed output of every count in its window |
| GeneratorProperties.TokenComplete | src/RegexParser/Generator/RandomGenerator.php:183-200 | a token can print everything the rules allow for it |
| GeneratorProperties.WildcardCoverage | src/RegexParser/Generator/RandomGenerator.php:192-196 | an expanding wildcard prints the `j`-th entry of `range('a', 'Z')` for the choice `j` |
| GeneratorProperties.SeqComplete | src/RegexParser/Generator/RandomGenerator.php:98-100 | a list can print every allowed concatenation of its nodes' outputs |
| GeneratorProperties.PassesComplete | src/RegexParser/Generator/RandomGenerator.php:169-173 | `k` passes can print every allowed concatenation of `k` outputs of the list |
| GeneratorProperties.GeneratesExactly | src/RegexParser/Generator/RandomGenerator.php:55-72 | a string is printed by some choices if and only if the rules allow it |
| GeneratorProperties.ParentOnlyMattersToWildcard | src/RegexParser/Generator/RandomGenerator.php:192-193 | two parents print a node alike unless the node is a wildcard that one parent expands and the other does not |
| GeneratorProperties.SeqUnderEquivalentParents | src/RegexParser/Generator/RandomGenerator.php:193 | a list prints alike under two parents that agree on expanding the wildcard |
| GeneratorProperties.AnchorsAddNothing | src/RegexParser/Generator/RandomGenerator.php:113-140 | Begin and End print exactly what a sub-pattern block over the same children prints |
| GeneratorProperties.AlternativeAsBlock | src/RegexParser/Generator/RandomGenerator.php:79-106 | an alternative and a plain block over the same children print alike when no child is a wildcard |
| GeneratorProperties.AlternativeAndBlockDifferOnWildcard | src/RegexParser/Generator/RandomGenerator.php:192-199 | a wildcard under a plain block prints its own text, but under an alternative prints a character with code 90..97 |
| GeneratorProperties.RepetitionCoverage | src/RegexParser/Generator/RandomGenerator.php:161-173 | every count in the window is chosen by some choice, and a count of zero prints nothing |
| GeneratorProperties.EscapeRendersNothing | src/RegexParser/Generator/RandomGenerator.php:187-190 | an escape prints the empty string and draws nothing, under any parent |
| PatternExamples.LiteralPasses | src/RegexParser/Generator/RandomGenerator.php:169-173 | `k` passes over a single literal can only be the literal written `k` times |
| PatternExamples.RepeatedLiteral | src/RegexParser/Generator/RandomGenerator.php:159-176 | a repeated literal prints the literal written `k` times, for some `k` between the minimum and the maximum, or the minimum plus five |
| PatternExamples.ExampleSpec | src/RegexParser/Generator/RandomGenerator.php:113-123 | everything the rules allow for the example tree (`a`, then `b` or `c`, then `d` two or three times) matches `^a[bc]d{2,3}$` |
| PatternExamples.ExampleAllowed | src/RegexParser/Generator/RandomGenerator.php:113-123 | each of `abdd`, `abddd`, `acdd`, `acddd` is allowed for the example tree |
| PatternExamples.ExampleOutputs | src/RegexParser/Generator/RandomGenerator.php:113-123 | whatever the choices, `printNode` on the example tree's Begin node prints one of the four strings matching `^a[bc]d{2,3}$`, and each of them is printed by some choices |

## Left out

- `RandomGenerator::create` is left out. It calls the parser and lexer, which are not part of this model. The model starts from a tree.
- Seeding (`mt_srand`) and the Mersenne Twister are replaced by the choice stream.
  - A draw takes the stream's head modulo the range size, so any value can be chosen.
  - The probability of each value is not modelled. "Uniformly at random" is weakened to "every value is reachable".
- `printNode` returns `null` for a node of no known class. That case is not modelled: the node datatype has no other variant.
- An alternative or a plain block with no children, and a repetition whose maximum is below its minimum, are not modelled.
  - For these the PHP code calls `mt_rand` with `max < min`, which is an error in PHP.
  - `WellFormed` excludes them, and the renderers require it.
- Character-class boundaries must be one character with a code below 256.
  - PHP's `range()` on multi-byte strings is not modelled.
  - A class with exactly one digit end, such as `[0-z]` or `[z-9]`, is not modelled as PHP prints it. PHP's `range()` may treat such ends as numbers rather than characters: before PHP 8.3, `range('0', 'z')` is `[0]` and `range('z', '9')` is `0..9`. The model always lists the characters between the two ends.
- Character classes whose end is smaller than their start render, as in PHP, a character from the descending range. This follows the code.
  - The code has no check. `range()` then counts down, so `[z-a]` prints a letter between `a` and `z`.
- The wildcard expands to the eight characters with codes 90..97, which is what the code does. That range includes punctuation, not all letters.
- The node classes other than `BlockNode` and `CharacterClassNode` (`AlternativeNode`, `BeginNode`, `EndNode`, `RepetitionNode`, `TokenNode`, `AbstractNode`) are not part of this model.
  - Their constructors, names and values are left out.
  - They appear only as variants of the node datatype, with the fields the generator reads.
  - The `TokenNode` wrapper around a character class's boundary tokens is flattened into the tokens themselves.
- `CharacterClassNode::_getDomNode` is left out: it is XML serialisation, not generation.
- The parent back-link (`getParent`) is not a field. Whoever renders a node passes the parent's description down.
  - Only the class of the parent and its `isSubPattern` flag matter, and only to wildcard tokens.
- Nodes are immutable values, so the accessors cannot change anything and there are no setters to model.
- RandomGenerator.RenderBegin: its contract is stated through `AnchorsAddNothing` and the soundness and completeness lemmas, not on the function itself. The same holds for `RenderEnd`, `Render`, `RenderSeq` and `RenderPasses`.
