# Password generator: a Dafny model of the seed-word transformation and password assembly

This project models the password-construction logic of a browser password
generator (`app/page.tsx`). The user picks a length, four character classes
(lower case, upper case, digits, symbols) and an optional seed word.
Generation happens in two parts, both modelled here.

* **Charset assembly and length reconciliation** (`generatePassword`). The
  enabled ranges are concatenated in the fixed order lower case, upper case,
  digits, symbols. An empty charset is an error and produces nothing.
  Without a seed word, the password is `length` random charset characters.
  With a seed word, the transformed word is cut to `length` characters, or
  padded by inserting random charset characters at random positions until
  it has exactly `length` characters.
* **Seed-word transformation** (`transformWord`). Each character goes
  through a precedence chain of randomized rules: leetspeak substitution
  (case-insensitive table lookup), then uppercasing (letters only), then
  appending one random charset character, and otherwise it is kept. After
  that, one digit and one symbol from the fixed set
  `!@#$%^&*()_+-=[]{}|;:,.<>?` are spliced in at random positions.

Randomness is the only non-determinism. It is modelled by an `Entropy`
value that holds two oracle streams (module `Oracle`):

* each `Math.random() > t` test reads the next *coin*;
* each `Math.floor(Math.random() * n)` reads the next *pick* `u`, which
  selects index `Below(u, n)` (below `n`, or 0 when `n == 0`).

Every index is selected by some pick. Draws are read in the source's
order, and only when the source makes them. No coin is drawn for
substitution when the character has no table entry, and none for
uppercasing when it is not a letter. The streams may hold any values, so
the model covers every password the program can produce. Probabilities are
not modelled.

Modules:
- `Alphabet` (alphabet.dfy): the four ranges, the leetspeak table, ASCII case functions.
- `Oracle` (oracle.dfy): the random source.
- `Splicing` (splicing.dfy): slice-insertion, and the relation "`r` is `t`
  with pool characters inserted" (`Interleaved`). This relation is proved
  equal to a reference formulation: `t` is a subsequence of `r`, and every
  other character of `r` is in the pool.
- `WordTransformer` (transform.dfy): `transformWord`.
- `PasswordGenerator` (generator.dfy): charset assembly, `Generate` (the
  computation of `generatePassword`), and the `Generator` class, whose
  `password` field is the state that `setPassword` overwrites.

The model follows the code in these details, some of which a reading of the generator's intent would put differently:
- The digit position is drawn from `[0, length)` over the joined
  replacements, so it excludes the end. The symbol position is drawn from
  `[0, length]` using the length from before the digit was inserted. So,
  for a non-empty word, neither spliced character can be the last one
  (`TransformWordEndsWithWord`); an empty word always becomes the symbol
  followed by the digit (`TransformEmptyWord`). A design that drew both positions over the
  current length, end included, would allow a spliced character at the end.
- The uppercase rule fires for any letter, including one that is already
  upper case.
- The append rule applies to every character that reaches it, letters
  included.
- The substitution lookup is case-insensitive, so `A` can become `@`.
- The length is not limited to 6..32 in the code (only the slider limits
  it), so the model accepts any natural number.

## Model

The rows below rely on these definitions, which state the source's data
and carry no contract of their own:
- `Alphabet.Leet` (app/page.tsx:17-27): the leetspeak table.
- `Alphabet.HasLeet` and `Alphabet.LeetOf` (app/page.tsx:32-33): the
  case-insensitive lookup `replacements[char.toLowerCase()]` and its image.
- `Alphabet.IsLetter` (app/page.tsx:37): the test `/[a-z]/i`.
- `WordTransformer.Join` (app/page.tsx:51): `join('')` of the per-character
  replacements; `WordTransformer.Extended` counts the appended characters.
- `PasswordGenerator.Ranges`, `PasswordGenerator.Enabled`,
  `PasswordGenerator.ConcatEnabled` and `PasswordGenerator.Charset`
  (app/page.tsx:76-80): the four ranges in assembly order, the four
  checkbox flags in the same order, and the concatenation of the enabled
  ranges. `Enabled` only promises one flag per range; what the charset
  then is, is stated by `CharsetInOrder`, `CharsetMembers` and
  `CharsetEmptyIff`.

| member | source | states |
|---|---|---|
| `Alphabet.ToLower` | app/page.tsx:32 | lower-casing maps the `k`-th upper-case letter to the `k`-th lower-case letter, keeps lower-case letters, and leaves every non-upper-case character unchanged |
| `Alphabet.ToUpper` | app/page.tsx:38 | upper-casing maps the `k`-th lower-case letter to the `k`-th upper-case letter, keeps upper-case letters, and leaves every non-lower-case character unchanged |
| `Alphabet.CaseRoundTrip` | app/page.tsx:32-38 | changing a letter's case keeps the letter: the lower and upper forms of its upper and lower forms agree |
| `Alphabet.LeetKeysAreLetters` | app/page.tsx:17-27 | a character with a table entry is a letter whose lower-case form is a lower-case letter |
| `Alphabet.LeetIgnoresCase` | app/page.tsx:32-33 | the table lookup ignores case: a letter has an entry exactly when its upper-case form does, both get the same image, and so `A` becomes `@` |
| `Alphabet.RangeMembers` | app/page.tsx:77-79 | the lower-case, upper-case and digit ranges hold exactly the characters `a`-`z`, `A`-`Z` and `0`-`9` |
| `Alphabet.SymbolsAreNotAlphanumeric` | app/page.tsx:53 | no character of the fixed symbol set is a letter or a digit |
| `Oracle.Below` | app/page.tsx:57-58 | a pick selects an index below `n` (0 when `n` is 0), and every index below `n` is selected by some pick |
| `Splicing.Insert` | app/page.tsx:60-61 | a slice-insertion puts `c` at position `p`, keeps the characters before `p`, shifts the ones after it by one, and adds exactly `c` to the multiset of characters |
| `Splicing.InterleavedSound` | app/page.tsx:99-103 | if `r` is `t` with pool characters inserted, then some increasing embedding maps `t` into `r`, and every position outside it holds a pool character |
| `Splicing.InterleavedComplete` | app/page.tsx:99-103 | conversely, such an embedding makes `r` equal to `t` with pool characters inserted |
| `Splicing.InterleavedIff` | app/page.tsx:99-103 | the recursive insertion relation and the subsequence-plus-pool formulation are equivalent |
| `Splicing.InterleavedRefl` | app/page.tsx:98 | a string is itself with nothing inserted (the padding loop's starting point) |
| `Splicing.InsertInterleaved` | app/page.tsx:102 | inserting one pool character at any position in range keeps `r` as `t` with pool characters inserted |
| `Splicing.InterleavedContents` | app/page.tsx:99-103 | insertion never removes anything: `t` is no longer than `r`, its multiset is contained in `r`'s, and every extra character is a pool character |
| `Splicing.InterleavedSameLength` | app/page.tsx:98-99 | when `r` is as long as `t`, nothing was inserted and `r == t` |
| `Splicing.InterleavedWiderPool` | app/page.tsx:53-61 | characters inserted from a pool also count as inserted from any larger pool |
| `WordTransformer.TransformChar` | app/page.tsx:30-48 | one character becomes its table image, its upper case (letters only), itself, or itself followed by one charset character; it draws 1 to `CoinBound(c)` coins (exactly one for a non-letter), and a pick only when a character is appended |
| `WordTransformer.TransformCharComplete` | app/page.tsx:30-48 | every replacement the rules allow is produced by some draws, so the per-character rule set is exact |
| `WordTransformer.JoinLength` | app/page.tsx:51 | joining one- or two-character replacements gives a length of `|word|` plus the number of appends, and there are at most `|word|` appends |
| `WordTransformer.TransformChars` | app/page.tsx:30-48 | the map gives one replacement per character, in order, each allowed by the rules and one or two characters long; it draws at most three coins per character and exactly one pick per append |
| `WordTransformer.DrawSplice` | app/page.tsx:51-58 | the digit is in `0`-`9` and the symbol is in the fixed set; the digit position is below the joined length (0 for an empty word); the symbol position is at most the joined length; four picks are drawn |
| `WordTransformer.Render` | app/page.tsx:60-61 | the two insertions add exactly two characters: the symbol at its position, the digit at its position (one further right if the symbol went before it), and every joined character kept in order |
| `WordTransformer.TransformWord` | app/page.tsx:12-64 | the output has `|word| + appends + 2` characters, contains a digit and a symbol from the fixed set, and is the joined replacements with only digits or symbols inserted |
| `WordTransformer.TransformWordEndsWithWord` | app/page.tsx:57-61 | for a non-empty word, neither spliced character ends the output: its last character is the last joined character |
| `WordTransformer.TransformEmptyWord` | app/page.tsx:57-61 | an empty word becomes exactly two characters, a symbol from the fixed set followed by a digit |
| `PasswordGenerator.ConcatEnabledEmpty` | app/page.tsx:76-80 | concatenating the enabled ranges gives the empty string exactly when every enabled range is empty |
| `PasswordGenerator.ConcatEnabledMembers` | app/page.tsx:76-80 | a character is in the concatenation exactly when some enabled range holds it |
| `PasswordGenerator.ConcatFour` | app/page.tsx:76-80 | concatenating four ranges under four flags is the in-order concatenation of the enabled ones |
| `PasswordGenerator.CharsetInOrder` | app/page.tsx:76-80 | the charset is lower case, upper case, digits and symbols, in that order, each present exactly when its flag is set |
| `PasswordGenerator.CharsetEmptyIff` | app/page.tsx:76-82 | the charset is empty exactly when all four flags are false |
| `PasswordGenerator.CharsetMembers` | app/page.tsx:76-80 | a character is in the charset exactly when it belongs to a selected class |
| `PasswordGenerator.SymbolDespiteFlag` | app/page.tsx:53-61 | with symbols deselected, the transformed seed word still contains a symbol that is not in the charset |
| `PasswordGenerator.AssembleCharset` | app/page.tsx:76-80 | the repeated `+=` builds exactly the charset |
| `PasswordGenerator.Generate` | app/page.tsx:75-111 | fails exactly when the charset is empty; otherwise the password has exactly `length` characters; without a seed word every character is in the charset; with one, a longer transformed word is cut to its first `length` characters, and a shorter one is padded by inserting only charset characters, keeping it as a subsequence |
| `PasswordGenerator.Generator.constructor` | app/page.tsx:67 | the displayed password starts empty |
| `PasswordGenerator.Generator.GeneratePassword` | app/page.tsx:75-115 | fails exactly when no class is selected (equivalently, when the charset is empty) and then leaves the stored password unchanged; otherwise stores a new password of exactly `length` characters that, without a seed word, holds only charset characters and, with one, is the transformed word cut to `length` characters or that word padded by inserting only charset characters |

## Left out

- The React component shell is not modelled: `useState` hooks, JSX markup, and the slider, checkbox and input wiring. These are presentation code. The configuration and seed word are parameters instead.
- The `toast` notifications are not modelled. They belong to a UI library; the error is the `Failure(NoCharacterType)` result.
- `copyToClipboard` and `navigator.clipboard.writeText` are not modelled, because they are browser I/O.
- `Math.random` as a floating-point source, and the thresholds 0.5, 0.7 and 0.8, are replaced by the coin and pick streams. No probabilities are modelled.
- The random source is a pair of finite streams. Each operation requires enough entries for its worst case (`EnoughDraws`, `Available`). `Math.random` never runs out.
- Characters are restricted to ASCII for `toLowerCase`, `toUpperCase` and `/[a-z]/i`. JavaScript's Unicode case mapping and UTF-16 code units are not modelled.
- `WordTransformer.TransformWord`, `WordTransformer.TransformChars` and `WordTransformer.TransformChar` require a non-empty charset. Their only caller guarantees one. With an empty charset, JavaScript would append the text `undefined`.
