/** The seed-word transformation (`transformWord`): every character of the
    word goes through a chain of randomized rules, and then one digit and one
    symbol are spliced in at random positions. */
module WordTransformer {
  import opened Alphabet
  import opened Oracle
  import opened Splicing

  /** The replacements the rules can make for one character `c`: its
      leetspeak image (looked up case-insensitively), its upper case (for a
      letter), `c` itself, or `c` followed by one charset character. */
  predicate CharRule(c: char, charset: string, piece: string)
  {
    || (HasLeet(c) && piece == [LeetOf(c)])
    || (IsLetter(c) && piece == [ToUpper(c)])
    || piece == [c]
    || (|piece| == 2 && piece[0] == c && piece[1] in charset)
  }

  /** How many coins the rule chain may draw for `c`: the substitution coin
      only when `c` has a table entry, the uppercase coin only when `c` is a
      letter, and the insertion coin. */
  function CoinBound(c: char): nat
  {
    1 + (if HasLeet(c) then 1 else 0) + (if IsLetter(c) then 1 else 0)
  }

  /** The rule chain for one character, drawing from `e` after `at` in the
      order the source does, and only when the earlier part of each test holds. */
  function TransformChar(c: char, charset: string, e: Entropy, at: Cursor): (s: Drawn<string>)
    requires charset != [] && Available(e, at, 3, 1)
    ensures CharRule(c, charset, s.value) && 1 <= |s.value| <= 2
    ensures at.coin + 1 <= s.next.coin <= at.coin + CoinBound(c)
    ensures s.next.pick == at.pick + |s.value| - 1
  {
    if HasLeet(c) && e.coins[at.coin] then
      Drawn([LeetOf(c)], Cursor(at.coin + 1, at.pick))
    else
      // the uppercase coin comes after the substitution coin, if that was drawn
      var i := at.coin + if HasLeet(c) then 1 else 0;
      if IsLetter(c) && e.coins[i] then
        Drawn([ToUpper(c)], Cursor(i + 1, at.pick))
      else
        // the insertion coin comes after the uppercase coin, if that was drawn
        var j := if IsLetter(c) then i + 1 else i;
        if e.coins[j] then
          Drawn([c, charset[Below(e.picks[at.pick], |charset|)]], Cursor(j + 1, at.pick + 1))
        else
          Drawn([c], Cursor(j + 1, at.pick))
  }

  /** Draws that make the rule chain produce `piece`. */
  ghost function DrawsFor(c: char, charset: string, piece: string): (e: Entropy)
    requires charset != [] && CharRule(c, charset, piece)
    ensures |e.coins| == 3 && |e.picks| == 1
  {
    if HasLeet(c) && piece == [LeetOf(c)] then
      Entropy([true, true, true], [0])
    else if IsLetter(c) && piece == [ToUpper(c)] then
      Entropy([!HasLeet(c), true, true], [0])
    else if piece == [c] then
      Entropy([false, false, false], [0])
    else
      var k :| 0 <= k < |charset| && charset[k] == piece[1];
      var j := (if HasLeet(c) then 1 else 0) + (if IsLetter(c) then 1 else 0);
      Entropy(seq(3, n => n >= j), [k])
  }

  /** Every replacement the rules allow is produced by some draws. */
  lemma TransformCharComplete(c: char, charset: string, piece: string)
    requires charset != [] && CharRule(c, charset, piece)
    ensures TransformChar(c, charset, DrawsFor(c, charset, piece), Cursor(0, 0)).value == piece
  {
  }

  /** The characters' replacements, concatenated in order. */
  function Join(pieces: seq<string>): string
  {
    if pieces == [] then [] else pieces[0] + Join(pieces[1..])
  }

  /** How many characters had a charset character inserted after them. */
  function Extended(pieces: seq<string>): nat
  {
    if pieces == [] then 0 else (if |pieces[0]| == 2 then 1 else 0) + Extended(pieces[1..])
  }

  lemma {:induction false} JoinLength(pieces: seq<string>)
    requires forall i :: 0 <= i < |pieces| ==> 1 <= |pieces[i]| <= 2
    ensures |Join(pieces)| == |pieces| + Extended(pieces)
    ensures Extended(pieces) <= |pieces|
  {
    if pieces != [] {
      JoinLength(pieces[1..]);
    }
  }

  /** The `map` over the word's characters: one replacement per character,
      in order, each character drawing after the one before it. */
  function TransformChars(word: string, charset: string, e: Entropy, at: Cursor): (r: Drawn<seq<string>>)
    requires charset != [] && Available(e, at, 3 * |word|, |word|)
    ensures |r.value| == |word|
    ensures forall i :: 0 <= i < |word| ==> CharRule(word[i], charset, r.value[i]) && 1 <= |r.value[i]| <= 2
    ensures Extended(r.value) <= |word|
    ensures at.coin <= r.next.coin <= at.coin + 3 * |word|
    ensures r.next.pick == at.pick + Extended(r.value)
    decreases |word|
  {
    if word == [] then
      Drawn([], at)
    else
      var s := TransformChar(word[0], charset, e, at);
      var t := TransformChars(word[1..], charset, e, s.next);
      assert ([s.value] + t.value)[1..] == t.value;
      Drawn([s.value] + t.value, t.next)
  }

  /** The draws that finish the transformation: the joined replacements, the
      digit and the symbol to insert, and where. */
  datatype Splice = Splice(joined: string, digit: char, symbol: char, pos1: nat, pos2: nat)

  function DrawSplice(word: string, charset: string, e: Entropy, at: Cursor): (r: Drawn<Splice>)
    requires charset != [] && Available(e, at, 3 * |word|, |word| + 4)
    ensures r.value.joined == Join(TransformChars(word, charset, e, at).value)
    ensures r.value.digit in Digits && r.value.symbol in Symbols
    // The digit position excludes the end of the string; the symbol position
    // ranges over the length before the digit was inserted.
    ensures |r.value.joined| > 0 ==> r.value.pos1 < |r.value.joined|
    ensures |r.value.joined| == 0 ==> r.value.pos1 == 0
    ensures r.value.pos2 <= |r.value.joined|
    ensures at.coin <= r.next.coin <= at.coin + 3 * |word|
    ensures r.next.pick == at.pick + Extended(TransformChars(word, charset, e, at).value) + 4
  {
    var m := TransformChars(word, charset, e, at);
    var joined := Join(m.value);
    var p := m.next.pick;
    var digit := Digits[Below(e.picks[p], 10)];
    var symbol := Symbols[Below(e.picks[p + 1], |Symbols|)];
    var pos1 := Below(e.picks[p + 2], |joined|);
    var pos2 := Below(e.picks[p + 3], |joined| + 1);
    Drawn(Splice(joined, digit, symbol, pos1, pos2), Cursor(m.next.coin, p + 4))
  }

  /** The digit, then the symbol, spliced into the joined replacements. */
  function Render(s: Splice): (r: string)
    requires s.pos1 <= |s.joined| && s.pos2 <= |s.joined| + 1
    ensures |r| == |s.joined| + 2
    ensures r[s.pos2] == s.symbol
    ensures r[if s.pos2 <= s.pos1 then s.pos1 + 1 else s.pos1] == s.digit
    ensures Interleaved(s.joined, r, [s.digit, s.symbol])
  {
    var withDigit := Insert(s.joined, s.pos1, s.digit);
    InterleavedRefl(s.joined, [s.digit, s.symbol]);
    InsertInterleaved(s.joined, s.joined, [s.digit, s.symbol], s.pos1, s.digit);
    InsertInterleaved(s.joined, withDigit, [s.digit, s.symbol], s.pos2, s.symbol);
    Insert(withDigit, s.pos2, s.symbol)
  }

  /** `transformWord(word, charset)`, drawing from `e` after `at`. */
  function TransformWord(word: string, charset: string, e: Entropy, at: Cursor): (r: Drawn<string>)
    requires charset != [] && Available(e, at, 3 * |word|, |word| + 4)
    ensures |r.value| == |word| + Extended(TransformChars(word, charset, e, at).value) + 2
    ensures exists i :: 0 <= i < |r.value| && r.value[i] in Digits
    ensures exists i :: 0 <= i < |r.value| && r.value[i] in Symbols
    ensures Interleaved(Join(TransformChars(word, charset, e, at).value), r.value, Digits + Symbols)
    ensures at.coin <= r.next.coin <= at.coin + 3 * |word|
    ensures r.next.pick == at.pick + Extended(TransformChars(word, charset, e, at).value) + 4
  {
    var d := DrawSplice(word, charset, e, at);
    var s := d.value;
    JoinLength(TransformChars(word, charset, e, at).value);
    var r := Render(s);
    InterleavedWiderPool(s.joined, r, [s.digit, s.symbol], Digits + Symbols);
    Drawn(r, d.next)
  }

  /** Neither spliced character can land at the very end: the digit
      position stops short of the end and the symbol position is drawn over
      the length before the digit went in.  So when the word is not empty,
      the output ends with the last character of the joined replacements. */
  lemma TransformWordEndsWithWord(word: string, charset: string, e: Entropy, at: Cursor)
    requires charset != [] && Available(e, at, 3 * |word|, |word| + 4) && word != []
    ensures var joined := Join(TransformChars(word, charset, e, at).value);
            var r := TransformWord(word, charset, e, at).value;
            |joined| > 0 && r[|r| - 1] == joined[|joined| - 1]
  {
    var d := DrawSplice(word, charset, e, at);
    var s := d.value;
    JoinLength(TransformChars(word, charset, e, at).value);
    assert TransformWord(word, charset, e, at).value == Render(s);
    var withDigit := Insert(s.joined, s.pos1, s.digit);
    InsertKeepsLast(s.joined, s.pos1, s.digit);
    InsertKeepsLast(withDigit, s.pos2, s.symbol);
  }

  /** An empty word has no positions to choose from: both picks select 0,
      so the output is the symbol followed by the digit. */
  lemma TransformEmptyWord(charset: string, e: Entropy, at: Cursor)
    requires charset != [] && Available(e, at, 0, 4)
    ensures var r := TransformWord([], charset, e, at).value;
            |r| == 2 && r[0] in Symbols && r[1] in Digits
  {
    var s := DrawSplice([], charset, e, at).value;
    assert TransformWord([], charset, e, at).value == Render(s);
    assert Render(s) == [s.symbol, s.digit];
  }
}
