/** Character classes of the password generator and the ASCII case functions
    the seed-word transformation uses. */
module Alphabet {

  /** The four character ranges a password may draw from, in the order the
      charset is assembled. */
  const Lowercase: string := "abcdefghijklmnopqrstuvwxyz"
  const Uppercase: string := "ABCDEFGHIJKLMNOPQRSTUVWXYZ"
  const Digits: string := "0123456789"
  /** Also the fixed set the seed-word transformation always inserts one symbol from. */
  const Symbols: string := "!@#$%^&*()_+-=[]{}|;:,.<>?"

  /** The leetspeak table, keyed by lower-case letter. */
  const Leet: map<char, char> := map[
    'a' := '@', 'e' := '3', 'i' := '1', 'o' := '0', 's' := '$',
    't' := '7', 'b' := '8', 'g' := '9', 'l' := '!']

  /** Whether the table has an entry for `c`, looked up case-insensitively. */
  predicate HasLeet(c: char) { ToLower(c) in Leet }

  /** The table image of `c`'s lower-case form. */
  function LeetOf(c: char): char
    requires HasLeet(c)
  {
    Leet[ToLower(c)]
  }

  predicate IsLower(c: char) { 'a' <= c <= 'z' }
  predicate IsUpper(c: char) { 'A' <= c <= 'Z' }

  /** The case-insensitive letter test `/[a-z]/i`, restricted to ASCII. */
  predicate IsLetter(c: char) { IsLower(c) || IsUpper(c) }

  function ToLower(c: char): (r: char)
    ensures IsLetter(c) ==> IsLower(r)
    ensures IsUpper(c) ==> r == Lowercase[c as int - 'A' as int]
    ensures !IsUpper(c) ==> r == c
  {
    if IsUpper(c) then (c as int + 32) as char else c
  }

  function ToUpper(c: char): (r: char)
    ensures IsLetter(c) ==> IsUpper(r)
    ensures IsLower(c) ==> r == Uppercase[c as int - 'a' as int]
    ensures !IsLower(c) ==> r == c
  {
    if IsLower(c) then (c as int - 32) as char else c
  }

  /** Changing the case of a letter keeps the letter. */
  lemma CaseRoundTrip(c: char)
    requires IsLetter(c)
    ensures ToLower(ToUpper(c)) == ToLower(c) && ToUpper(ToLower(c)) == ToUpper(c)
  {
  }

  /** Every key of the table is a lower-case letter, so only letters can be substituted. */
  lemma LeetKeysAreLetters(c: char)
    requires HasLeet(c)
    ensures IsLetter(c) && IsLower(ToLower(c))
  {
  }

  /** The table lookup ignores case: a letter and its upper-case form have
      the same entry, so for instance `A` is replaced by `@` just as `a` is. */
  lemma LeetIgnoresCase(c: char)
    requires IsLetter(c)
    ensures HasLeet(ToUpper(c)) <==> HasLeet(c)
    ensures HasLeet(c) ==> LeetOf(ToUpper(c)) == LeetOf(c)
    ensures HasLeet('A') && LeetOf('A') == '@'
  {
    CaseRoundTrip(c);
  }

  /** The ranges contain exactly the characters their names say. */
  lemma RangeMembers(c: char)
    ensures c in Lowercase <==> IsLower(c)
    ensures c in Uppercase <==> IsUpper(c)
    ensures c in Digits <==> '0' <= c <= '9'
  {
  }

  /** No symbol is a letter or a digit. */
  lemma SymbolsAreNotAlphanumeric(c: char)
    requires c in Symbols
    ensures c !in Lowercase && c !in Uppercase && c !in Digits
  {
    RangeMembers(c);
  }
}
