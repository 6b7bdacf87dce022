/** Password generation (`generatePassword`): assemble the charset from the
    selected character classes, then either fill the password with random
    charset characters or transform the seed word and cut or pad it to the
    requested length. */
module PasswordGenerator {
  import opened Alphabet
  import opened Oracle
  import opened Splicing
  import opened WordTransformer

  /** The options the user selects. */
  datatype Config = Config(length: nat, uppercase: bool, lowercase: bool, numbers: bool, symbols: bool)

  /** The one way generation fails: no character class is selected. */
  datatype GenerateError = NoCharacterType

  datatype Result<T> = Success(value: T) | Failure(error: GenerateError)

  /** The character ranges in the order the charset is assembled, and which
      of them a configuration enables. */
  const Ranges: seq<string> := [Lowercase, Uppercase, Digits, Symbols]

  function Enabled(cfg: Config): (flags: seq<bool>)
    ensures |flags| == |Ranges|
  {
    [cfg.lowercase, cfg.uppercase, cfg.numbers, cfg.symbols]
  }

  /** The enabled ranges, concatenated in order. */
  function ConcatEnabled(ranges: seq<string>, flags: seq<bool>): string
    requires |ranges| == |flags|
  {
    if ranges == [] then []
    else (if flags[0] then ranges[0] else []) + ConcatEnabled(ranges[1..], flags[1..])
  }

  function Charset(cfg: Config): string
  {
    ConcatEnabled(Ranges, Enabled(cfg))
  }

  lemma {:induction false} ConcatEnabledEmpty(ranges: seq<string>, flags: seq<bool>)
    requires |ranges| == |flags|
    ensures ConcatEnabled(ranges, flags) == [] <==> forall i :: 0 <= i < |flags| && flags[i] ==> ranges[i] == []
  {
    if ranges != [] {
      ConcatEnabledEmpty(ranges[1..], flags[1..]);
      assert forall i :: 1 <= i < |flags| ==> flags[1..][i - 1] == flags[i] && ranges[1..][i - 1] == ranges[i];
    }
  }

  lemma {:induction false} ConcatEnabledMembers(ranges: seq<string>, flags: seq<bool>, x: char)
    requires |ranges| == |flags|
    ensures x in ConcatEnabled(ranges, flags) <==> exists i :: 0 <= i < |flags| && flags[i] && x in ranges[i]
  {
    if ranges != [] {
      ConcatEnabledMembers(ranges[1..], flags[1..], x);
      if x in ConcatEnabled(ranges[1..], flags[1..]) {
        var i :| 0 <= i < |flags[1..]| && flags[1..][i] && x in ranges[1..][i];
        assert flags[i + 1] && x in ranges[i + 1];
      }
      if exists i :: 0 <= i < |flags| && flags[i] && x in ranges[i] {
        var i :| 0 <= i < |flags| && flags[i] && x in ranges[i];
        if i > 0 {
          assert flags[1..][i - 1] && x in ranges[1..][i - 1];
        }
      }
    }
  }

  lemma ConcatFour(a: string, b: string, c: string, d: string, f: seq<bool>)
    requires |f| == 4
    ensures ConcatEnabled([a, b, c, d], f) ==
      (if f[0] then a else []) + (if f[1] then b else []) + (if f[2] then c else []) + (if f[3] then d else [])
  {
    var rs := [a, b, c, d];
    assert rs[1..] == [b, c, d] && [b, c, d][1..] == [c, d] && [c, d][1..] == [d] && [d][1..] == [];
    assert f[1..][1..] == f[2..] && f[2..][1..] == f[3..] && f[3..][1..] == [];
    var x3 := ConcatEnabled([d], f[3..]);
    assert x3 == (if f[3] then d else []) + ConcatEnabled([], []);
    var x2 := ConcatEnabled([c, d], f[2..]);
    assert x2 == (if f[2] then c else []) + x3;
    var x1 := ConcatEnabled([b, c, d], f[1..]);
    assert x1 == (if f[1] then b else []) + x2;
    assert ConcatEnabled(rs, f) == (if f[0] then a else []) + x1;
  }

  /** The charset is the four ranges, each present exactly when its class is selected, in order. */
  lemma CharsetInOrder(cfg: Config)
    ensures Charset(cfg) ==
      (if cfg.lowercase then Lowercase else []) + (if cfg.uppercase then Uppercase else []) +
      (if cfg.numbers then Digits else []) + (if cfg.symbols then Symbols else [])
  {
    ConcatFour(Lowercase, Uppercase, Digits, Symbols, Enabled(cfg));
  }

  /** The charset is empty exactly when no class is selected. */
  lemma CharsetEmptyIff(cfg: Config)
    ensures Charset(cfg) == [] <==> !cfg.lowercase && !cfg.uppercase && !cfg.numbers && !cfg.symbols
  {
    ConcatEnabledEmpty(Ranges, Enabled(cfg));
    assert |Ranges[0]| == 26 && |Ranges[1]| == 26 && |Ranges[2]| == 10 && |Ranges[3]| == 26;
  }

  /** A character is in the charset exactly when its class is selected. */
  lemma CharsetMembers(cfg: Config, x: char)
    ensures x in Charset(cfg) <==>
      || (cfg.lowercase && IsLower(x))
      || (cfg.uppercase && IsUpper(x))
      || (cfg.numbers && '0' <= x <= '9')
      || (cfg.symbols && x in Symbols)
  {
    ConcatEnabledMembers(Ranges, Enabled(cfg), x);
    RangeMembers(x);
    var f := Enabled(cfg);
    if x in Charset(cfg) {
      var i :| 0 <= i < |f| && f[i] && x in Ranges[i];
      assert i == 0 || i == 1 || i == 2 || i == 3;
    } else {
      assert !(f[0] && x in Ranges[0]);
      assert !(f[1] && x in Ranges[1]);
      assert !(f[2] && x in Ranges[2]);
      assert !(f[3] && x in Ranges[3]);
    }
  }

  /** The guaranteed symbol comes from the fixed symbol set whatever the
      flags say: with symbols deselected, the transformed seed word still
      holds a character that is not in the charset. */
  lemma SymbolDespiteFlag(cfg: Config, word: string, e: Entropy)
    requires !cfg.symbols && Charset(cfg) != []
    requires Available(e, Cursor(0, 0), 3 * |word|, |word| + 4)
    ensures var t := TransformWord(word, Charset(cfg), e, Cursor(0, 0)).value;
            exists i :: 0 <= i < |t| && t[i] in Symbols && t[i] !in Charset(cfg)
  {
    var t := TransformWord(word, Charset(cfg), e, Cursor(0, 0)).value;
    var i :| 0 <= i < |t| && t[i] in Symbols;
    SymbolsAreNotAlphanumeric(t[i]);
    RangeMembers(t[i]);
    CharsetMembers(cfg, t[i]);
  }

  /** The charset assembly at the start of `generatePassword`. */
  method AssembleCharset(cfg: Config) returns (charset: string)
    ensures charset == Charset(cfg)
  {
    ghost var lower := if cfg.lowercase then Lowercase else [];
    ghost var upper := if cfg.uppercase then Uppercase else [];
    ghost var numbers := if cfg.numbers then Digits else [];
    ghost var symbols := if cfg.symbols then Symbols else [];
    charset := "";
    if cfg.lowercase { charset := charset + Lowercase; }
    assert charset == lower;
    if cfg.uppercase { charset := charset + Uppercase; }
    assert charset == lower + upper;
    if cfg.numbers { charset := charset + Digits; }
    assert charset == lower + upper + numbers;
    if cfg.symbols { charset := charset + Symbols; }
    assert charset == lower + upper + numbers + symbols;
    CharsetInOrder(cfg);
  }

  /** Enough random draws for any run: up to three coins per seed-word
      character; one pick per seed-word character, four to finish the
      transformation and two per padding step, or one per character when
      there is no seed word. */
  predicate EnoughDraws(cfg: Config, word: string, e: Entropy)
  {
    Available(e, Cursor(0, 0), 3 * |word|, |word| + 4 + 2 * cfg.length)
  }

  /** `generatePassword` without its final state update: the new password,
      or the error when no class is selected. */
  method Generate(cfg: Config, word: string, e: Entropy) returns (r: Result<string>)
    requires EnoughDraws(cfg, word, e)
    ensures r.Failure? <==> Charset(cfg) == []
    ensures r.Success? ==> |r.value| == cfg.length
    ensures r.Success? && word == [] ==> forall i :: 0 <= i < |r.value| ==> r.value[i] in Charset(cfg)
    ensures r.Success? && word != [] ==>
      var t := TransformWord(word, Charset(cfg), e, Cursor(0, 0)).value;
      && (|t| > cfg.length ==> r.value == t[..cfg.length])
      && (|t| <= cfg.length ==> Interleaved(t, r.value, Charset(cfg)))
  {
    var charset := AssembleCharset(cfg);
    if charset == [] {
      return Failure(NoCharacterType);
    }
    var password := "";
    if word != [] {
      var t := TransformWord(word, charset, e, Cursor(0, 0));
      JoinLength(TransformChars(word, charset, e, Cursor(0, 0)).value);
      if |t.value| > cfg.length {
        password := t.value[..cfg.length];
      } else {
        // Insert random charset characters at random positions until the
        // transformed word has the requested length.
        password := t.value;
        var at := t.next.pick;
        InterleavedRefl(t.value, charset);
        while |password| < cfg.length
          invariant |t.value| <= |password| <= cfg.length
          invariant at == t.next.pick + 2 * (|password| - |t.value|)
          invariant at + 2 * (cfg.length - |password|) <= |e.picks|
          invariant Interleaved(t.value, password, charset)
          decreases cfg.length - |password|
        {
          var randomChar := charset[Below(e.picks[at], |charset|)];
          var randomPosition := Below(e.picks[at + 1], |password| + 1);
          InsertInterleaved(t.value, password, charset, randomPosition, randomChar);
          password := Insert(password, randomPosition, randomChar);
          at := at + 2;
        }
      }
    } else {
      for i := 0 to cfg.length
        invariant |password| == i
        invariant forall k :: 0 <= k < i ==> password[k] in charset
      {
        password := password + [charset[Below(e.picks[i], |charset|)]];
      }
    }
    return Success(password);
  }

  /** The generator's displayed-password state, which `setPassword` overwrites. */
  class Generator {
    var password: string

    constructor ()
      ensures password == ""
    {
      password := "";
    }

    /** `generatePassword`: on success the new password replaces the old one
        and has the properties `Generate` promises; on the error the old one stays. */
    method GeneratePassword(cfg: Config, word: string, e: Entropy) returns (r: Result<string>)
      requires EnoughDraws(cfg, word, e)
      modifies this
      ensures r.Failure? <==> !cfg.lowercase && !cfg.uppercase && !cfg.numbers && !cfg.symbols
      ensures r.Failure? <==> Charset(cfg) == []
      ensures r.Failure? ==> password == old(password)
      ensures r.Success? ==> password == r.value && |password| == cfg.length
      ensures r.Success? && word == [] ==> forall i :: 0 <= i < |password| ==> password[i] in Charset(cfg)
      ensures r.Success? && word != [] ==>
        var t := TransformWord(word, Charset(cfg), e, Cursor(0, 0)).value;
        && (|t| > cfg.length ==> password == t[..cfg.length])
        && (|t| <= cfg.length ==> Interleaved(t, password, Charset(cfg)))
    {
      CharsetEmptyIff(cfg);
      r := Generate(cfg, word, e);
      if r.Success? {
        password := r.value;
      }
    }
  }
}
