/** The random source, abstracted as two oracle streams.  Every call of
    `Math.random()` that is compared with a threshold draws the next coin;
    every `Math.floor(Math.random() * n)` draws the next pick, read as an
    index below `n`.  Probabilities are not modelled: the streams may hold
    any values, so the model covers every outcome the generator can reach. */
module Oracle {

  datatype Entropy = Entropy(coins: seq<bool>, picks: seq<nat>)

  /** How many coins and picks have been drawn so far. */
  datatype Cursor = Cursor(coin: nat, pick: nat)

  /** A value computed from the random source, with the cursor after its draws. */
  datatype Drawn<T> = Drawn(value: T, next: Cursor)

  /** At least `coins` more coins and `picks` more picks remain after `at`. */
  predicate Available(e: Entropy, at: Cursor, coins: nat, picks: nat)
  {
    at.coin + coins <= |e.coins| && at.pick + picks <= |e.picks|
  }

  /** The index a pick `u` selects among `n` choices.  Like
      `Math.floor(Math.random() * n)` it is below `n` when `n > 0` and 0 when
      `n == 0`, and every index below `n` is selected by some pick. */
  function Below(u: nat, n: nat): (k: nat)
    ensures n > 0 ==> k < n
    ensures n == 0 ==> k == 0
    ensures u < n ==> k == u
  {
    if n == 0 then 0 else u % n
  }
}
