/** The coin picker (src/components/CoinSelector/CoinSelector.tsx): one row
    per offered denomination with minus, a number input and plus. It holds no
    state of its own; each handler reads the current inserted coins and
    either calls `onCoinChange(denomination, count)` or does nothing, which
    is modelled as an optional `CoinChange`. */
module CoinSelector {
  import opened Wrappers
  import opened Coins

  /** The denominations offered, in display order. */
  const Denominations: seq<int> := [1, 2, 5, 10]

  /** The arguments of one `onCoinChange` call. */
  datatype CoinChange = CoinChange(denomination: int, count: int)

  /** `handleCoinIncrease`: one more coin than the current count, a missing
      entry counting as none. */
  function HandleIncrease(coins: InsertedCoins, d: int): (r: CoinChange)
    ensures r.denomination == d
    ensures r.count > CountOf(coins, d) && r.count - 1 == CountOf(coins, d)
  {
    CoinChange(d, CountOf(coins, d) + 1)
  }

  /** `handleCoinDecrease`: one coin fewer, and only while there is one. */
  function HandleDecrease(coins: InsertedCoins, d: int): (r: Option<CoinChange>)
    ensures r.Some? <==> CountOf(coins, d) > 0
    ensures r.Some? ==> r.value.denomination == d && r.value.count >= 0
                        && r.value.count + 1 == CountOf(coins, d)
  {
    var current := CountOf(coins, d);
    if current > 0 then Some(CoinChange(d, current - 1)) else None
  }

  /** `handleCoinInput`: the typed value, when it parses to a whole number
      that is not negative; `None` stands for a value `parseInt` rejects. */
  function HandleInput(d: int, parsed: Option<int>): (r: Option<CoinChange>)
    ensures r.Some? <==> parsed.Some? && parsed.value >= 0
    ensures r.Some? ==> r.value == CoinChange(d, parsed.value)
  {
    match parsed
    case Some(n) => if n >= 0 then Some(CoinChange(d, n)) else None
    case None => None
  }

  /** `disabled={!insertedCoins[d]}`: no entry, or an entry of zero. */
  predicate DecreaseDisabled(coins: InsertedCoins, d: int) {
    Get(coins, d) == None || Get(coins, d) == Some(0)
  }

  /** The value shown in the input, `insertedCoins[d] || 0`. */
  function DisplayedCount(coins: InsertedCoins, d: int): int {
    CountOf(coins, d)
  }

  /** The row total, `(insertedCoins[d] || 0) * d`. */
  function CoinTotal(coins: InsertedCoins, d: int): (t: int)
    ensures t == CountOf(coins, d) * d
    ensures !HasKey(coins, d) ==> t == 0
  {
    DisplayedCount(coins, d) * d
  }

  /** A stored entry's row shows its count times its denomination. */
  lemma CoinTotalOfEntry(coins: InsertedCoins, d: int, c: int)
    requires DistinctKeys(coins) && (d, c) in coins
    ensures CoinTotal(coins, d) == c * d
  {
    GetOfEntry(coins, d, c);
  }

  /** What the parent does with a change: `{ ...prev, [d]: count }`. */
  function Apply(coins: InsertedCoins, change: CoinChange): InsertedCoins {
    Put(coins, change.denomination, change.count)
  }

  // ---------------------------------------------------------------------------
  // Properties
  // ---------------------------------------------------------------------------

  /** Exactly the four denominations 1, 2, 5 and 10 are offered, each once. */
  lemma OfferedDenominations()
    ensures forall d :: d in Denominations <==> d == 1 || d == 2 || d == 5 || d == 10
    ensures forall i, j :: 0 <= i < j < |Denominations| ==> Denominations[i] < Denominations[j]
  {
  }

  /** Applying an increase adds one coin of that denomination and leaves
      every other denomination's count as it was. */
  lemma IncreaseAddsOne(coins: InsertedCoins, d: int)
    ensures CountOf(Apply(coins, HandleIncrease(coins, d)), d) == CountOf(coins, d) + 1
    ensures forall e :: e != d ==> Get(Apply(coins, HandleIncrease(coins, d)), e) == Get(coins, e)
  {
  }

  /** On counts that are never negative, the minus button is disabled exactly
      when pressing it would do nothing. */
  lemma DecreaseDisabledExactlyWhenIdle(coins: InsertedCoins, d: int)
    requires NonNegative(coins)
    ensures DecreaseDisabled(coins, d) <==> HandleDecrease(coins, d).None?
  {
    if Get(coins, d).Some? {
      var i :| 0 <= i < |coins| && coins[i] == (d, Get(coins, d).value);
    }
  }

  /** Whatever the user does, counts stay non-negative and only offered
      denominations are ever stored. */
  lemma HandlersKeepInvariants(coins: InsertedCoins, i: int, parsed: Option<int>)
    requires NonNegative(coins) && KeysWithin(coins, Denominations)
    requires 0 <= i < |Denominations|
    ensures var d := Denominations[i];
      var inc := Apply(coins, HandleIncrease(coins, d));
      && NonNegative(inc) && KeysWithin(inc, Denominations)
      && (HandleDecrease(coins, d).Some? ==>
            var dec := Apply(coins, HandleDecrease(coins, d).value);
            NonNegative(dec) && KeysWithin(dec, Denominations))
      && (HandleInput(d, parsed).Some? ==>
            var typed := Apply(coins, HandleInput(d, parsed).value);
            NonNegative(typed) && KeysWithin(typed, Denominations))
  {
    var d := Denominations[i];
    assert d in Denominations;
    CountNonNegative(coins, d);
    ApplyKeepsInvariants(coins, HandleIncrease(coins, d));
    if HandleDecrease(coins, d).Some? {
      ApplyKeepsInvariants(coins, HandleDecrease(coins, d).value);
    }
    if HandleInput(d, parsed).Some? {
      ApplyKeepsInvariants(coins, HandleInput(d, parsed).value);
    }
  }

  /** Storing a non-negative count for an offered denomination keeps both
      invariants. */
  lemma ApplyKeepsInvariants(coins: InsertedCoins, change: CoinChange)
    requires NonNegative(coins) && KeysWithin(coins, Denominations)
    requires change.denomination in Denominations && change.count >= 0
    ensures NonNegative(Apply(coins, change)) && KeysWithin(Apply(coins, change), Denominations)
  {
    PutKeepsInvariants(coins, change.denomination, change.count, Denominations);
  }

  /** Typing a rejected or negative value changes nothing; typing an
      accepted one stores exactly that count. */
  lemma InputStoresTypedCount(coins: InsertedCoins, d: int, parsed: Option<int>)
    ensures HandleInput(d, parsed).None? ==> parsed.None? || parsed.value < 0
    ensures HandleInput(d, parsed).Some? ==>
      DisplayedCount(Apply(coins, HandleInput(d, parsed).value), d) == parsed.value
  {
  }
}
