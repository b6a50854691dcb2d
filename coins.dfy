/** The inserted-coins object (`InsertedCoins` in src/types/coin.ts): a plain
    JavaScript object from denomination to coin count. It is modelled as its
    list of entries, the list `Object.entries` walks, with one entry per key. */
module Coins {
  import opened Wrappers

  type InsertedCoins = seq<(int, int)>

  /** The starting value `{}`. */
  const NoCoins: InsertedCoins := []

  /** No denomination has two entries. */
  predicate DistinctKeys(coins: InsertedCoins) {
    forall i, j :: 0 <= i < j < |coins| ==> coins[i].0 != coins[j].0
  }

  predicate HasKey(coins: InsertedCoins, d: int) {
    exists i :: 0 <= i < |coins| && coins[i].0 == d
  }

  /** `coins[d]`: the count stored for `d`, if any. */
  function Get(coins: InsertedCoins, d: int): (r: Option<int>)
    ensures r.None? <==> !HasKey(coins, d)
    ensures r.Some? ==> (d, r.value) in coins
  {
    if coins == [] then None
    else if coins[0].0 == d then Some(coins[0].1)
    else
      var r := Get(coins[1..], d);
      assert HasKey(coins, d) ==> HasKey(coins[1..], d) by {
        if HasKey(coins, d) {
          var i :| 0 <= i < |coins| && coins[i].0 == d;
          assert coins[1..][i - 1] == coins[i];
        }
      }
      r
  }

  /** With one entry per denomination, `coins[d]` is the count of the entry
      stored for `d`. */
  lemma {:induction false} GetOfEntry(coins: InsertedCoins, d: int, c: int)
    requires DistinctKeys(coins) && (d, c) in coins
    ensures Get(coins, d) == Some(c)
  {
    if coins[0] != (d, c) {
      var rest := coins[1..];
      assert coins[0].0 != d by {
        var j :| 0 <= j < |coins| && coins[j] == (d, c);
        assert j != 0;
      }
      assert (d, c) in rest by {
        var j :| 0 <= j < |coins| && coins[j] == (d, c);
        assert rest[j - 1] == coins[j];
      }
      assert DistinctKeys(rest) by {
        assert forall i :: 0 <= i < |rest| ==> rest[i] == coins[i + 1];
      }
      GetOfEntry(rest, d, c);
    }
  }

  /** `coins[d] || 0`: a missing entry (or a zero) reads as no coins. */
  function CountOf(coins: InsertedCoins, d: int): int {
    Get(coins, d).GetOr(0)
  }

  /** `{ ...coins, [d]: count }`: the entry for `d` gets the new count, in
      place when it exists and appended otherwise. */
  function Put(coins: InsertedCoins, d: int, count: int): (r: InsertedCoins)
    ensures Get(r, d) == Some(count)
    ensures forall e :: e != d ==> Get(r, e) == Get(coins, e)
  {
    if coins == [] then [(d, count)]
    else if coins[0].0 == d then [(d, count)] + coins[1..]
    else
      var r := [coins[0]] + Put(coins[1..], d, count);
      assert r[1..] == Put(coins[1..], d, count);
      r
  }

  /** Every entry after the update is an old entry or the new one. */
  lemma {:induction false} PutEntries(coins: InsertedCoins, d: int, count: int)
    ensures forall i :: 0 <= i < |Put(coins, d, count)| ==>
      Put(coins, d, count)[i] in coins || Put(coins, d, count)[i] == (d, count)
  {
    if coins != [] && coins[0].0 != d {
      PutEntries(coins[1..], d, count);
      var r := Put(coins, d, count);
      assert forall i :: 1 <= i < |r| ==> r[i] == Put(coins[1..], d, count)[i - 1];
    }
  }

  /** The update never creates a second entry for a denomination. */
  lemma {:induction false} PutKeepsKeysDistinct(coins: InsertedCoins, d: int, count: int)
    requires DistinctKeys(coins)
    ensures DistinctKeys(Put(coins, d, count))
  {
    if coins != [] {
      var r := Put(coins, d, count);
      if coins[0].0 == d {
        assert forall i :: 1 <= i < |r| ==> r[i] == coins[i];
      } else {
        var rest := Put(coins[1..], d, count);
        PutKeepsKeysDistinct(coins[1..], d, count);
        assert forall i :: 1 <= i < |r| ==> r[i] == rest[i - 1];
        assert forall k :: 0 <= k < |coins[1..]| ==> coins[1..][k] == coins[k + 1];
        assert !HasKey(coins[1..], coins[0].0);
        assert !HasKey(rest, coins[0].0) by {
          assert Get(rest, coins[0].0) == Get(coins[1..], coins[0].0);
        }
        forall i, j | 0 <= i < j < |r| ensures r[i].0 != r[j].0 {
          if i == 0 {
            assert rest[j - 1].0 != coins[0].0;
          }
        }
      }
    }
  }

  /** No entry holds a negative count. */
  predicate NonNegative(coins: InsertedCoins) {
    forall i :: 0 <= i < |coins| ==> coins[i].1 >= 0
  }

  /** Every entry's denomination is one of `ds`. */
  predicate KeysWithin(coins: InsertedCoins, ds: seq<int>) {
    forall i :: 0 <= i < |coins| ==> coins[i].0 in ds
  }

  /** With no negative count stored, the count read back is not negative. */
  lemma CountNonNegative(coins: InsertedCoins, d: int)
    requires NonNegative(coins)
    ensures CountOf(coins, d) >= 0
  {
    if Get(coins, d).Some? {
      var j :| 0 <= j < |coins| && coins[j] == (d, Get(coins, d).value);
    }
  }


  /** Storing a non-negative count keeps every count non-negative, and
      storing it under an allowed denomination keeps the keys allowed. */
  lemma PutKeepsInvariants(coins: InsertedCoins, d: int, count: int, ds: seq<int>)
    requires NonNegative(coins) && count >= 0
    ensures NonNegative(Put(coins, d, count))
    ensures KeysWithin(coins, ds) && d in ds ==> KeysWithin(Put(coins, d, count), ds)
  {
    PutEntries(coins, d, count);
    var r := Put(coins, d, count);
    forall i | 0 <= i < |r| ensures r[i].1 >= 0 && (KeysWithin(coins, ds) && d in ds ==> r[i].0 in ds) {
      if r[i] != (d, count) {
        var j :| 0 <= j < |coins| && coins[j] == r[i];
      }
    }
  }
}
