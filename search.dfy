/**
 * The search box of the dashboard: the coins whose name or symbol contains the
 * search term, ignoring the case of ASCII letters, kept in feed order.
 */
module Search {
  import opened Wrappers
  import opened Ascii
  import opened Market

  /** `s.includes(t)`: t occurs in s, found by trying each start position in turn. */
  function Contains(s: string, t: string): bool
    decreases |s|
  {
    |t| <= |s| && (s[..|t|] == t || Contains(s[1..], t))
  }

  /** t occurs in s starting at position i. */
  predicate OccursAt(s: string, t: string, i: nat)
  {
    i + |t| <= |s| && s[i..i + |t|] == t
  }

  /** `Contains` holds exactly when t occurs at some position of s. */
  lemma {:induction false} ContainsIff(s: string, t: string)
    ensures Contains(s, t) <==> exists i: nat :: OccursAt(s, t, i)
    decreases |s|
  {
    if |t| <= |s| && s[..|t|] == t {
      assert OccursAt(s, t, 0);
    } else if |t| <= |s| {
      ContainsIff(s[1..], t);
      if Contains(s[1..], t) {
        var i: nat :| OccursAt(s[1..], t, i);
        assert s[1..][i..i + |t|] == s[i + 1..i + 1 + |t|];
        assert OccursAt(s, t, i + 1);
      }
      if exists i: nat :: OccursAt(s, t, i) {
        var i: nat :| OccursAt(s, t, i);
        assert i != 0;
        assert s[1..][i - 1..i - 1 + |t|] == s[i..i + |t|];
        assert OccursAt(s[1..], t, i - 1);
      }
    }
  }

  /** Every string includes the empty string. */
  lemma ContainsEmpty(s: string)
    ensures Contains(s, "")
  {
  }

  /** The search predicate of the filter effect. */
  predicate MatchesSearch(coin: Coin, term: string)
  {
    Contains(Lower(coin.name), Lower(term)) || Contains(Lower(coin.symbol), Lower(term))
  }

  /** `coins.filter(coin => MatchesSearch(coin, term))`. */
  function FilterCoins(coins: seq<Coin>, term: string): (r: seq<Coin>)
    ensures |r| <= |coins|
    ensures forall c :: c in r ==> c in coins && MatchesSearch(c, term)
  {
    if |coins| == 0 then []
    else
      var rest := FilterCoins(coins[1..], term);
      if MatchesSearch(coins[0], term) then [coins[0]] + rest else rest
  }

  /**
   * The filter effect: when the market list is present the shown list becomes
   * the filtered list; otherwise the previously shown list stays.
   */
  function SearchEffect(marketData: Option<seq<Coin>>, term: string, shown: seq<Coin>): (r: seq<Coin>)
    ensures marketData.None? ==> r == shown
    ensures marketData.Some? ==> forall c :: c in r <==> c in marketData.value && MatchesSearch(c, term)
    ensures marketData.Some? ==> r == FilterCoins(marketData.value, term)
  {
    FilterMembership(if marketData.Some? then marketData.value else [], term);
    match marketData
    case None => shown
    case Some(coins) => FilterCoins(coins, term)
  }

  /** A coin is kept exactly when it is listed and matches the term. */
  lemma {:induction false} FilterMembership(coins: seq<Coin>, term: string)
    ensures forall c :: c in FilterCoins(coins, term) <==> c in coins && MatchesSearch(c, term)
  {
    if |coins| > 0 {
      FilterMembership(coins[1..], term);
      assert coins == [coins[0]] + coins[1..];
    }
  }

  /** Filtering keeps the feed order: it distributes over concatenation. */
  lemma {:induction false} FilterAppend(a: seq<Coin>, b: seq<Coin>, term: string)
    ensures FilterCoins(a + b, term) == FilterCoins(a, term) + FilterCoins(b, term)
  {
    if |a| > 0 {
      assert (a + b)[1..] == a[1..] + b;
      FilterAppend(a[1..], b, term);
    } else {
      assert a + b == b;
    }
  }

  /** An empty search term keeps every coin, in order. */
  lemma {:induction false} EmptyTermKeepsAll(coins: seq<Coin>)
    ensures FilterCoins(coins, "") == coins
  {
    if |coins| > 0 {
      ContainsEmpty(Lower(coins[0].name));
      EmptyTermKeepsAll(coins[1..]);
    }
  }

  /** Filtering the filtered list again changes nothing. */
  lemma {:induction false} FilterIdempotent(coins: seq<Coin>, term: string)
    ensures FilterCoins(FilterCoins(coins, term), term) == FilterCoins(coins, term)
  {
    if |coins| > 0 {
      FilterIdempotent(coins[1..], term);
      if MatchesSearch(coins[0], term) {
        var rest := FilterCoins(coins[1..], term);
        assert ([coins[0]] + rest)[0] == coins[0] && ([coins[0]] + rest)[1..] == rest;
      }
    }
  }

  /** The case of the search term does not matter. */
  lemma {:induction false} FilterIgnoresTermCase(coins: seq<Coin>, term: string)
    ensures FilterCoins(coins, Upper(term)) == FilterCoins(coins, term)
    ensures FilterCoins(coins, Lower(term)) == FilterCoins(coins, term)
  {
    LowerOfUpper(term);
    LowerIdempotent(term);
    if |coins| > 0 {
      FilterIgnoresTermCase(coins[1..], term);
    }
  }

  /** Nor does the case of a coin's name or symbol. */
  lemma CoinCaseIgnored(coin: Coin, term: string)
    ensures MatchesSearch(coin.(name := Upper(coin.name), symbol := Upper(coin.symbol)), term)
        <==> MatchesSearch(coin, term)
  {
    LowerOfUpper(coin.name);
    LowerOfUpper(coin.symbol);
  }
}
