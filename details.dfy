/**
 * Record building (`get_coin_details`): one detail record per coin of the list
 * that both price samples quote, in the order of the list.
 */
module CoinDetails {
  import opened Wrappers
  import opened Prices
  import opened Metrics

  /** One entry of `coin_details`. */
  datatype CoinDetail = CoinDetail(
    coin: string,
    newPrice: real,
    oldPrice: real,
    percentageChange: real,
    profitPer100Invested: real,
    support: real,
    resistance: real,
    fibonacciLevels: seq<real>,
    volume: real)

  /** The exception that escapes `get_coin_details`: the profit of a coin whose new price is 0. */
  datatype DetailError = ZeroDivision(coin: string)

  predicate IsLower(c: char) { 'a' <= c <= 'z' }
  predicate IsUpper(c: char) { 'A' <= c <= 'Z' }

  function ToUpper(c: char): char
  {
    if IsLower(c) then (c as int - 32) as char else c
  }

  function ToLower(c: char): char
  {
    if IsUpper(c) then (c as int + 32) as char else c
  }

  /** `c` and `d` are the same letter up to ASCII case, or the same character. */
  predicate SameIgnoringCase(c: char, d: char)
  {
    ToLower(c) == ToLower(d)
  }

  /**
   * `str.capitalize` on ASCII: the first character upper-cased, the rest
   * lower-cased.  Other characters are left unchanged.
   */
  function Capitalize(s: string): (r: string)
    ensures |r| == |s|
    ensures |r| > 0 ==> !IsLower(r[0])
    ensures forall i :: 0 < i < |r| ==> !IsUpper(r[i])
    ensures forall i :: 0 <= i < |r| ==> SameIgnoringCase(r[i], s[i])
  {
    if s == [] then []
    else [ToUpper(s[0])] + seq(|s| - 1, i requires 0 <= i < |s| - 1 => ToLower(s[i + 1]))
  }

  /** Capitalizing twice is capitalizing once. */
  lemma CapitalizeIdempotent(s: string)
    ensures Capitalize(Capitalize(s)) == Capitalize(s)
  {
    var r := Capitalize(s);
    var rr := Capitalize(r);
    forall i | 0 <= i < |s| ensures rr[i] == r[i] {
      if i == 0 {
        assert r[0] == ToUpper(s[0]);
      } else {
        assert r[i] == ToLower(s[i]);
      }
    }
  }

  /** `new_prices[coin].get('usd_24h_vol', 0)`. */
  function VolumeOf(q: Quote): (v: real)
    ensures q.usd24hVol.None? ==> v == 0.0
    ensures q.usd24hVol.Some? ==> v == q.usd24hVol.value
  {
    match q.usd24hVol
    case Some(v) => v
    case None => 0.0
  }

  /** The record `get_coin_details` appends for `coin`. */
  function DetailOf(coin: string, newQuote: Quote, oldQuote: Quote): (d: CoinDetail)
    requires newQuote.usd != 0.0
    ensures |d.coin| == |coin| && d.newPrice == newQuote.usd && d.oldPrice == oldQuote.usd
    ensures |d.fibonacciLevels| == 3
    ensures newQuote.usd > 0.0 ==> 0.0 < d.support < d.newPrice < d.resistance
    ensures d.percentageChange == 0.0 <==> oldQuote.usd == 0.0 || newQuote.usd == oldQuote.usd
  {
    CoinDetail(
      Capitalize(coin),
      newQuote.usd,
      oldQuote.usd,
      PercentageChange(oldQuote.usd, newQuote.usd),
      ProfitPer100(oldQuote.usd, newQuote.usd),
      Support(newQuote.usd),
      Resistance(newQuote.usd),
      FibonacciLevels(newQuote.usd),
      VolumeOf(newQuote))
  }

  /** The coins of `coins` that are keys of both samples, in list order. */
  function Matched(coins: seq<string>, newPrices: PriceMap, oldPrices: PriceMap): (m: seq<string>)
    ensures |m| <= |coins|
    ensures forall c :: c in m ==> c in newPrices && c in oldPrices
  {
    if coins == [] then []
    else
      var c := coins[|coins| - 1];
      Matched(coins[..|coins| - 1], newPrices, oldPrices)
        + (if c in newPrices && c in oldPrices then [c] else [])
  }

  /**
   * What `get_coin_details` returns for the coins seen so far: the records in
   * order, or the ZeroDivisionError of the first matched coin whose new price is 0.
   */
  function Details(coins: seq<string>, newPrices: PriceMap, oldPrices: PriceMap): (r: Result<seq<CoinDetail>, DetailError>)
    ensures r.Ok? ==> |r.value| <= |coins|
    ensures r.Err? ==> r.error.coin in coins && r.error.coin in newPrices && newPrices[r.error.coin].usd == 0.0
  {
    if coins == [] then Ok([])
    else
      match Details(coins[..|coins| - 1], newPrices, oldPrices)
      case Err(e) => Err(e)
      case Ok(ds) =>
        var c := coins[|coins| - 1];
        if c in newPrices && c in oldPrices then
          if newPrices[c].usd == 0.0 then Err(ZeroDivision(c))
          else Ok(ds + [DetailOf(c, newPrices[c], oldPrices[c])])
        else Ok(ds)
  }

  /**
   * `get_coin_details`: walks the coin list, appending one record per coin
   * quoted by both samples; the profit division raises for a zero new price.
   */
  method GetCoinDetails(coinList: seq<string>, newPrices: PriceMap, oldPrices: PriceMap)
    returns (r: Result<seq<CoinDetail>, DetailError>)
    ensures r == Details(coinList, newPrices, oldPrices)
  {
    var coinDetails := [];
    for i := 0 to |coinList|
      invariant Details(coinList[..i], newPrices, oldPrices) == Ok(coinDetails)
    {
      var coin := coinList[i];
      assert coinList[..i + 1][..i] == coinList[..i];
      if coin in newPrices && coin in oldPrices {
        var newPrice := newPrices[coin].usd;
        var oldPrice := oldPrices[coin].usd;
        var percentageChange := PercentageChange(oldPrice, newPrice);
        if newPrice == 0.0 {
          DetailsErrorPersists(coinList, i + 1, newPrices, oldPrices);
          assert coinList[..|coinList|] == coinList;
          return Err(ZeroDivision(coin));
        }
        var profitPer100Invested := ProfitPer100(oldPrice, newPrice);
        var support := Support(newPrice);
        var resistance := Resistance(newPrice);
        var fibonacciLevels := FibonacciLevels(newPrice);
        var volume := VolumeOf(newPrices[coin]);
        coinDetails := coinDetails + [CoinDetail(Capitalize(coin), newPrice, oldPrice, percentageChange,
                                                 profitPer100Invested, support, resistance, fibonacciLevels, volume)];
      }
    }
    assert coinList[..|coinList|] == coinList;
    r := Ok(coinDetails);
  }

  /** Once a prefix of the list raises, the whole list raises the same error. */
  lemma {:induction false} DetailsErrorPersists(coins: seq<string>, i: nat, newPrices: PriceMap, oldPrices: PriceMap)
    requires i <= |coins| && Details(coins[..i], newPrices, oldPrices).Err?
    ensures Details(coins, newPrices, oldPrices) == Details(coins[..i], newPrices, oldPrices)
    decreases |coins| - i
  {
    if i < |coins| {
      assert coins[..i + 1][..i] == coins[..i];
      DetailsErrorPersists(coins, i + 1, newPrices, oldPrices);
    } else {
      assert coins[..i] == coins;
    }
  }

  /** Record building succeeds exactly when no matched coin has a zero new price. */
  lemma {:induction false} DetailsSucceed(coins: seq<string>, newPrices: PriceMap, oldPrices: PriceMap)
    ensures Details(coins, newPrices, oldPrices).Ok? <==>
              forall c :: c in Matched(coins, newPrices, oldPrices) ==> newPrices[c].usd != 0.0
  {
    if coins != [] {
      var init, c := coins[..|coins| - 1], coins[|coins| - 1];
      DetailsSucceed(init, newPrices, oldPrices);
      assert coins == init + [c];
    }
  }

  /**
   * On success there is exactly one record per matched coin, in list order,
   * built from that coin's two quotes.
   */
  lemma {:induction false} DetailsRecords(coins: seq<string>, newPrices: PriceMap, oldPrices: PriceMap)
    requires Details(coins, newPrices, oldPrices).Ok?
    ensures var ds, m := Details(coins, newPrices, oldPrices).value, Matched(coins, newPrices, oldPrices);
      |ds| == |m| <= |coins| &&
      forall k :: 0 <= k < |ds| ==>
        m[k] in newPrices && m[k] in oldPrices && newPrices[m[k]].usd != 0.0 &&
        ds[k] == DetailOf(m[k], newPrices[m[k]], oldPrices[m[k]])
  {
    if coins != [] {
      var init, c := coins[..|coins| - 1], coins[|coins| - 1];
      DetailsRecords(init, newPrices, oldPrices);
    }
  }

  /** `m[k]` is the first coin of `m` whose new price is 0. */
  predicate FirstZeroAt(m: seq<string>, newPrices: PriceMap, k: nat)
    requires forall c :: c in m ==> c in newPrices
  {
    k < |m| && newPrices[m[k]].usd == 0.0 && forall j :: 0 <= j < k ==> newPrices[m[j]].usd != 0.0
  }

  /** On failure the error names the first matched coin, in list order, whose new price is 0. */
  lemma {:induction false} DetailsFailure(coins: seq<string>, newPrices: PriceMap, oldPrices: PriceMap)
    requires Details(coins, newPrices, oldPrices).Err?
    ensures exists k: nat :: FirstZeroAt(Matched(coins, newPrices, oldPrices), newPrices, k) &&
                             Matched(coins, newPrices, oldPrices)[k] == Details(coins, newPrices, oldPrices).error.coin
  {
    var init, c := coins[..|coins| - 1], coins[|coins| - 1];
    var m0, m := Matched(init, newPrices, oldPrices), Matched(coins, newPrices, oldPrices);
    assert m == m0 + (if c in newPrices && c in oldPrices then [c] else []);
    if Details(init, newPrices, oldPrices).Err? {
      DetailsFailure(init, newPrices, oldPrices);
      var k: nat :| FirstZeroAt(m0, newPrices, k) && m0[k] == Details(init, newPrices, oldPrices).error.coin;
      assert Details(coins, newPrices, oldPrices) == Details(init, newPrices, oldPrices);
      assert m[..|m0|] == m0 && m[k] == m0[k];
      assert FirstZeroAt(m, newPrices, k);
      assert m[k] == Details(coins, newPrices, oldPrices).error.coin;
    } else {
      DetailsSucceed(init, newPrices, oldPrices);
      assert c in newPrices && c in oldPrices && newPrices[c].usd == 0.0;
      assert m == m0 + [c];
      forall j | 0 <= j < |m0| ensures newPrices[m[j]].usd != 0.0 {
        assert m[j] == m0[j] && m0[j] in m0;
      }
      var k: nat := |m0|;
      assert m[k] == c == Details(coins, newPrices, oldPrices).error.coin;
      assert FirstZeroAt(m, newPrices, k);
    }
  }

  /** A coin is matched exactly when it is in the list and a key of both samples. */
  lemma {:induction false} MatchedMembers(coins: seq<string>, newPrices: PriceMap, oldPrices: PriceMap)
    ensures forall c :: c in Matched(coins, newPrices, oldPrices) <==> c in coins && c in newPrices && c in oldPrices
  {
    if coins != [] {
      MatchedMembers(coins[..|coins| - 1], newPrices, oldPrices);
      assert coins == coins[..|coins| - 1] + [coins[|coins| - 1]];
    }
  }

  /** Filtering distributes over concatenation: the matched coins keep the list order. */
  lemma {:induction false} MatchedAppend(a: seq<string>, b: seq<string>, newPrices: PriceMap, oldPrices: PriceMap)
    ensures Matched(a + b, newPrices, oldPrices) == Matched(a, newPrices, oldPrices) + Matched(b, newPrices, oldPrices)
  {
    if b == [] {
      assert a + b == a;
    } else {
      var init, c := b[..|b| - 1], b[|b| - 1];
      var ab := a + b;
      var tail := if c in newPrices && c in oldPrices then [c] else [];
      MatchedAppend(a, init, newPrices, oldPrices);
      assert ab[..|ab| - 1] == a + init && ab[|ab| - 1] == c;
      calc {
        Matched(ab, newPrices, oldPrices);
        Matched(a + init, newPrices, oldPrices) + tail;
        (Matched(a, newPrices, oldPrices) + Matched(init, newPrices, oldPrices)) + tail;
        Matched(a, newPrices, oldPrices) + (Matched(init, newPrices, oldPrices) + tail);
        Matched(a, newPrices, oldPrices) + Matched(b, newPrices, oldPrices);
      }
    }
  }

  /**
   * Only the coin quoted by both samples yields a record: with bitcoin in both
   * and ethereum only in the new one, the single record is bitcoin's, +10%.
   */
  lemma DetailsExample()
    ensures var oldPrices := map["bitcoin" := Quote(100.0, None)];
      var newPrices := map["bitcoin" := Quote(110.0, None), "ethereum" := Quote(50.0, None)];
      var r := Details(["bitcoin", "ethereum"], newPrices, oldPrices);
      r.Ok? && |r.value| == 1 && r.value[0].coin == "Bitcoin" && r.value[0].percentageChange == 10.0 &&
      r.value[0].volume == 0.0
  {
    var oldPrices := map["bitcoin" := Quote(100.0, None)];
    var newPrices := map["bitcoin" := Quote(110.0, None), "ethereum" := Quote(50.0, None)];
    var coins := ["bitcoin", "ethereum"];
    var one := coins[..1];
    assert one[..|one| - 1] == [] && one[|one| - 1] == "bitcoin";
    assert Details(one[..|one| - 1], newPrices, oldPrices) == Ok([]);
    assert "bitcoin" in newPrices && "bitcoin" in oldPrices && newPrices["bitcoin"].usd == 110.0;
    assert one != [];
    var ds: seq<CoinDetail> := [];
    assert ds + [DetailOf("bitcoin", newPrices["bitcoin"], oldPrices["bitcoin"])] == [DetailOf("bitcoin", newPrices["bitcoin"], oldPrices["bitcoin"])];
    assert Details(one, newPrices, oldPrices) == Ok(ds + [DetailOf("bitcoin", newPrices["bitcoin"], oldPrices["bitcoin"])]);
    assert coins[..|coins| - 1] == one;
    assert "ethereum" !in oldPrices;
  }
}
