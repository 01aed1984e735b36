/** The price badge of the event detail screen: the cheapest price among the ticket types
    that have sales, or among all types, and a struck-through "original price". */
module PriceBadge {
  import opened Wrappers

  /** One own property of `event.ticketPrices`, in `Object.keys` order. */
  datatype PriceEntry = PriceEntry(key: string, price: nat)

  /** 'Miễn phí' (free), or `${amount} VNĐ`. */
  datatype Display = Free | Amount(value: nat)

  datatype PriceDisplay = PriceDisplay(display: Display, originalPrice: Option<nat>)

  /** `event.ticketsSold?.[key] > 0`. */
  predicate IsSold(sold: Option<map<string, int>>, key: string) {
    sold.Some? && key in sold.value && sold.value[key] > 0
  }

  /** `ticketKeys.filter(key => event.ticketsSold?.[key] > 0)`, kept with their prices. */
  function SoldEntries(entries: seq<PriceEntry>, sold: Option<map<string, int>>): (r: seq<PriceEntry>)
    ensures forall k :: 0 <= k < |r| ==> r[k] in entries && IsSold(sold, r[k].key)
    ensures forall k :: 0 <= k < |entries| && IsSold(sold, entries[k].key) ==> entries[k] in r
    ensures |r| <= |entries|
  {
    if entries == [] then []
    else if IsSold(sold, entries[0].key) then [entries[0]] + SoldEntries(entries[1..], sold)
    else SoldEntries(entries[1..], sold)
  }

  /** `Math.min(...prices)` over a non-empty list: one of the prices, and no larger than any. */
  function MinPrice(entries: seq<PriceEntry>): (m: nat)
    requires entries != []
    ensures exists k :: 0 <= k < |entries| && entries[k].price == m
    ensures forall k :: 0 <= k < |entries| ==> m <= entries[k].price
  {
    if |entries| == 1 then entries[0].price
    else
      var rest := MinPrice(entries[1..]);
      assert forall k :: 1 <= k < |entries| ==> entries[k] == entries[1..][k - 1];
      if entries[0].price <= rest then entries[0].price else rest
  }

  function GetPriceDisplay(prices: Option<seq<PriceEntry>>, sold: Option<map<string, int>>): PriceDisplay {
    if prices.None? || prices.value == [] then PriceDisplay(Free, None)
    else
      var all := prices.value;
      var soldEntries := SoldEntries(all, sold);
      var minOriginal := MinPrice(all);
      if soldEntries != [] then
        var minSold := MinPrice(soldEntries);
        PriceDisplay(Amount(minSold), if minSold < minOriginal then Some(minOriginal) else None)
      else PriceDisplay(Amount(minOriginal), None)
  }

  /** The cheapest price among some of the entries is never below the cheapest of them all. */
  lemma MinOfSubsetNotBelow(all: seq<PriceEntry>, part: seq<PriceEntry>)
    requires all != [] && part != []
    requires forall k :: 0 <= k < |part| ==> part[k] in all
    ensures MinPrice(part) >= MinPrice(all)
  {
    var k :| 0 <= k < |part| && part[k].price == MinPrice(part);
    var j :| 0 <= j < |all| && all[j] == part[k];
  }

  /** The struck-through price never appears: the sold types are among all types, so their
      cheapest price is never below the overall cheapest. */
  lemma OriginalPriceNeverShown(prices: Option<seq<PriceEntry>>, sold: Option<map<string, int>>)
    ensures GetPriceDisplay(prices, sold).originalPrice == None
  {
    if prices.Some? && prices.value != [] {
      var soldEntries := SoldEntries(prices.value, sold);
      if soldEntries != [] {
        MinOfSubsetNotBelow(prices.value, soldEntries);
      }
    }
  }

  /** The badge says free exactly when there are no prices. */
  lemma FreeIffNoPrices(prices: Option<seq<PriceEntry>>, sold: Option<map<string, int>>)
    ensures GetPriceDisplay(prices, sold).display == Free <==> prices.None? || prices.value == []
  {
  }

  /** Otherwise the badge shows one of the listed prices, never below the cheapest of them. */
  lemma DisplayIsListedPrice(prices: seq<PriceEntry>, sold: Option<map<string, int>>)
    requires prices != []
    ensures GetPriceDisplay(Some(prices), sold).display.Amount?
    ensures var d := GetPriceDisplay(Some(prices), sold).display.value;
      (exists k :: 0 <= k < |prices| && prices[k].price == d) && d >= MinPrice(prices)
  {
    var s := SoldEntries(prices, sold);
    if s != [] {
      var i :| 0 <= i < |s| && s[i].price == MinPrice(s);
      var k :| 0 <= k < |prices| && prices[k] == s[i];
    }
  }

  /** When some type has sales, the badge is the cheapest price among the sold types. */
  lemma DisplayWithSales(prices: seq<PriceEntry>, sold: Option<map<string, int>>)
    requires exists k :: 0 <= k < |prices| && IsSold(sold, prices[k].key)
    ensures var d := GetPriceDisplay(Some(prices), sold).display;
      d.Amount? &&
      (exists k :: 0 <= k < |prices| && IsSold(sold, prices[k].key) && prices[k].price == d.value) &&
      (forall k :: 0 <= k < |prices| && IsSold(sold, prices[k].key) ==> d.value <= prices[k].price)
  {
    var s := SoldEntries(prices, sold);
    var k :| 0 <= k < |prices| && IsSold(sold, prices[k].key);
    assert prices[k] in s;
    var i :| 0 <= i < |s| && s[i].price == MinPrice(s);
    var j :| 0 <= j < |prices| && prices[j] == s[i];
    forall k' | 0 <= k' < |prices| && IsSold(sold, prices[k'].key)
      ensures MinPrice(s) <= prices[k'].price
    {
      var i' :| 0 <= i' < |s| && s[i'] == prices[k'];
    }
  }

  /** When no type has sales, the badge is the cheapest price of all types. */
  lemma DisplayWithoutSales(prices: seq<PriceEntry>, sold: Option<map<string, int>>)
    requires prices != []
    requires forall k :: 0 <= k < |prices| ==> !IsSold(sold, prices[k].key)
    ensures GetPriceDisplay(Some(prices), sold) == PriceDisplay(Amount(MinPrice(prices)), None)
  {
  }
}
