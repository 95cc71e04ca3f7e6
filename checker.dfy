/** The Python price resolver and cross-wear aggregator (api/checker.py). */
module Checker {
  import opened Common
  import opened Stats
  import opened Wear
  import opened SteamPrice
  import opened Upstream

  /** The `args` dictionary of `estimate_expected_price`. */
  datatype PriceQuery = PriceQuery(item: string, wear: Option<string>, float: Option<real>, paintSeed: Option<int>)

  /** The dictionary `estimate_expected_price` returns. */
  datatype ResolvedPrice = ResolvedPrice(
    expectedPrice: real,
    steamLowest: Option<real>,
    steamMedian: Option<real>,
    floatAdjusted: Option<real>)

  /** The three price signals gathered for one query, before precedence picks one. */
  datatype Signals = Signals(lowest: Option<real>, median: Option<real>, floatAdjusted: Option<real>)

  /** The float filter sent to the listings service. */
  datatype Window = Window(minFloat: real, maxFloat: real)

  /** One entry of `all_wears`, and the dictionary `estimate_across_wears` returns. */
  datatype WearPrice = WearPrice(wear: string, price: real)
  datatype CrossWear = CrossWear(allWears: seq<WearPrice>, averagePrice: real)

  const DEFAULT_WEAR: string := "Factory New"
  const FLOAT_WINDOW: real := 0.002
  const LISTINGS_LIMIT: nat := 50
  const LISTINGS_SORT: string := "lowest_price"

  /** The wears `estimate_across_wears` tries, in canonical order. */
  const WearNames: seq<string> := ["Factory New", "Minimal Wear", "Field-Tested", "Well-Worn", "Battle-Scarred"]

  /** The effective wear: a non-empty given wear, else the float's bucket, else Factory New. */
  function ChooseWear(wear: Option<string>, float: Option<real>): (r: Result<string, Error>)
    ensures Truthy(wear) ==> r == Ok(wear.value)
    ensures !Truthy(wear) && float.None? ==> r == Ok(DEFAULT_WEAR)
    ensures !Truthy(wear) && float.Some? ==> (r.Ok? <==> 0.0 <= float.value < 1.0)
    ensures !Truthy(wear) && float.Some? ==>
              forall i :: 0 <= i < |WearBuckets| && Contains(WearBuckets[i], float.value) ==>
                r == Ok(WearBuckets[i].name)
    ensures r.Err? ==> r.error == OutOfRange
  {
    if Truthy(wear) then Ok(wear.value)
    else if float.Some? then
      ClassifyWearSpec(float.value);
      ClassifyWear(float.value)
    else Ok(DEFAULT_WEAR)
  }

  /** Steam's `market_hash_name` for an item in a wear: the item, a space, and the wear in
      parentheses. */
  function MarketHashName(item: string, wear: string): string {
    item + " (" + wear + ")"
  }

  /** The parts of a market name, by position: the item, " (", the wear and ")". */
  lemma MarketHashNameShape(item: string, wear: string)
    ensures var r := MarketHashName(item, wear);
      && |r| == |item| + |wear| + 3
      && r[..|item|] == item && r[|item| + 2..|item| + 2 + |wear|] == wear
      && r[|item|..|item| + 2] == " (" && r[|r| - 1] == ')'
  {
  }

  /** The Steam query for a market name: US dollars, the CS2 app id. */
  function SteamQueryFor(name: string): SteamQuery {
    SteamQuery(STEAM_CURRENCY_USD, STEAM_APPID, name)
  }

  /** Names for one wear are distinct for distinct items, and names for one item are
      distinct for distinct wears. */
  lemma MarketHashNameInjective(item1: string, wear1: string, item2: string, wear2: string)
    requires item1 == item2 || wear1 == wear2
    ensures MarketHashName(item1, wear1) == MarketHashName(item2, wear2) ==> item1 == item2 && wear1 == wear2
  {
    MarketHashNameShape(item1, wear1);
    MarketHashNameShape(item2, wear2);
  }

  /** `steam_price_overview`: the two raw price fields, or the failure the request raises. */
  function SteamPriceOverview(steam: SteamApi, name: string): (r: Result<(Option<string>, Option<string>), Error>)
    ensures var reply := steam(SteamQueryFor(name));
      reply.SteamBody? && reply.success ==> r == Ok((reply.lowestPrice, reply.medianPrice))
    ensures var reply := steam(SteamQueryFor(name));
      reply.SteamBody? && !reply.success ==> r == Err(UpstreamRejected(name))
    ensures !steam(SteamQueryFor(name)).SteamBody? ==> r == Err(UpstreamUnavailable)
  {
    match steam(SteamQueryFor(name))
    case SteamBody(success, lowest, median) =>
      if success then Ok((lowest, median)) else Err(UpstreamRejected(name))
    case _ => Err(UpstreamUnavailable)
  }

  /** The listing float filter: the float plus or minus `FLOAT_WINDOW`, clamped to `[0, 1]`. */
  function FloatWindow(f: real): (w: Window)
    ensures 0.0 <= f <= 1.0 ==> 0.0 <= w.minFloat <= f <= w.maxFloat <= 1.0
    ensures w.minFloat <= w.maxFloat <==> -FLOAT_WINDOW <= f <= 1.0 + FLOAT_WINDOW
    ensures w.maxFloat - w.minFloat <= 2.0 * FLOAT_WINDOW
  {
    Window(if f - FLOAT_WINDOW > 0.0 then f - FLOAT_WINDOW else 0.0,
           if f + FLOAT_WINDOW < 1.0 then f + FLOAT_WINDOW else 1.0)
  }

  /** `csfloat_listings`: no request and no listings without an API key; otherwise the
      prices of the listings the filtered query returns, or the failure it raises. */
  function CsfloatListings(keyPresent: bool, csfloat: ListingsApi, name: string,
                           minFloat: Option<real>, maxFloat: Option<real>,
                           paintSeed: Option<int>, limit: nat): (r: Result<seq<int>, Error>)
    ensures !keyPresent ==> r == Ok([])
    ensures keyPresent ==>
      var reply := csfloat(ListingsQuery(name, LISTINGS_SORT, limit, minFloat, maxFloat, paintSeed));
      (r.Ok? <==> reply.ListingsBody?) && (r.Ok? ==> r.value == reply.prices)
    ensures r.Err? ==> r.error == UpstreamUnavailable
  {
    if !keyPresent then Ok([])
    else match csfloat(ListingsQuery(name, LISTINGS_SORT, limit, minFloat, maxFloat, paintSeed))
      case ListingsBody(prices) => Ok(prices)
      case _ => Err(UpstreamUnavailable)
  }

  /** The listing query `estimate_expected_price` sends for a float. */
  function ListingsQueryFor(name: string, f: real, paintSeed: Option<int>): (r: ListingsQuery)
    ensures r.marketHashName == name && r.sortBy == LISTINGS_SORT && r.limit == LISTINGS_LIMIT
    ensures r.paintSeed == paintSeed && r.minFloat.Some? && r.maxFloat.Some?
    ensures 0.0 <= f <= 1.0 ==> 0.0 <= r.minFloat.value <= f <= r.maxFloat.value <= 1.0
    ensures r.maxFloat.value - r.minFloat.value <= 2.0 * FLOAT_WINDOW
  {
    var w := FloatWindow(f);
    ListingsQuery(name, LISTINGS_SORT, LISTINGS_LIMIT, Some(w.minFloat), Some(w.maxFloat), paintSeed)
  }

  /** The float-adjusted price: the mean listing price in dollars, when there are listings. */
  function FloatAdjusted(cents: seq<int>): (r: Option<real>)
    ensures r.Some? <==> |cents| > 0
    ensures r.Some? ==> Min(Scaled(cents)) <= r.value <= Max(Scaled(cents))
  {
    if |cents| == 0 then None
    else
      MeanBounds(Scaled(cents));
      Some(Mean(Scaled(cents)))
  }

  /** The first present value of `cands`, in order. */
  function FirstPresent(cands: seq<Option<real>>): (r: Option<real>)
    ensures r.None? <==> forall i :: 0 <= i < |cands| ==> cands[i].None?
    ensures r.Some? ==>
      exists i :: 0 <= i < |cands| && cands[i] == r && forall j :: 0 <= j < i ==> cands[j].None?
  {
    if |cands| == 0 then None
    else if cands[0].Some? then cands[0]
    else
      var r := FirstPresent(cands[1..]);
      assert forall i :: 1 <= i < |cands| ==> cands[i] == cands[1..][i - 1];
      r
  }

  /** Everything `estimate_expected_price` does before the precedence loop: choose the wear,
      ask Steam, parse both fields and, for a float query, average the nearby listings. */
  function Gather(q: PriceQuery, keyPresent: bool, steam: SteamApi, csfloat: ListingsApi): (r: Result<Signals, Error>)
    ensures r.Ok? ==> ChooseWear(q.wear, q.float).Ok?
                      && SteamPriceOverview(steam, MarketHashName(q.item, ChooseWear(q.wear, q.float).value)).Ok?
    ensures r.Ok? && r.value.floatAdjusted.Some? ==> q.float.Some? && keyPresent
    ensures r.Err? ==> r.error.OutOfRange? || r.error.UpstreamUnavailable? || r.error.UpstreamRejected?
                       || r.error.MalformedPrice?
  {
    match ChooseWear(q.wear, q.float)
    case Err(e) => Err(e)
    case Ok(wearName) =>
      var name := MarketHashName(q.item, wearName);
      match SteamPriceOverview(steam, name)
      case Err(e) => Err(e)
      case Ok(fields) =>
        match ParseSteamPrice(fields.0)
        case Err(e) => Err(e)
        case Ok(lowest) =>
          match ParseSteamPrice(fields.1)
          case Err(e) => Err(e)
          case Ok(median) =>
            if q.float.None? then Ok(Signals(lowest, median, None))
            else
              var w := FloatWindow(q.float.value);
              match CsfloatListings(keyPresent, csfloat, name, Some(w.minFloat), Some(w.maxFloat),
                                    q.paintSeed, LISTINGS_LIMIT)
              case Err(e) => Err(e)
              case Ok(cents) => Ok(Signals(lowest, median, FloatAdjusted(cents)))
  }

  /** The precedence policy: float-adjusted, then median, then lowest; the raw signals are kept. */
  function Choose(s: Signals): (r: Result<ResolvedPrice, Error>)
    ensures r.Ok? ==> r.value.steamLowest == s.lowest && r.value.steamMedian == s.median
                      && r.value.floatAdjusted == s.floatAdjusted
    ensures s.floatAdjusted.Some? ==> r.Ok? && r.value.expectedPrice == s.floatAdjusted.value
    ensures s.floatAdjusted.None? && s.median.Some? ==> r.Ok? && r.value.expectedPrice == s.median.value
    ensures s.floatAdjusted.None? && s.median.None? && s.lowest.Some? ==>
              r.Ok? && r.value.expectedPrice == s.lowest.value
    ensures r.Err? <==> s.floatAdjusted.None? && s.median.None? && s.lowest.None?
    ensures r.Err? ==> r.error == NoPriceAvailable
  {
    var cands := [s.floatAdjusted, s.median, s.lowest];
    match FirstPresent(cands)
    case Some(p) =>
      assert cands[0] == s.floatAdjusted && cands[1] == s.median && cands[2] == s.lowest;
      Ok(ResolvedPrice(p, s.lowest, s.median, s.floatAdjusted))
    case None =>
      assert cands[0].None? && cands[1].None? && cands[2].None?;
      Err(NoPriceAvailable)
  }

  /** `estimate_expected_price` as a function of the query and the upstream replies. */
  function Resolve(q: PriceQuery, keyPresent: bool, steam: SteamApi, csfloat: ListingsApi): (r: Result<ResolvedPrice, Error>)
    ensures r.Ok? ==> Some(r.value.expectedPrice) in [r.value.floatAdjusted, r.value.steamMedian, r.value.steamLowest]
    ensures r.Ok? && r.value.floatAdjusted.Some? ==> q.float.Some? && keyPresent
    ensures r.Err? ==> !r.error.NoWearPriced?
    ensures r.Err? && r.error == NoPriceAvailable ==> Gather(q, keyPresent, steam, csfloat).Ok?
  {
    match Gather(q, keyPresent, steam, csfloat)
    case Err(e) => Err(e)
    case Ok(s) => Choose(s)
  }

  /** `estimate_expected_price`, step by step as the source runs it. */
  method EstimateExpectedPrice(q: PriceQuery, keyPresent: bool, steam: SteamApi, csfloat: ListingsApi)
    returns (r: Result<ResolvedPrice, Error>)
    ensures r == Resolve(q, keyPresent, steam, csfloat)
  {
    var wearName: string;
    if Truthy(q.wear) {
      wearName := q.wear.value;
    } else if q.float.Some? {
      var classified := ClassifyWear(q.float.value);
      if classified.Err? {
        return Err(classified.error);
      }
      wearName := classified.value;
    } else {
      wearName := DEFAULT_WEAR;
    }
    var name := MarketHashName(q.item, wearName);

    var overview := SteamPriceOverview(steam, name);
    if overview.Err? {
      return Err(overview.error);
    }
    var lowestParsed := ParseSteamPrice(overview.value.0);
    if lowestParsed.Err? {
      return Err(lowestParsed.error);
    }
    var medianParsed := ParseSteamPrice(overview.value.1);
    if medianParsed.Err? {
      return Err(medianParsed.error);
    }
    var lowest, median := lowestParsed.value, medianParsed.value;

    var floatAvg: Option<real> := None;
    if q.float.Some? {
      var w := FloatWindow(q.float.value);
      var listings := CsfloatListings(keyPresent, csfloat, name, Some(w.minFloat), Some(w.maxFloat),
                                      q.paintSeed, LISTINGS_LIMIT);
      if listings.Err? {
        return Err(listings.error);
      }
      var pricesUsd := Scaled(listings.value);
      if |pricesUsd| > 0 {
        floatAvg := Some(Mean(pricesUsd));
      }
    }

    var candidates := [floatAvg, median, lowest];
    for i := 0 to |candidates|
      invariant forall j :: 0 <= j < i ==> candidates[j].None?
    {
      if candidates[i].Some? {
        return Ok(ResolvedPrice(candidates[i].value, lowest, median, floatAvg));
      }
    }
    return Err(NoPriceAvailable);
  }

  /** A successful resolution carries the three signals it was chosen from, unchanged, and
      its expected price is the first of them present. A failure is one of the errors the
      source raises. */
  lemma ResolveOutcome(q: PriceQuery, keyPresent: bool, steam: SteamApi, csfloat: ListingsApi)
    ensures var r := Resolve(q, keyPresent, steam, csfloat);
      r.Ok? ==> Gather(q, keyPresent, steam, csfloat).Ok?
                && var s := Gather(q, keyPresent, steam, csfloat).value;
                r.value.steamLowest == s.lowest && r.value.steamMedian == s.median
                && r.value.floatAdjusted == s.floatAdjusted
                && Some(r.value.expectedPrice) == FirstPresent([s.floatAdjusted, s.median, s.lowest])
    ensures var r := Resolve(q, keyPresent, steam, csfloat);
      r == Err(NoPriceAvailable) <==>
        Gather(q, keyPresent, steam, csfloat).Ok? &&
        var s := Gather(q, keyPresent, steam, csfloat).value;
        s.floatAdjusted.None? && s.median.None? && s.lowest.None?
  {
    var g := Gather(q, keyPresent, steam, csfloat);
    if g.Ok? {
      var s := g.value;
      var cands := [s.floatAdjusted, s.median, s.lowest];
      if FirstPresent(cands).Some? {
        var i :| 0 <= i < |cands| && cands[i] == FirstPresent(cands)
                 && forall j :: 0 <= j < i ==> cands[j].None?;
      }
    } else {
      assert g.error != NoPriceAvailable;
    }
  }

  /** A float-adjusted price exists only for a float query made with an API key. */
  lemma FloatAdjustedNeedsFloatAndKey(q: PriceQuery, keyPresent: bool, steam: SteamApi, csfloat: ListingsApi)
    requires q.float.None? || !keyPresent
    ensures Gather(q, keyPresent, steam, csfloat).Ok? ==> Gather(q, keyPresent, steam, csfloat).value.floatAdjusted.None?
    ensures Resolve(q, keyPresent, steam, csfloat).Ok? ==> Resolve(q, keyPresent, steam, csfloat).value.floatAdjusted.None?
  {
    ResolveOutcome(q, keyPresent, steam, csfloat);
  }

  /** With a float and a key, a successful gathering took the float-adjusted price from the
      listings the clamped window query returned: their mean in dollars, or none without any. */
  lemma FloatAdjustedFromListings(q: PriceQuery, steam: SteamApi, csfloat: ListingsApi)
    requires q.float.Some? && Gather(q, true, steam, csfloat).Ok?
    ensures ChooseWear(q.wear, q.float).Ok?
    ensures var name := MarketHashName(q.item, ChooseWear(q.wear, q.float).value);
      var reply := csfloat(ListingsQueryFor(name, q.float.value, q.paintSeed));
      && reply.ListingsBody?
      && Gather(q, true, steam, csfloat).value.floatAdjusted == FloatAdjusted(reply.prices)
      && (|reply.prices| > 0 ==> Resolve(q, true, steam, csfloat)
                                   == Ok(ResolvedPrice(Mean(Scaled(reply.prices)),
                                                       Gather(q, true, steam, csfloat).value.lowest,
                                                       Gather(q, true, steam, csfloat).value.median,
                                                       FloatAdjusted(reply.prices))))
  {
  }

  /** A listings service that finds no listing for any query. */
  function NoListings(lq: ListingsQuery): ListingsReply {
    ListingsBody([])
  }

  /** Without an API key the listings service is never consulted, and the price falls back
      to the Steam median, then the Steam lowest, without failing on the listings' account:
      no key behaves exactly as a key with no listings, and whenever Steam answers with a
      parseable median or lowest price the query is priced. */
  lemma DegradedMode(q: PriceQuery, steam: SteamApi, csfloat: ListingsApi, csfloat': ListingsApi)
    ensures Resolve(q, false, steam, csfloat) == Resolve(q, false, steam, csfloat')
    ensures Resolve(q, false, steam, csfloat) == Resolve(q, true, steam, NoListings)
    ensures ChooseWear(q.wear, q.float).Ok? ==>
      var o := SteamPriceOverview(steam, MarketHashName(q.item, ChooseWear(q.wear, q.float).value));
      o.Ok? && ParseSteamPrice(o.value.0).Ok? && ParseSteamPrice(o.value.1).Ok?
      && (ParseSteamPrice(o.value.1).value.Some? || ParseSteamPrice(o.value.0).value.Some?)
      ==> Resolve(q, false, steam, csfloat).Ok?
    ensures var r := Resolve(q, false, steam, csfloat);
      r.Ok? ==> Some(r.value.expectedPrice) == FirstPresent([r.value.steamMedian, r.value.steamLowest])
  {
    FloatAdjustedNeedsFloatAndKey(q, false, steam, csfloat);
    ResolveOutcome(q, false, steam, csfloat);
    var r := Resolve(q, false, steam, csfloat);
    if r.Ok? {
      var s := Gather(q, false, steam, csfloat).value;
      assert [s.floatAdjusted, s.median, s.lowest][1..] == [s.median, s.lowest];
    }
  }

  /** A query without a float depends on neither the API key nor the listings service. */
  lemma NoFloatNoListings(q: PriceQuery, keyPresent: bool, keyPresent': bool, steam: SteamApi,
                          csfloat: ListingsApi, csfloat': ListingsApi)
    requires q.float.None?
    ensures Resolve(q, keyPresent, steam, csfloat) == Resolve(q, keyPresent', steam, csfloat')
  {
  }

  /** The resolver consults Steam only for `item (wear)` with the effective wear, and the
      listings service only with that name and the clamped float window. */
  lemma ResolveConsults(q: PriceQuery, keyPresent: bool, steam: SteamApi, steam': SteamApi,
                        csfloat: ListingsApi, csfloat': ListingsApi)
    requires ChooseWear(q.wear, q.float).Ok?
    requires var name := MarketHashName(q.item, ChooseWear(q.wear, q.float).value);
      && steam(SteamQueryFor(name)) == steam'(SteamQueryFor(name))
      && (q.float.Some? ==> csfloat(ListingsQueryFor(name, q.float.value, q.paintSeed))
                            == csfloat'(ListingsQueryFor(name, q.float.value, q.paintSeed)))
    ensures Resolve(q, keyPresent, steam, csfloat) == Resolve(q, keyPresent, steam', csfloat')
  {
  }

  /** A Steam feed for the resolution example below: lowest $40.00, median $45.00. */
  function ExampleSteam(sq: SteamQuery): SteamReply {
    SteamBody(true, Some(Dollars("40", "00")), Some(Dollars("45", "00")))
  }

  /** Listings for the resolution example below: $42.00 and $44.00 inside the window [0.098, 0.102]. */
  function ExampleListings(lq: ListingsQuery): ListingsReply {
    if lq.minFloat == Some(0.098) && lq.maxFloat == Some(0.102) then ListingsBody([4200, 4400])
    else ListingsBody([])
  }

  lemma FortyValue()
    ensures Decimal.DecimalValue("40", "00") == 40.0
  {
    assert Decimal.NatValue("40") == 40 by {
      assert "40"[..1] == "4";
      assert Decimal.NatValue("4") == 4;
    }
    assert Decimal.NatValue("00") == 0 by {
      assert "00"[..1] == "0";
    }
  }

  lemma FortyFiveValue()
    ensures Decimal.DecimalValue("45", "00") == 45.0
  {
    assert Decimal.NatValue("45") == 45 by {
      assert "45"[..1] == "4";
      assert Decimal.NatValue("4") == 4;
    }
    assert Decimal.NatValue("00") == 0 by {
      assert "00"[..1] == "0";
    }
  }

  lemma ExampleLowest()
    ensures ParseSteamPrice(Some(Dollars("40", "00"))) == Ok(Some(40.0))
  {
    ParseDollars("40", "00");
    FortyValue();
  }

  lemma ExampleMedian()
    ensures ParseSteamPrice(Some(Dollars("45", "00"))) == Ok(Some(45.0))
  {
    ParseDollars("45", "00");
    FortyFiveValue();
  }

  lemma ExampleAverage()
    ensures FloatAdjusted([4200, 4400]) == Some(43.0)
  {
    assert Scaled([4200, 4400]) == [42.0, 44.0];
    assert Sum([42.0, 44.0]) == 86.0 by {
      assert [42.0, 44.0][..1] == [42.0];
      assert [42.0][..0] == [];
    }
  }

  lemma ExampleSignals()
    ensures Gather(PriceQuery("AK-47 | Redline", None, Some(0.10), None), true, ExampleSteam, ExampleListings)
         == Ok(Signals(Some(40.0), Some(45.0), Some(43.0)))
  {
    ClassifyWearSpec(0.10);
    assert Contains(WearBuckets[1], 0.10);
    assert ChooseWear(None, Some(0.10)) == Ok("Minimal Wear");
    var name := MarketHashName("AK-47 | Redline", "Minimal Wear");
    assert SteamPriceOverview(ExampleSteam, name) == Ok((Some(Dollars("40", "00")), Some(Dollars("45", "00"))));
    ExampleLowest();
    ExampleMedian();
    assert FloatWindow(0.10) == Window(0.098, 0.102);
    assert CsfloatListings(true, ExampleListings, name, Some(0.098), Some(0.102), None, LISTINGS_LIMIT)
        == Ok([4200, 4400]);
    ExampleAverage();
  }

  /** An example: a 0.10 float, Steam lowest $40.00 and median $45.00, and two
      listings at $42.00 and $44.00 in the window [0.098, 0.102] resolve to $43.00. */
  lemma ResolveExample()
    ensures Resolve(PriceQuery("AK-47 | Redline", None, Some(0.10), None), true, ExampleSteam, ExampleListings)
         == Ok(ResolvedPrice(43.0, Some(40.0), Some(45.0), Some(43.0)))
  {
    ExampleSignals();
  }

  function WearQuery(item: string, wear: string): PriceQuery {
    PriceQuery(item, Some(wear), None, None)
  }

  /** How each wear resolves for `item` against fixed upstream replies. */
  function WearOutcome(item: string, keyPresent: bool, steam: SteamApi, csfloat: ListingsApi)
    : string -> Result<ResolvedPrice, Error>
  {
    w => Resolve(WearQuery(item, w), keyPresent, steam, csfloat)
  }

  /** The wears of `wears` whose outcome is a success, in the order tried, each with its price. */
  function Successes(wears: seq<string>, outcome: string -> Result<ResolvedPrice, Error>): (r: seq<WearPrice>)
    ensures |r| <= |wears|
    ensures forall k :: 0 <= k < |r| ==>
      r[k].wear in wears && outcome(r[k].wear).Ok? && r[k].price == outcome(r[k].wear).value.expectedPrice
  {
    if |wears| == 0 then []
    else
      var init := Successes(wears[..|wears| - 1], outcome);
      var w := wears[|wears| - 1];
      assert forall x :: x in wears[..|wears| - 1] ==> x in wears;
      match outcome(w)
      case Ok(p) => init + [WearPrice(w, p.expectedPrice)]
      case Err(_) => init
  }

  /** A wear appears among the successes exactly when it resolves. */
  lemma {:induction false} SuccessesExactly(wears: seq<string>, outcome: string -> Result<ResolvedPrice, Error>, w: string)
    requires w in wears
    ensures var r := Successes(wears, outcome);
      outcome(w).Ok? <==> exists k :: 0 <= k < |r| && r[k].wear == w
  {
    var r := Successes(wears, outcome);
    if outcome(w).Ok? {
      var n := |wears|;
      var init := wears[..n - 1];
      var prev := Successes(init, outcome);
      var last := wears[n - 1];
      assert r == if outcome(last).Ok? then prev + [WearPrice(last, outcome(last).value.expectedPrice)] else prev;
      if last == w {
        var k := |r| - 1;
        assert 0 <= k < |r| && r[k].wear == w;
        assert exists k :: 0 <= k < |r| && r[k].wear == w;
        assert r == Successes(wears, outcome);
      } else {
        assert w in init;
        SuccessesExactly(init, outcome, w);
        var k :| 0 <= k < |prev| && prev[k].wear == w;
        assert r[k] == prev[k];
      }
    } else {
      forall k | 0 <= k < |r| ensures r[k].wear != w {
        assert outcome(r[k].wear).Ok?;
      }
    }
  }

  /** The index of the first occurrence of `w` in `ws`. */
  function Position(ws: seq<string>, w: string): (p: nat)
    requires w in ws
    ensures p < |ws| && ws[p] == w && forall j :: 0 <= j < p ==> ws[j] != w
  {
    if ws[0] == w then 0
    else
      var p := 1 + Position(ws[1..], w);
      assert forall j :: 1 <= j < p ==> ws[j] == ws[1..][j - 1];
      p
  }

  predicate Distinct(ws: seq<string>) {
    forall i, j :: 0 <= i < j < |ws| ==> ws[i] != ws[j]
  }

  /** With distinct wears, the successes keep the order in which the wears were tried. */
  lemma {:induction false} SuccessesOrdered(wears: seq<string>, outcome: string -> Result<ResolvedPrice, Error>)
    requires Distinct(wears)
    ensures forall i, j :: 0 <= i < j < |Successes(wears, outcome)| ==>
      Position(wears, Successes(wears, outcome)[i].wear) < Position(wears, Successes(wears, outcome)[j].wear)
  {
    var r := Successes(wears, outcome);
    if |wears| > 0 {
      var n := |wears|;
      var init := wears[..n - 1];
      var prev := Successes(init, outcome);
      SuccessesOrdered(init, outcome);
      var last := wears[n - 1];
      assert r == if outcome(last).Ok? then prev + [WearPrice(last, outcome(last).value.expectedPrice)] else prev;
      forall x | x in init ensures Position(wears, x) == Position(init, x) < n - 1 {
        var p, q := Position(wears, x), Position(init, x);
        assert wears[q] == x;
      }
      assert Position(wears, wears[n - 1]) == n - 1;
      forall i, j | 0 <= i < j < |r| ensures Position(wears, r[i].wear) < Position(wears, r[j].wear) {
        assert r[i] == prev[i];
        assert prev[i].wear in init;
        if j < |prev| {
          assert r[j] == prev[j];
          assert prev[j].wear in init;
          assert Position(init, prev[i].wear) < Position(init, prev[j].wear);
        } else {
          assert r[j].wear == last;
        }
      }
    }
  }

  lemma WearNamesDistinct()
    ensures Distinct(WearNames) && |WearNames| == |WearBuckets|
    ensures forall i :: 0 <= i < |WearNames| ==> WearNames[i] == WearBuckets[i].name
  {
  }

  function PricesOf(entries: seq<WearPrice>): (r: seq<real>)
    ensures |r| == |entries| && forall k :: 0 <= k < |entries| ==> r[k] == entries[k].price
  {
    seq(|entries|, k requires 0 <= k < |entries| => entries[k].price)
  }

  /** Trying one more wear appends it exactly when it resolves. */
  lemma SuccessesSnoc(wears: seq<string>, w: string, outcome: string -> Result<ResolvedPrice, Error>)
    ensures Successes(wears + [w], outcome)
         == Successes(wears, outcome) + (if outcome(w).Ok? then [WearPrice(w, outcome(w).value.expectedPrice)] else [])
  {
    assert (wears + [w])[..|wears|] == wears;
  }

  /** Of five wears tried, only the first and the third resolve: exactly those two are kept. */
  lemma FirstAndThirdOfFive(wears: seq<string>, outcome: string -> Result<ResolvedPrice, Error>)
    requires |wears| == 5
    requires outcome(wears[0]).Ok? && outcome(wears[1]).Err? && outcome(wears[2]).Ok?
    requires outcome(wears[3]).Err? && outcome(wears[4]).Err?
    ensures Successes(wears, outcome)
         == [WearPrice(wears[0], outcome(wears[0]).value.expectedPrice),
             WearPrice(wears[2], outcome(wears[2]).value.expectedPrice)]
  {
    var first := [WearPrice(wears[0], outcome(wears[0]).value.expectedPrice)];
    var both := first + [WearPrice(wears[2], outcome(wears[2]).value.expectedPrice)];
    var w1 := [] + [wears[0]];
    var w2 := w1 + [wears[1]];
    var w3 := w2 + [wears[2]];
    var w4 := w3 + [wears[3]];
    var w5 := w4 + [wears[4]];
    assert Successes(w1, outcome) == first by {
      SuccessesSnoc([], wears[0], outcome);
    }
    assert Successes(w2, outcome) == first by {
      SuccessesSnoc(w1, wears[1], outcome);
    }
    assert Successes(w3, outcome) == both by {
      SuccessesSnoc(w2, wears[2], outcome);
    }
    assert Successes(w4, outcome) == both by {
      SuccessesSnoc(w3, wears[3], outcome);
    }
    assert Successes(w5, outcome) == both by {
      SuccessesSnoc(w4, wears[4], outcome);
    }
    assert w5 == wears;
  }

  /** An example in cross-wear mode: only Factory New ($50.00) and Field-Tested ($30.00) resolve, so
      exactly those two are kept, in that order, and their average is $40.00. */
  lemma CrossWearExample(outcome: string -> Result<ResolvedPrice, Error>)
    requires outcome("Factory New").Ok? && outcome("Factory New").value.expectedPrice == 50.0
    requires outcome("Minimal Wear").Err?
    requires outcome("Field-Tested").Ok? && outcome("Field-Tested").value.expectedPrice == 30.0
    requires outcome("Well-Worn").Err? && outcome("Battle-Scarred").Err?
    ensures Successes(WearNames, outcome) == [WearPrice("Factory New", 50.0), WearPrice("Field-Tested", 30.0)]
    ensures Mean(PricesOf(Successes(WearNames, outcome))) == 40.0
  {
    assert WearNames[0] == "Factory New" && WearNames[1] == "Minimal Wear" && WearNames[2] == "Field-Tested";
    assert WearNames[3] == "Well-Worn" && WearNames[4] == "Battle-Scarred";
    FirstAndThirdOfFive(WearNames, outcome);
    assert PricesOf([WearPrice("Factory New", 50.0), WearPrice("Field-Tested", 30.0)]) == [50.0, 30.0];
    assert Sum([50.0, 30.0]) == 80.0 by {
      assert [50.0, 30.0][..1] == [50.0] && [50.0][..0] == [];
    }
  }

  /** The loop of `estimate_across_wears`: resolve each wear in turn, appending the
      successes and passing over every failure. */
  method CollectSuccesses(item: string, wears: seq<string>, keyPresent: bool, steam: SteamApi, csfloat: ListingsApi)
    returns (results: seq<WearPrice>)
    ensures results == Successes(wears, WearOutcome(item, keyPresent, steam, csfloat))
  {
    ghost var outcome := WearOutcome(item, keyPresent, steam, csfloat);
    results := [];
    for i := 0 to |wears|
      invariant results == Successes(wears[..i], outcome)
    {
      assert wears[..i + 1][..i] == wears[..i];
      var p := EstimateExpectedPrice(WearQuery(item, wears[i]), keyPresent, steam, csfloat);
      assert p == outcome(wears[i]);
      if p.Ok? {
        results := results + [WearPrice(wears[i], p.value.expectedPrice)];
      }
    }
    assert wears[..|wears|] == wears;
  }

  /** `estimate_across_wears`: try every wear in canonical order, keep the successes, and
      average their prices; with no success the whole call fails. */
  method EstimateAcrossWears(item: string, keyPresent: bool, steam: SteamApi, csfloat: ListingsApi)
    returns (r: Result<CrossWear, Error>)
    ensures var kept := Successes(WearNames, WearOutcome(item, keyPresent, steam, csfloat));
      && (r.Err? <==> kept == [])
      && (r.Err? ==> r.error == NoWearPriced(item))
      && (r.Ok? ==> r.value.allWears == kept && r.value.averagePrice == Mean(PricesOf(kept)))
      && (r.Ok? ==> Min(PricesOf(kept)) <= r.value.averagePrice <= Max(PricesOf(kept)))
  {
    var results := CollectSuccesses(item, WearNames, keyPresent, steam, csfloat);
    if |results| == 0 {
      return Err(NoWearPriced(item));
    }
    var prices := PricesOf(results);
    MeanBounds(prices);
    return Ok(CrossWear(results, Mean(prices)));
  }
}
