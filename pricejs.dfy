/** The serverless handler (api/price.js): the same resolution as the Python engine, written
    inline with JavaScript truthiness, its own price-string parser and `??` precedence. */
module PriceJs {
  import opened Common
  import opened Decimal
  import opened Stats
  import opened SteamPrice
  import opened Upstream
  import Wear
  import Checker

  /** A number as the handler holds it: `undefined`, `NaN`, or a finite value. */
  datatype JsValue = Undefined | NaN | Finite(value: real)

  /** The `error` field of a failure response: a message of the handler's own, or the message
      of an error the runtime raises (a rejected `fetch`, destructuring an absent body),
      whose wording is the runtime's. */
  datatype ErrorText = Text(message: string) | RuntimeText

  /** The fields the handler destructures from `req.body`, as JSON values. */
  datatype Body = Body(item: Option<string>, float: Option<real>, paintSeed: Option<int>)
  datatype Request = Request(verb: string, body: Option<Body>)

  /** The JSON the handler answers with, and its HTTP status. */
  datatype Payload = ErrorPayload(error: ErrorText) | PricePayload(expectedPrice: JsValue)
  datatype Response = Response(status: nat, payload: Payload)

  const MSG_POST_ONLY: string := "POST only"
  const MSG_MISSING_ITEM: string := "Missing item"
  const MSG_OUT_OF_RANGE: string := "Float out of range"
  const MSG_STEAM_FAILED: string := "Steam request failed"
  const MSG_NO_PRICE: string := "No price data found"

  const DEFAULT_WEAR: string := "Factory New"
  const LISTINGS_SORT: string := "lowest_price"
  const LISTINGS_LIMIT: nat := 50

  /** The handler's own copy of the wear buckets. */
  const JsBuckets: seq<Wear.Bucket> := [
    Wear.Bucket(0.00, 0.07, "Factory New"),
    Wear.Bucket(0.07, 0.15, "Minimal Wear"),
    Wear.Bucket(0.15, 0.38, "Field-Tested"),
    Wear.Bucket(0.38, 0.45, "Well-Worn"),
    Wear.Bucket(0.45, 1.00, "Battle-Scarred")
  ]

  /** JavaScript truthiness of a JSON number: present and not zero. */
  predicate FloatTruthy(f: Option<real>) {
    f.Some? && f.value != 0.0
  }

  predicate SeedTruthy(s: Option<int>) {
    s.Some? && s.value != 0
  }

  /** `classifyWear`: scan the buckets in order and return the first containing `v`, or throw.
      It agrees with the Python classifier on every value. */
  method ClassifyWear(v: real) returns (r: Result<string, ErrorText>)
    ensures r.Ok? <==> 0.0 <= v < 1.0
    ensures r.Ok? ==> Wear.ClassifyWear(v) == Ok(r.value)
    ensures r.Err? ==> r.error == Text(MSG_OUT_OF_RANGE)
  {
    Wear.ClassifyWearSpec(v);
    for i := 0 to |JsBuckets|
      invariant forall j :: 0 <= j < i ==> !Wear.Contains(JsBuckets[j], v)
    {
      var b := JsBuckets[i];
      if v >= b.low && v < b.high {
        assert Wear.Contains(Wear.WearBuckets[i], v);
        return Ok(b.name);
      }
    }
    assert Wear.FirstMatch(Wear.WearBuckets, v).None?;
    return Err(Text(MSG_OUT_OF_RANGE));
  }

  /** The wear the handler prices: the float's bucket when the float is truthy, else Factory
      New. A float of 0 therefore skips the classifier. */
  function ChooseWear(float: Option<real>): (r: Result<string, ErrorText>)
    ensures !FloatTruthy(float) ==> r == Ok(DEFAULT_WEAR)
    ensures FloatTruthy(float) ==> (r.Ok? <==> 0.0 <= float.value < 1.0)
    ensures FloatTruthy(float) ==>
              forall i :: 0 <= i < |JsBuckets| && Wear.Contains(JsBuckets[i], float.value) ==>
                r == Ok(JsBuckets[i].name)
    ensures r.Err? ==> r.error == Text(MSG_OUT_OF_RANGE)
  {
    if FloatTruthy(float) then
      Wear.ClassifyWearSpec(float.value);
      match Wear.ClassifyWear(float.value)
      case Ok(name) => Ok(name)
      case Err(_) => Err(Text(MSG_OUT_OF_RANGE))
    else Ok(DEFAULT_WEAR)
  }

  /** `s.replace(/[^\d.]/g, '')`: keep only the digits and dots, in order. */
  function StripNonNumeric(s: string): (r: string)
    ensures |r| <= |s| && DigitsAndDots(r)
  {
    if |s| == 0 then ""
    else
      var init := StripNonNumeric(s[..|s| - 1]);
      var last := s[|s| - 1];
      if IsDigit(last) || last == '.' then init + [last] else init
  }

  predicate NoDigitsOrDots(s: string) {
    forall k :: 0 <= k < |s| ==> !IsDigit(s[k]) && s[k] != '.'
  }

  lemma {:induction false} StripAppend(a: string, b: string)
    ensures StripNonNumeric(a + b) == StripNonNumeric(a) + StripNonNumeric(b)
  {
    if |b| > 0 {
      var b' := b[..|b| - 1];
      assert (a + b)[..|a + b| - 1] == a + b';
      assert (a + b)[|a + b| - 1] == b[|b| - 1];
      StripAppend(a, b');
    } else {
      assert a + b == a;
    }
  }

  /** Stripping removes every character of a run with no digits or dots. */
  lemma {:induction false} StripNothing(s: string)
    requires NoDigitsOrDots(s)
    ensures StripNonNumeric(s) == ""
  {
    if |s| > 0 {
      StripNothing(s[..|s| - 1]);
    }
  }

  /** On a run of digits, commas and dots, stripping is removing the commas. */
  lemma {:induction false} StripPriceRun(t: string)
    requires AllPriceChars(t)
    ensures StripNonNumeric(t) == RemoveCommas(t)
  {
    if |t| > 0 {
      StripPriceRun(t[..|t| - 1]);
    }
  }

  /** `parseFloat` on a string of digits and dots: the value of its longest prefix that is a
      decimal literal (`d+`, `d+.d*` or `.d+`), or `NaN` when no prefix is one. */
  function JsParseFloat(t: string): (r: JsValue)
    requires DigitsAndDots(t)
    ensures !r.Undefined?
    ensures r.NaN? <==> !(|t| > 0 && IsDigit(t[0])) && !(|t| > 1 && t[0] == '.' && IsDigit(t[1]))
    ensures |t| > 0 && AllDigits(t) ==> r == Finite(NatValue(t) as real)
    ensures forall k: nat :: DotAt(t, k) ==> r == Finite(DecimalValue(t[..k], t[k + 1..]))
  {
    var a := DigitRun(t);
    forall k: nat | DotAt(t, k) ensures k == a { DotIsDigitRunEnd(t, k); }
    if a < |t| then
      var rest := t[a + 1..];
      var b := DigitRun(rest);
      assert AllDigits(rest) ==> b == |rest| && rest[..b] == rest;
      if a == 0 && b == 0 then NaN
      else Finite(DecimalValue(t[..a], rest[..b]))
    else
      assert t[..a] == t;
      if a == 0 then NaN else Finite(NatValue(t) as real)
  }

  /** `parseFloat` stops at the second dot: a literal `w.f` followed by more dots and digits
      reads as `w.f`. */
  lemma JsParseFloatStopsAtDot(w: string, f: string, u: string)
    requires AllDigits(w) && AllDigits(f) && |w| + |f| > 0
    requires DigitsAndDots(u) && (|u| == 0 || u[0] == '.')
    ensures DigitsAndDots(w + "." + f + u)
    ensures JsParseFloat(w + "." + f + u) == Finite(DecimalValue(w, f))
  {
    var rest := f + u;
    var t := w + "." + rest;
    assert t == w + "." + f + u;
    assert DigitsAndDots(rest) by {
      forall k | 0 <= k < |rest| ensures IsDigit(rest[k]) || rest[k] == '.' {
        if k >= |f| { assert rest[k] == u[k - |f|]; }
      }
    }
    assert DigitsAndDots(t) by {
      forall k | 0 <= k < |t| ensures IsDigit(t[k]) || t[k] == '.' {
        if k > |w| { assert t[k] == rest[k - |w| - 1]; }
      }
    }
    assert t[..|w|] == w && t[|w|] == '.' && t[|w| + 1..] == rest;
    DigitRunIs(t, |w|);
    assert rest[..|f|] == f;
    DigitRunIs(rest, |f|);
  }

  /** `num`: `undefined` for a missing or empty field, else `parseFloat` of its digits and dots. */
  function Num(s: Option<string>): (r: JsValue)
    ensures r.Undefined? <==> !Truthy(s)
    ensures Truthy(s) ==> r == JsParseFloat(StripNonNumeric(s.value))
  {
    if Truthy(s) then JsParseFloat(StripNonNumeric(s.value)) else Undefined
  }

  /** The `floatAvg` reduction: summed cents over 100 over the count, which is the mean
      dollar price, and `undefined` when there are no listings. */
  function FloatAvg(cents: seq<int>): (r: JsValue)
    ensures r.Undefined? <==> |cents| == 0
    ensures |cents| > 0 ==> r == Finite(Mean(Scaled(cents)))
    ensures |cents| > 0 ==> Min(Scaled(cents)) <= r.value <= Max(Scaled(cents))
  {
    if |cents| == 0 then Undefined
    else
      SumScaled(cents);
      MeanBounds(Scaled(cents));
      Finite(ReduceSum(cents) as real / 100.0 / |cents| as real)
  }

  /** The listing query the handler sends: the clamped float window, and a paint seed only
      when it is truthy. */
  function ListingsQueryFor(name: string, f: real, paintSeed: Option<int>): (q: ListingsQuery)
    ensures q.marketHashName == name && q.sortBy == LISTINGS_SORT && q.limit == LISTINGS_LIMIT
    ensures q.minFloat.Some? && q.maxFloat.Some?
    ensures 0.0 <= f <= 1.0 ==> 0.0 <= q.minFloat.value <= f <= q.maxFloat.value <= 1.0
    ensures q.paintSeed.Some? <==> SeedTruthy(paintSeed)
    ensures q.paintSeed.Some? ==> q.paintSeed == paintSeed
  {
    var w := Checker.FloatWindow(f);
    ListingsQuery(name, LISTINGS_SORT, LISTINGS_LIMIT, Some(w.minFloat), Some(w.maxFloat),
                  if SeedTruthy(paintSeed) then paintSeed else None)
  }

  /** The `floatAvg` the handler computes: asked for only with a key and a truthy float; a
      non-ok reply leaves it `undefined`, a rejected request throws. */
  function FloatAverage(keyPresent: bool, csfloat: ListingsApi, name: string,
                        float: Option<real>, paintSeed: Option<int>): (r: Result<JsValue, ErrorText>)
    ensures !(keyPresent && FloatTruthy(float)) ==> r == Ok(Undefined)
    ensures keyPresent && FloatTruthy(float) ==>
      var reply := csfloat(ListingsQueryFor(name, float.value, paintSeed));
      && (r.Err? <==> reply.ListingsUnreachable?)
      && (reply.ListingsHttpError? ==> r == Ok(Undefined))
      && (reply.ListingsBody? ==> r == Ok(FloatAvg(reply.prices)))
    ensures r.Err? ==> r.error == RuntimeText
  {
    if keyPresent && FloatTruthy(float) then
      match csfloat(ListingsQueryFor(name, float.value, paintSeed))
      case ListingsUnreachable => Err(RuntimeText)
      case ListingsHttpError => Ok(Undefined)
      case ListingsBody(prices) => Ok(FloatAvg(prices))
    else Ok(Undefined)
  }

  /** `a ?? b`: only `undefined` gives way; `NaN` is a value. */
  function Coalesce(a: JsValue, b: JsValue): JsValue {
    if a.Undefined? then b else a
  }

  /** `undefined` is the identity of `??`, and `??` is associative, so a chain means the same
      however it is grouped. */
  lemma CoalesceLaws(a: JsValue, b: JsValue, c: JsValue)
    ensures Coalesce(Undefined, a) == a && Coalesce(a, Undefined) == a
    ensures Coalesce(Coalesce(a, b), c) == Coalesce(a, Coalesce(b, c))
    ensures Coalesce(a, b).Undefined? <==> a.Undefined? && b.Undefined?
  { }

  /** `floatAvg ?? median ?? lowest`: the first signal that is not `undefined`. */
  function Expected(floatAvg: JsValue, median: JsValue, lowest: JsValue): (r: JsValue)
    ensures !floatAvg.Undefined? ==> r == floatAvg
    ensures floatAvg.Undefined? && !median.Undefined? ==> r == median
    ensures floatAvg.Undefined? && median.Undefined? ==> r == lowest
    ensures r.Undefined? <==> floatAvg.Undefined? && median.Undefined? && lowest.Undefined?
  {
    Coalesce(Coalesce(floatAvg, median), lowest)
  }

  /** Everything after the request checks: the wear, the Steam baseline, the listings average
      and the precedence chain, for a truthy `item`. */
  function Priced(item: string, float: Option<real>, paintSeed: Option<int>, keyPresent: bool,
                  steam: SteamApi, csfloat: ListingsApi): (r: Result<JsValue, ErrorText>)
    ensures r.Ok? ==> !r.value.Undefined?
    ensures r.Ok? ==> ChooseWear(float).Ok?
                      && steam(Checker.SteamQueryFor(Checker.MarketHashName(item, ChooseWear(float).value))).SteamBody?
    ensures r.Err? ==> r.error in {Text(MSG_OUT_OF_RANGE), Text(MSG_STEAM_FAILED), Text(MSG_NO_PRICE), RuntimeText}
  {
    match ChooseWear(float)
    case Err(e) => Err(e)
    case Ok(wear) =>
      var hashName := Checker.MarketHashName(item, wear);
      match steam(Checker.SteamQueryFor(hashName))
      case SteamUnreachable => Err(RuntimeText)
      case SteamHttpError => Err(Text(MSG_STEAM_FAILED))
      case SteamBody(_, lowestPrice, medianPrice) =>
        var median := Num(medianPrice);
        var lowest := Num(lowestPrice);
        match FloatAverage(keyPresent, csfloat, hashName, float, paintSeed)
        case Err(e) => Err(e)
        case Ok(floatAvg) =>
          var expected := Expected(floatAvg, median, lowest);
          if expected.Undefined? then Err(Text(MSG_NO_PRICE)) else Ok(expected)
  }

  /** The handler as a function of the request and the upstream replies. */
  function Respond(req: Request, keyPresent: bool, steam: SteamApi, csfloat: ListingsApi): (res: Response)
    ensures res.status == 405 <==> req.verb != "POST"
    ensures res.status == 405 ==> res.payload == ErrorPayload(Text(MSG_POST_ONLY))
    ensures res.status == 400 <==> req.verb == "POST" && req.body.Some? && !Truthy(req.body.value.item)
    ensures res.status == 400 ==> res.payload == ErrorPayload(Text(MSG_MISSING_ITEM))
    ensures res.status == 200 <==> res.payload.PricePayload?
  {
    if req.verb != "POST" then Response(405, ErrorPayload(Text(MSG_POST_ONLY)))
    else match req.body
      case None => Response(500, ErrorPayload(RuntimeText))
      case Some(body) =>
        if !Truthy(body.item) then Response(400, ErrorPayload(Text(MSG_MISSING_ITEM)))
        else match Priced(body.item.value, body.float, body.paintSeed, keyPresent, steam, csfloat)
          case Err(e) => Response(500, ErrorPayload(e))
          case Ok(expected) => Response(200, PricePayload(expected))
  }

  /** The handler, statement by statement, with its early returns. */
  method Handle(req: Request, keyPresent: bool, steam: SteamApi, csfloat: ListingsApi)
    returns (res: Response)
    ensures res == Respond(req, keyPresent, steam, csfloat)
  {
    if req.verb != "POST" {
      return Response(405, ErrorPayload(Text(MSG_POST_ONLY)));
    }
    if req.body.None? {
      return Response(500, ErrorPayload(RuntimeText));
    }
    var body := req.body.value;
    if !Truthy(body.item) {
      return Response(400, ErrorPayload(Text(MSG_MISSING_ITEM)));
    }

    var wear := DEFAULT_WEAR;
    if FloatTruthy(body.float) {
      var classified := ClassifyWear(body.float.value);
      if classified.Err? {
        return Response(500, ErrorPayload(classified.error));
      }
      wear := classified.value;
    }
    var hashName := Checker.MarketHashName(body.item.value, wear);

    var steamRes := steam(Checker.SteamQueryFor(hashName));
    if steamRes.SteamUnreachable? {
      return Response(500, ErrorPayload(RuntimeText));
    }
    if steamRes.SteamHttpError? {
      return Response(500, ErrorPayload(Text(MSG_STEAM_FAILED)));
    }
    var median := Num(steamRes.medianPrice);
    var lowest := Num(steamRes.lowestPrice);

    var floatAvg := Undefined;
    if keyPresent && FloatTruthy(body.float) {
      var csRes := csfloat(ListingsQueryFor(hashName, body.float.value, body.paintSeed));
      if csRes.ListingsUnreachable? {
        return Response(500, ErrorPayload(RuntimeText));
      }
      if csRes.ListingsBody? && |csRes.prices| > 0 {
        floatAvg := Finite(ReduceSum(csRes.prices) as real / 100.0 / |csRes.prices| as real);
      }
    }

    var expected := Expected(floatAvg, median, lowest);
    if expected.Undefined? {
      return Response(500, ErrorPayload(Text(MSG_NO_PRICE)));
    }
    return Response(200, PricePayload(expected));
  }

  /** A non-POST request is answered 405 and a POST without a truthy item 400, whatever the
      upstream services would have said. */
  lemma RejectsBeforePricing(req: Request, keyPresent: bool, steam: SteamApi, csfloat: ListingsApi,
                             keyPresent': bool, steam': SteamApi, csfloat': ListingsApi)
    requires req.verb != "POST" || (req.body.Some? && !Truthy(req.body.value.item))
    ensures Respond(req, keyPresent, steam, csfloat) == Respond(req, keyPresent', steam', csfloat')
    ensures req.verb != "POST" ==>
              Respond(req, keyPresent, steam, csfloat) == Response(405, ErrorPayload(Text(MSG_POST_ONLY)))
    ensures req.verb == "POST" ==>
              Respond(req, keyPresent, steam, csfloat) == Response(400, ErrorPayload(Text(MSG_MISSING_ITEM)))
  {
  }

  /** Every response is 200 with a price that is not `undefined`, or 400, 405 or 500 with an
      error; a 200 price comes first from the listings average, then the median, then the
      lowest price. */
  lemma RespondOutcome(req: Request, keyPresent: bool, steam: SteamApi, csfloat: ListingsApi)
    ensures var res := Respond(req, keyPresent, steam, csfloat);
      && (res.status == 200 <==> res.payload.PricePayload?)
      && (res.status == 200 || res.status == 400 || res.status == 405 || res.status == 500)
      && (res.status == 200 ==> !res.payload.expectedPrice.Undefined?)
    ensures var res := Respond(req, keyPresent, steam, csfloat);
      res.status == 200 ==>
        && req.verb == "POST" && req.body.Some? && Truthy(req.body.value.item)
        && var body := req.body.value;
           var wear := ChooseWear(body.float);
           wear.Ok? &&
           var hashName := Checker.MarketHashName(body.item.value, wear.value);
           var reply := steam(Checker.SteamQueryFor(hashName));
           reply.SteamBody? &&
           var floatAvg := FloatAverage(keyPresent, csfloat, hashName, body.float, body.paintSeed);
           floatAvg.Ok? &&
           res.payload.expectedPrice == Expected(floatAvg.value, Num(reply.medianPrice), Num(reply.lowestPrice))
  {
  }

  /** Without a key, or with a falsy float, the listings service is never consulted. */
  lemma ListingsNeedKeyAndFloat(req: Request, keyPresent: bool, steam: SteamApi,
                                csfloat: ListingsApi, csfloat': ListingsApi)
    requires !keyPresent || (req.body.Some? && !FloatTruthy(req.body.value.float))
    ensures Respond(req, keyPresent, steam, csfloat) == Respond(req, keyPresent, steam, csfloat')
  {
  }

  /** `??` passes `NaN` through: an unparsable median hides a good lowest price. */
  lemma NaNIsKept(lowest: JsValue)
    ensures Expected(Undefined, NaN, lowest) == NaN
  {
  }
}
