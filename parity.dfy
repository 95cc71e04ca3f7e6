/** How the two copies of the price logic compare: where the handler (api/price.js) and the
    Python engine (api/checker.py) agree, and the inputs on which they part ways. */
module Parity {
  import opened Common
  import opened Decimal
  import opened SteamPrice
  import opened Upstream
  import Checker
  import PriceJs
  import Wear

  /** A Python optional price and a JavaScript value say the same thing: both absent, or
      both the same number. */
  predicate Same(py: Option<real>, js: PriceJs.JsValue) {
    (py.None? && js == PriceJs.Undefined) || (py.Some? && js == PriceJs.Finite(py.value))
  }

  /** A Python parse that succeeds and a JavaScript parse of the same field agree. */
  predicate Agrees(py: Result<Option<real>, Error>, js: PriceJs.JsValue) {
    py.Ok? && Same(py.value, js)
  }

  /** With agreeing signals, `floatAvg ?? median ?? lowest` succeeds exactly when the Python
      precedence loop does, and picks the same price. */
  lemma PrecedenceAgrees(s: Checker.Signals, floatAvg: PriceJs.JsValue, median: PriceJs.JsValue,
                         lowest: PriceJs.JsValue)
    requires Same(s.floatAdjusted, floatAvg) && Same(s.median, median) && Same(s.lowest, lowest)
    ensures Checker.Choose(s).Ok? <==> !PriceJs.Expected(floatAvg, median, lowest).Undefined?
    ensures Checker.Choose(s).Ok? ==>
              PriceJs.Expected(floatAvg, median, lowest) == PriceJs.Finite(Checker.Choose(s).value.expectedPrice)
  {
  }

  /** Wherever Python's `float()` accepts a string of digits and dots, `parseFloat` reads the
      same number from it. */
  lemma LiteralsAgree(lit: string)
    requires DigitsAndDots(lit) && IsPyFloatLiteral(lit)
    ensures PyFloat(lit).Ok? && PriceJs.JsParseFloat(lit) == PriceJs.Finite(PyFloat(lit).value)
  {
    if !AllDigits(lit) {
      var k: nat :| k < |lit| && DotAt(lit, k);
    }
  }

  /** Stripping a field with a single price run and nothing numeric around it leaves the run
      without its commas. */
  lemma StripSingleRun(pre: string, run: string, post: string)
    requires NoPriceChars(pre) && NoPriceChars(post) && AllPriceChars(run)
    ensures PriceJs.StripNonNumeric(pre + run + post) == RemoveCommas(run)
  {
    PriceJs.StripAppend(pre, run);
    PriceJs.StripAppend(pre + run, post);
    PriceJs.StripNothing(pre);
    PriceJs.StripNothing(post);
    PriceJs.StripPriceRun(run);
  }

  /** Python's search finds a single price run wherever it sits. */
  lemma SearchSingleRun(pre: string, run: string, post: string)
    requires NoPriceChars(pre) && NoPriceChars(post) && |run| > 0 && AllPriceChars(run)
    ensures ParseSteamPrice(Some(pre + run + post)) == ParseToken(run)
  {
    var s := pre + run + post;
    assert s[..|pre|] == pre && s[|pre|..|pre| + |run|] == run;
    if |post| > 0 {
      assert s[|pre| + |run|] == post[0];
    }
    ParseAtMatch(s, |pre|, run);
  }

  /** On a field that holds a single price run, with no digits, commas or dots around it,
      the two parsers read the same number whenever Python's `float()` accepts the run. */
  lemma ParsersAgreeOnSingleRun(pre: string, run: string, post: string)
    requires NoPriceChars(pre) && NoPriceChars(post)
    requires |run| > 0 && AllPriceChars(run) && IsPyFloatLiteral(RemoveCommas(run))
    ensures PyFloat(RemoveCommas(run)).Ok?
    ensures var v := PyFloat(RemoveCommas(run)).value;
      && ParseSteamPrice(Some(pre + run + post)) == Ok(Some(v))
      && PriceJs.Num(Some(pre + run + post)) == PriceJs.Finite(v)
  {
    SearchSingleRun(pre, run, post);
    StripSingleRun(pre, run, post);
    LiteralsAgree(RemoveCommas(run));
  }

  lemma OneValue()
    ensures NatValue("1") == 1
  {
  }

  /** A space as thousands separator, as in "1 234": Python stops at the space and reads only
      the first group, the handler deletes the space and reads both groups as one number, so
      the two differ whenever the first group is not zero. */
  lemma SpaceSeparatorDiverges(a: string, b: string)
    requires AllDigits(a) && AllDigits(b) && |a| > 0 && |b| > 0
    ensures ParseSteamPrice(Some(a + " " + b)) == Ok(Some(NatValue(a) as real))
    ensures PriceJs.Num(Some(a + " " + b)) == PriceJs.Finite(NatValue(a + b) as real)
    ensures NatValue(a) > 0 ==> NatValue(a + b) > NatValue(a)
  {
    SpacePython(a, b);
    SpaceHandler(a, b);
    SpaceReadingsDiffer(a, b);
  }

  lemma SpacePython(a: string, b: string)
    requires AllDigits(a) && |a| > 0
    ensures ParseSteamPrice(Some(a + " " + b)) == Ok(Some(NatValue(a) as real))
  {
    var rest := " " + b;
    assert a + " " + b == a + rest;
    assert ParseSteamPrice(Some(a + rest)) == Ok(Some(NatValue(a) as real)) by {
      assert rest[0] == ' ';
      ParseLeadingDigits(a, rest);
    }
  }

  lemma SpaceHandler(a: string, b: string)
    requires AllDigits(a) && AllDigits(b) && |a| > 0
    ensures PriceJs.Num(Some(a + " " + b)) == PriceJs.Finite(NatValue(a + b) as real)
  {
    StripSpaceGroup(a, b);
    assert AllDigits(a + b);
  }

  lemma SpaceReadingsDiffer(a: string, b: string)
    requires AllDigits(a) && AllDigits(b) && |b| > 0
    ensures NatValue(a) > 0 ==> NatValue(a + b) > NatValue(a)
  {
    NatValueAppend(a, b);
    assert Pow10(|b|) == 10 * Pow10(|b| - 1);
    ShiftGrows(NatValue(a), Pow10(|b|), NatValue(b));
  }

  lemma ShiftGrows(x: nat, p: nat, y: nat)
    requires p >= 10
    ensures x > 0 ==> x * p + y > x
  { }

  /** Python reads a field that starts with digits up to the first character that cannot be
      part of a price. */
  lemma ParseLeadingDigits(d: string, rest: string)
    requires AllDigits(d) && |d| > 0 && |rest| > 0 && !IsPriceChar(rest[0])
    ensures ParseSteamPrice(Some(d + rest)) == Ok(Some(NatValue(d) as real))
  {
    assert (d + rest)[..|d|] == d;
    assert LeftmostMatch(d + rest, 0, d);
    ParseAtMatch(d + rest, 0, d);
    RemoveCommasOfDigits(d);
  }

  /** Stripping deletes a space between two digit groups. */
  lemma StripSpaceGroup(a: string, b: string)
    requires AllDigits(a) && AllDigits(b)
    ensures PriceJs.StripNonNumeric(a + " " + b) == a + b
  {
    var space := " ";
    var spaceB := space + b;
    assert PriceJs.StripNonNumeric(spaceB) == b by {
      PriceJs.StripNothing(space);
      PriceJs.StripPriceRun(b);
      RemoveCommasOfDigits(b);
      PriceJs.StripAppend(space, b);
    }
    assert PriceJs.StripNonNumeric(a + spaceB) == a + b by {
      PriceJs.StripPriceRun(a);
      RemoveCommasOfDigits(a);
      PriceJs.StripAppend(a, spaceB);
    }
    assert a + " " + b == a + spaceB;
  }

  /** A field with no digits: Python reads no price, the handler reads `NaN`, which `??`
      then keeps as a price. */
  lemma DigitFreeFieldDiverges()
    ensures ParseSteamPrice(Some("$")) == Ok(None)
    ensures PriceJs.Num(Some("$")) == PriceJs.NaN
    ensures PriceJs.Expected(PriceJs.Undefined, PriceJs.Num(Some("$")), PriceJs.Finite(3.0)) == PriceJs.NaN
  {
    assert NoPriceChars("$");
    PriceJs.StripNothing("$");
  }

  /** A second dot: Python's `float()` raises, the handler reads the number up to the dot. */
  lemma SecondDotDiverges()
    ensures ParseSteamPrice(Some("1.2.3")).Err?
    ensures PriceJs.Num(Some("1.2.3")) == PriceJs.Finite(1.2)
  {
    ParseEdgeExamples();
    SecondDotHandler();
  }

  lemma OnePointTwo()
    ensures DecimalValue("1", "2") == 1.2
  {
    OneValue();
    assert NatValue("2") == 2;
    assert Pow10(1) == 10;
  }

  lemma SecondDotHandler()
    ensures PriceJs.Num(Some("1.2.3")) == PriceJs.Finite(1.2)
  {
    var s := "1.2.3";
    assert AllPriceChars(s);
    PriceJs.StripPriceRun(s);
    RemoveCommasNoop(s);
    assert "1" + "." + "2" + ".3" == s;
    PriceJs.JsParseFloatStopsAtDot("1", "2", ".3");
    OnePointTwo();
  }

  /** The two listing queries coincide except on a paint seed of 0, which Python sends and
      the handler, finding it falsy, leaves out. */
  lemma ListingsQueriesAgree(name: string, f: real, paintSeed: Option<int>)
    ensures paintSeed != Some(0) ==>
              Checker.ListingsQueryFor(name, f, paintSeed) == PriceJs.ListingsQueryFor(name, f, paintSeed)
    ensures Checker.ListingsQueryFor(name, f, Some(0)).paintSeed == Some(0)
    ensures PriceJs.ListingsQueryFor(name, f, Some(0)).paintSeed == None
  {
  }

  /** A float of exactly 0: both price Factory New, but Python classifies it and consults the
      listings, while the handler treats the float as falsy and never asks for listings. */
  lemma ZeroFloatDiverges(item: string, paintSeed: Option<int>, keyPresent: bool,
                          steam: SteamApi, csfloat: ListingsApi, csfloat': ListingsApi)
    ensures Checker.ChooseWear(None, Some(0.0)) == Ok("Factory New")
    ensures PriceJs.ChooseWear(Some(0.0)) == Ok("Factory New")
    ensures var q := Checker.PriceQuery(item, None, Some(0.0), paintSeed);
      Checker.Gather(q, true, steam, csfloat).Ok? ==>
        var reply := csfloat(Checker.ListingsQueryFor(Checker.MarketHashName(item, "Factory New"), 0.0, paintSeed));
        reply.ListingsBody? && Checker.Gather(q, true, steam, csfloat).value.floatAdjusted == Checker.FloatAdjusted(reply.prices)
    ensures var req := PriceJs.Request("POST", Some(PriceJs.Body(Some(item), Some(0.0), paintSeed)));
      PriceJs.Respond(req, keyPresent, steam, csfloat) == PriceJs.Respond(req, keyPresent, steam, csfloat')
  {
    Wear.ClassifyWearSpec(0.0);
    assert Wear.Contains(Wear.WearBuckets[0], 0.0);
    var q := Checker.PriceQuery(item, None, Some(0.0), paintSeed);
    if Checker.Gather(q, true, steam, csfloat).Ok? {
      Checker.FloatAdjustedFromListings(q, steam, csfloat);
    }
  }

  /** Steam's reply with its `success` flag forced on. */
  function Accepting(steam: SteamApi): SteamApi {
    sq => match steam(sq)
          case SteamBody(_, lowest, median) => SteamBody(true, lowest, median)
          case other => other
  }

  /** A `success: false` answer makes Python fail, while the handler ignores the flag. */
  lemma SuccessFlagDiverges(q: Checker.PriceQuery, keyPresent: bool, steam: SteamApi, csfloat: ListingsApi,
                            req: PriceJs.Request)
    ensures Checker.ChooseWear(q.wear, q.float).Ok? ==>
      var name := Checker.MarketHashName(q.item, Checker.ChooseWear(q.wear, q.float).value);
      (steam(Checker.SteamQueryFor(name)).SteamBody? && !steam(Checker.SteamQueryFor(name)).success) ==>
        Checker.Resolve(q, keyPresent, steam, csfloat) == Err(UpstreamRejected(name))
    ensures PriceJs.Respond(req, keyPresent, steam, csfloat) == PriceJs.Respond(req, keyPresent, Accepting(steam), csfloat)
  {
  }

  /** A listings request answered with an error status makes Python fail, while the handler
      carries on exactly as if it had no API key. */
  lemma ListingsErrorDiverges(q: Checker.PriceQuery, steam: SteamApi, csfloat: ListingsApi, req: PriceJs.Request)
    ensures q.float.Some? && Checker.ChooseWear(q.wear, q.float).Ok? ==>
      var name := Checker.MarketHashName(q.item, Checker.ChooseWear(q.wear, q.float).value);
      csfloat(Checker.ListingsQueryFor(name, q.float.value, q.paintSeed)).ListingsHttpError? ==>
        Checker.Resolve(q, true, steam, csfloat).Err?
    ensures req.body.Some? && PriceJs.ChooseWear(req.body.value.float).Ok? && Truthy(req.body.value.item) ==>
      var body := req.body.value;
      var name := Checker.MarketHashName(body.item.value, PriceJs.ChooseWear(body.float).value);
      (PriceJs.FloatTruthy(body.float) &&
       csfloat(PriceJs.ListingsQueryFor(name, body.float.value, body.paintSeed)).ListingsHttpError?) ==>
        PriceJs.Respond(req, true, steam, csfloat) == PriceJs.Respond(req, false, steam, csfloat)
  {
    if q.float.Some? && Checker.ChooseWear(q.wear, q.float).Ok? {
      var name := Checker.MarketHashName(q.item, Checker.ChooseWear(q.wear, q.float).value);
      if csfloat(Checker.ListingsQueryFor(name, q.float.value, q.paintSeed)).ListingsHttpError?
         && Checker.Gather(q, true, steam, csfloat).Ok? {
        Checker.FloatAdjustedFromListings(q, steam, csfloat);
      }
    }
  }

  /** An empty item: the handler answers 400 "Missing item" whatever the upstreams say, while
      the Python resolver goes on to ask Steam for the market name " (Factory New)", and its
      result then depends on that reply. The Python entry points reject an empty name before
      calling the resolver, so this is a difference between the resolver and the handler. */
  lemma EmptyItemDiverges(keyPresent: bool, steam: SteamApi, csfloat: ListingsApi)
    ensures PriceJs.Respond(PriceJs.Request("POST", Some(PriceJs.Body(Some(""), None, None))), keyPresent, steam, csfloat)
         == PriceJs.Response(400, PriceJs.ErrorPayload(PriceJs.Text(PriceJs.MSG_MISSING_ITEM)))
    ensures Checker.ChooseWear(None, None) == Ok("Factory New")
    ensures Checker.MarketHashName("", "Factory New") == " (Factory New)"
    ensures !steam(Checker.SteamQueryFor(" (Factory New)")).SteamBody? ==>
      Checker.Resolve(Checker.PriceQuery("", None, None, None), keyPresent, steam, csfloat) == Err(UpstreamUnavailable)
    ensures steam(Checker.SteamQueryFor(" (Factory New)")) == SteamBody(true, None, None) ==>
      Checker.Resolve(Checker.PriceQuery("", None, None, None), keyPresent, steam, csfloat) == Err(NoPriceAvailable)
  {
    assert Checker.MarketHashName("", "Factory New") == " (Factory New)";
  }

  /** Where the inputs avoid every divergence above (no wear given, a float that is absent or
      not 0, a paint seed that is not 0, Steam never refusing and every Steam field read the
      same by both parsers, listings never answered with an error status) and the item is not
      empty (Python prices an empty item as " (Factory New)", the handler answers 400), the
      handler answers 200 exactly when the Python resolver succeeds, with the same price. */
  lemma CopiesAgree(item: string, float: Option<real>, paintSeed: Option<int>, keyPresent: bool,
                    steam: SteamApi, csfloat: ListingsApi)
    requires item != "" && (float.None? || float.value != 0.0) && paintSeed != Some(0)
    requires forall sq :: steam(sq).SteamBody? ==>
      && steam(sq).success
      && Agrees(ParseSteamPrice(steam(sq).lowestPrice), PriceJs.Num(steam(sq).lowestPrice))
      && Agrees(ParseSteamPrice(steam(sq).medianPrice), PriceJs.Num(steam(sq).medianPrice))
    requires forall lq :: !csfloat(lq).ListingsHttpError?
    ensures var py := Checker.Resolve(Checker.PriceQuery(item, None, float, paintSeed), keyPresent, steam, csfloat);
      var js := PriceJs.Respond(PriceJs.Request("POST", Some(PriceJs.Body(Some(item), float, paintSeed))),
                                keyPresent, steam, csfloat);
      && (py.Ok? <==> js.status == 200)
      && (py.Ok? ==> js.payload == PriceJs.PricePayload(PriceJs.Finite(py.value.expectedPrice)))
  {
    var q := Checker.PriceQuery(item, None, float, paintSeed);
    var wear := Checker.ChooseWear(None, float);
    assert (wear.Ok? <==> PriceJs.ChooseWear(float).Ok?)
           && (wear.Ok? ==> wear.value == PriceJs.ChooseWear(float).value) by {
      if float.Some? {
        Wear.ClassifyWearSpec(float.value);
      }
    }
    if wear.Ok? {
      var name := Checker.MarketHashName(item, wear.value);
      var reply := steam(Checker.SteamQueryFor(name));
      if reply.SteamBody? {
        var lowest, median := ParseSteamPrice(reply.lowestPrice), ParseSteamPrice(reply.medianPrice);
        assert Agrees(lowest, PriceJs.Num(reply.lowestPrice));
        assert Agrees(median, PriceJs.Num(reply.medianPrice));
        var floatJs := PriceJs.FloatAverage(keyPresent, csfloat, name, float, paintSeed);
        if float.Some? && keyPresent {
          ListingsQueriesAgree(name, float.value, paintSeed);
          var lr := csfloat(Checker.ListingsQueryFor(name, float.value, paintSeed));
          if lr.ListingsBody? {
            assert floatJs == Ok(PriceJs.FloatAvg(lr.prices));
          }
        }
      }
    }
  }
}
