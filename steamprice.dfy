/** `parse_steam_price`: the first run of `[\d,.]` in a Steam price string, commas removed,
    read as Python's `float()` reads it (api/checker.py). */
module SteamPrice {
  import opened Common
  import opened Decimal

  /** The character class `[\d,.]` of `PRICE_RE`. */
  predicate IsPriceChar(c: char) {
    IsDigit(c) || c == ',' || c == '.'
  }

  predicate NoPriceChars(s: string) {
    forall k :: 0 <= k < |s| ==> !IsPriceChar(s[k])
  }

  predicate AllPriceChars(s: string) {
    forall k :: 0 <= k < |s| ==> IsPriceChar(s[k])
  }

  predicate DigitsAndCommas(s: string) {
    forall k :: 0 <= k < |s| ==> IsDigit(s[k]) || s[k] == ','
  }

  predicate DigitsAndDots(s: string) {
    forall k :: 0 <= k < |s| ==> IsDigit(s[k]) || s[k] == '.'
  }

  /** `t` occurs at `i` in `s` as the leftmost, longest run of price characters:
      exactly what `PRICE_RE.search(s)` matches. */
  predicate LeftmostMatch(s: string, i: nat, t: string) {
    && |t| > 0 && i + |t| <= |s| && s[i..i + |t|] == t
    && NoPriceChars(s[..i]) && AllPriceChars(t)
    && (i + |t| == |s| || !IsPriceChar(s[i + |t|]))
  }

  /** The index of the first price character of `s`, or `|s|` when there is none. */
  function TokenStart(s: string): (i: nat)
    ensures i <= |s| && NoPriceChars(s[..i])
    ensures i < |s| ==> IsPriceChar(s[i])
  {
    if |s| == 0 || IsPriceChar(s[0]) then 0
    else
      var i := 1 + TokenStart(s[1..]);
      assert s[..i] == [s[0]] + s[1..][..i - 1];
      i
  }

  /** The length of the run of price characters that `s` starts with. */
  function TokenRun(s: string): (n: nat)
    ensures n <= |s| && AllPriceChars(s[..n])
    ensures n < |s| ==> !IsPriceChar(s[n])
  {
    if |s| == 0 || !IsPriceChar(s[0]) then 0
    else
      var n := 1 + TokenRun(s[1..]);
      assert s[..n] == [s[0]] + s[1..][..n - 1];
      n
  }

  /** `PRICE_RE.search(s)`: the matched text, or `None` when nothing matches. */
  function Search(s: string): (r: Option<string>)
    ensures r.None? <==> NoPriceChars(s)
    ensures r.Some? ==> LeftmostMatch(s, TokenStart(s), r.value)
  {
    var i := TokenStart(s);
    if i == |s| then
      assert s[..i] == s;
      None
    else
      var n := TokenRun(s[i..]);
      assert s[i..][..n] == s[i..i + n];
      Some(s[i..i + n])
  }

  /** Any leftmost longest run is the one `Search` returns: the match is unique. */
  lemma SearchUnique(s: string, i: nat, t: string)
    requires LeftmostMatch(s, i, t)
    ensures TokenStart(s) == i && Search(s) == Some(t)
  {
    assert s[i] == t[0];
    var n := TokenRun(s[i..]);
    assert s[i..][..n] == t;
  }

  /** `str.replace(",", "")`. */
  function RemoveCommas(t: string): (r: string)
    ensures |r| <= |t|
    ensures forall k :: 0 <= k < |r| ==> r[k] != ','
    ensures AllPriceChars(t) ==> DigitsAndDots(r)
    ensures DigitsAndCommas(t) ==> AllDigits(r)
  {
    if |t| == 0 then ""
    else
      var init := RemoveCommas(t[..|t| - 1]);
      var last := t[|t| - 1];
      assert t == t[..|t| - 1] + [last];
      if last == ',' then init else init + [last]
  }

  lemma {:induction false} RemoveCommasAppend(a: string, b: string)
    ensures RemoveCommas(a + b) == RemoveCommas(a) + RemoveCommas(b)
  {
    if |b| > 0 {
      var b' := b[..|b| - 1];
      assert (a + b)[..|a + b| - 1] == a + b';
      assert (a + b)[|a + b| - 1] == b[|b| - 1];
      RemoveCommasAppend(a, b');
    } else {
      assert a + b == a;
    }
  }

  lemma RemoveCommasOfDigits(t: string)
    requires AllDigits(t)
    ensures RemoveCommas(t) == t
  {
    RemoveCommasNoop(t);
  }

  /** `t` has a single dot at `k` with digits on either side, and at least one digit in all. */
  predicate DotAt(t: string, k: nat) {
    k < |t| && t[k] == '.' && AllDigits(t[..k]) && AllDigits(t[k + 1..]) && |t| > 1
  }

  /** The strings of digits and dots that `float()` accepts. */
  predicate IsPyFloatLiteral(t: string) {
    (|t| > 0 && AllDigits(t)) || exists k: nat :: k < |t| && DotAt(t, k)
  }

  lemma {:induction false} RemoveCommasNoop(t: string)
    requires forall k :: 0 <= k < |t| ==> t[k] != ','
    ensures RemoveCommas(t) == t
  {
    if |t| > 0 {
      RemoveCommasNoop(t[..|t| - 1]);
      assert t == t[..|t| - 1] + [t[|t| - 1]];
    }
  }

  /** A dot with only digits before it can only be the end of the leading digit run. */
  lemma DotIsDigitRunEnd(t: string, k: nat)
    requires DotAt(t, k)
    ensures DigitRun(t) == k
  {
  }

  /** Python's `float()` on a string of digits and dots: the number it spells, or the
      `ValueError` it raises (on "", ".", "1.2.3" and the like). */
  function PyFloat(t: string): (r: Result<real, Error>)
    requires DigitsAndDots(t)
    ensures r.Ok? <==> IsPyFloatLiteral(t)
    ensures r.Err? ==> r.error == MalformedPrice(t)
    ensures |t| > 0 && AllDigits(t) ==> r == Ok(NatValue(t) as real)
    ensures forall k: nat :: DotAt(t, k) ==> r == Ok(DecimalValue(t[..k], t[k + 1..]))
  {
    var k := DigitRun(t);
    assert forall j: nat :: DotAt(t, j) ==> j == k by {
      forall j: nat | DotAt(t, j) ensures j == k { DotIsDigitRunEnd(t, j); }
    }
    if k == |t| then
      assert t[..k] == t;
      assert forall j: nat :: !DotAt(t, j);
      if k > 0 then Ok(NatValue(t) as real) else Err(MalformedPrice(t))
    else if AllDigits(t[k + 1..]) && |t| > 1 then
      assert DotAt(t, k);
      Ok(DecimalValue(t[..k], t[k + 1..]))
    else
      assert !AllDigits(t);
      Err(MalformedPrice(t))
  }

  /** `float(token.replace(",", ""))` for a matched token, wrapped as a present price. */
  function ParseToken(t: string): (r: Result<Option<real>, Error>)
    requires AllPriceChars(t)
    ensures r.Ok? <==> IsPyFloatLiteral(RemoveCommas(t))
    ensures r.Ok? ==> r.value.Some?
  {
    match PyFloat(RemoveCommas(t))
    case Ok(x) => Ok(Some(x))
    case Err(e) => Err(e)
  }

  /** `parse_steam_price`: `None` for a missing or empty field and for a field with no
      price characters; otherwise the parse of the first match. */
  function ParseSteamPrice(s: Option<string>): (r: Result<Option<real>, Error>)
    ensures r == Ok(None) <==> !Truthy(s) || NoPriceChars(s.value)
  {
    if !Truthy(s) then Ok(None)
    else match Search(s.value)
      case None => Ok(None)
      case Some(t) => ParseToken(t)
  }

  /** Whatever surrounds it, a field whose leftmost longest price run is `t` parses as `t`. */
  lemma ParseAtMatch(s: string, i: nat, t: string)
    requires LeftmostMatch(s, i, t)
    ensures ParseSteamPrice(Some(s)) == ParseToken(t)
  {
    SearchUnique(s, i, t);
  }

  lemma RemoveCommasGrouped(whole: string, frac: string)
    requires AllDigits(frac)
    ensures RemoveCommas(whole + "." + frac) == RemoveCommas(whole) + "." + frac
  {
    var dotFrac := "." + frac;
    assert forall k :: 0 <= k < |dotFrac| ==> dotFrac[k] != ',' by {
      forall k | 0 <= k < |dotFrac| ensures dotFrac[k] != ',' {
        if k > 0 { assert dotFrac[k] == frac[k - 1]; }
      }
    }
    RemoveCommasNoop(dotFrac);
    RemoveCommasAppend(whole, dotFrac);
    assert whole + "." + frac == whole + dotFrac;
    assert RemoveCommas(whole) + "." + frac == RemoveCommas(whole) + dotFrac;
  }

  /** `float("w.f")` is the decimal `w.f`. */
  lemma PyFloatDecimal(w: string, frac: string)
    requires AllDigits(w) && AllDigits(frac) && |frac| > 0
    ensures DigitsAndDots(w + "." + frac)
    ensures PyFloat(w + "." + frac) == Ok(DecimalValue(w, frac))
  {
    var u := w + "." + frac;
    var k := |w|;
    assert u[..k] == w && u[k + 1..] == frac;
    assert DotAt(u, k);
  }

  /** A grouped decimal `whole.frac` (commas allowed in `whole`) is the decimal it spells. */
  lemma ParseGroupedToken(whole: string, frac: string)
    requires DigitsAndCommas(whole) && AllDigits(frac) && |frac| > 0
    ensures AllPriceChars(whole + "." + frac) && AllDigits(RemoveCommas(whole))
    ensures ParseToken(whole + "." + frac) == Ok(Some(DecimalValue(RemoveCommas(whole), frac)))
  {
    var t := whole + "." + frac;
    forall k | 0 <= k < |t| ensures IsPriceChar(t[k]) {
      if k > |whole| { assert t[k] == frac[k - |whole| - 1]; }
    }
    RemoveCommasGrouped(whole, frac);
    PyFloatDecimal(RemoveCommas(whole), frac);
  }

  /** A price written `whole.frac` after a prefix without price characters reads as that
      decimal, with any thousands separators in `whole` ignored. */
  lemma ParseGroupedDecimal(pre: string, whole: string, frac: string, post: string)
    requires NoPriceChars(pre) && DigitsAndCommas(whole) && AllDigits(frac) && |frac| > 0
    requires |post| == 0 || !IsPriceChar(post[0])
    ensures AllDigits(RemoveCommas(whole))
    ensures ParseSteamPrice(Some(pre + whole + "." + frac + post))
         == Ok(Some(DecimalValue(RemoveCommas(whole), frac)))
  {
    var t := whole + "." + frac;
    var s := pre + t + post;
    assert s == pre + whole + "." + frac + post;
    ParseGroupedToken(whole, frac);
    assert s[..|pre|] == pre;
    assert s[|pre|..|pre| + |t|] == t;
    if |post| > 0 {
      assert s[|pre| + |t|] == post[0];
    }
    ParseAtMatch(s, |pre|, t);
  }

  /** A Steam dollar price `$d.c`. */
  function Dollars(d: string, c: string): string {
    "$" + d + "." + c
  }

  /** A dollar amount `$d.c` reads as the decimal d.c. */
  lemma ParseDollars(d: string, c: string)
    requires AllDigits(d) && AllDigits(c) && |c| > 0
    ensures ParseSteamPrice(Some(Dollars(d, c))) == Ok(Some(DecimalValue(d, c)))
  {
    RemoveCommasOfDigits(d);
    ParseGroupedDecimal("$", d, c, "");
    assert "$" + d + "." + c + "" == "$" + d + "." + c;
  }

  lemma RemoveCommasOfComma()
    ensures RemoveCommas(",") == ""
  {
    assert ","[..0] == "";
  }

  /** A thousands comma between two digit groups disappears. */
  lemma RemoveGroupComma(a: string, b: string)
    requires AllDigits(a) && AllDigits(b)
    ensures RemoveCommas(a + "," + b) == a + b
  {
    var comma := ",";
    var commaB := comma + b;
    assert RemoveCommas(commaB) == b by {
      RemoveCommasOfComma();
      RemoveCommasOfDigits(b);
      RemoveCommasAppend(comma, b);
    }
    assert RemoveCommas(a + commaB) == a + b by {
      RemoveCommasOfDigits(a);
      RemoveCommasAppend(a, commaB);
    }
    assert a + "," + b == a + commaB;
  }

  lemma ThousandsValue()
    ensures RemoveCommas("1,234") == "1234"
  {
    RemoveGroupComma("1", "234");
    assert "1" + "," + "234" == "1,234";
    assert "1" + "234" == "1234";
  }

  lemma DecimalExample()
    ensures DecimalValue("1234", "56") == 1234.56
  {
    assert NatValue("1234") == 1234 by {
      assert "1234"[..3] == "123" && "123"[..2] == "12" && "12"[..1] == "1";
    }
    assert NatValue("56") == 56 by {
      assert "56"[..1] == "5";
    }
    assert Pow10(2) == 100;
  }

  /** `parse_steam_price("$1,234.56")` is 1234.56. */
  lemma ParseThousandsExample()
    ensures ParseSteamPrice(Some("$1,234.56")) == Ok(Some(1234.56))
  {
    ThousandsValue();
    DecimalExample();
    assert "$" + "1,234" + "." + "56" + "" == "$1,234.56";
    ParseGroupedDecimal("$", "1,234", "56", "");
  }

  /** Absent, empty and digit-free fields read as `None`; a second dot makes `float()` raise. */
  lemma ParseEdgeExamples()
    ensures ParseSteamPrice(None) == Ok(None)
    ensures ParseSteamPrice(Some("")) == Ok(None)
    ensures ParseSteamPrice(Some("free")) == Ok(None)
    ensures ParseSteamPrice(Some("1.2.3")).Err?
  {
    var s := "1.2.3";
    assert NoPriceChars("free");
    assert RemoveCommas(s) == s by {
      RemoveCommasNoop(s);
    }
    assert !IsPyFloatLiteral(s) by {
      assert !AllDigits(s) by { assert s[1] == '.'; }
      forall k: nat | k < |s| ensures !DotAt(s, k) {
        if k < 3 {
          assert !AllDigits(s[k + 1..]) by { assert s[k + 1..][2 - k] == s[3]; }
        } else {
          assert !AllDigits(s[..k]) by { assert s[..k][1] == s[1]; }
        }
      }
    }
    assert LeftmostMatch(s, 0, s);
    ParseAtMatch(s, 0, s);
  }
}
