/** The product-management page: the suggested next product code, and the
    form state that loading, editing and submitting a product update. */
module ManageProducts {
  import opened Wrappers
  import opened Digits

  // ---------------------------------------------------------------------------
  // Product codes
  // ---------------------------------------------------------------------------

  /** Start of the run of digits that ends just before position `end`. */
  function DigitRunStart(s: string, end: nat): (k: nat)
    requires end <= |s|
    ensures k <= end
    ensures forall i :: k <= i < end ==> IsDigit(s[i])
    ensures k == 0 || !IsDigit(s[k - 1])
  {
    if end == 0 || !IsDigit(s[end - 1]) then end else DigitRunStart(s, end - 1)
  }

  /** Start of the run of non-digits that ends just before position `end`. */
  function NonDigitRunStart(s: string, end: nat): (j: nat)
    requires end <= |s|
    ensures j <= end
    ensures forall i :: j <= i < end ==> !IsDigit(s[i])
    ensures j == 0 || IsDigit(s[j - 1])
  {
    if end == 0 || IsDigit(s[end - 1]) then end else NonDigitRunStart(s, end - 1)
  }

  /** The regular expression `(\D*)(\d+)$` matches `s` starting at `p`, with
      group 1 = `s[p..m]` and group 2 = `s[m..]`. */
  ghost predicate RegexMatchesAt(s: string, p: int, m: int) {
    0 <= p <= m < |s| && NoDigits(s[p..m]) && AllDigits(s[m..])
  }

  /** Where `lastCode.match(/(\D*)(\d+)$/)` finds its match: `Some((j, k))` when
      group 1 is `s[j..k]` and group 2 is `s[k..]`, `None` when there is no match. */
  function TrailingCodeMatch(s: string): (m: Option<(nat, nat)>)
    ensures m.Some? ==> m.value.0 <= m.value.1 < |s| && AllDigits(s[m.value.1..])
  {
    var k := DigitRunStart(s, |s|);
    if k == |s| then None else Some((NonDigitRunStart(s, k), k))
  }

  /** `TrailingCodeMatch` is what the unanchored regular expression finds: there is
      a match exactly when the string ends in a digit; the leftmost position where
      the expression matches is the start of the non-digit run just before the
      trailing digits, and at that position the split between the groups is forced. */
  lemma TrailingCodeMatchIsLeftmostMatch(s: string)
    ensures TrailingCodeMatch(s).None? <==> forall p, m :: !RegexMatchesAt(s, p, m)
    ensures TrailingCodeMatch(s).Some? ==>
              var (j, k) := TrailingCodeMatch(s).value;
              && RegexMatchesAt(s, j, k)
              && (forall p, m :: RegexMatchesAt(s, p, m) ==> j <= p)
              && (forall m :: RegexMatchesAt(s, j, m) ==> m == k)
  {
    var k := DigitRunStart(s, |s|);
    if k == |s| {
      forall p, m | 0 <= p <= m < |s| ensures !RegexMatchesAt(s, p, m) {
        assert s[m..][|s| - 1 - m] == s[|s| - 1];
      }
    } else {
      var j := NonDigitRunStart(s, k);
      forall i | 0 <= i < k - j ensures !IsDigit(s[j..k][i]) {
        assert s[j..k][i] == s[j + i];
      }
      forall i | 0 <= i < |s| - k ensures IsDigit(s[k..][i]) {
        assert s[k..][i] == s[k + i];
      }
      assert RegexMatchesAt(s, j, k);
      forall p, m | 0 <= p < j && p <= m < |s| ensures !RegexMatchesAt(s, p, m) {
        if m < j {
          assert s[m..][k - 1 - m] == s[k - 1];
        } else {
          assert s[p..m][j - 1 - p] == s[j - 1];
        }
      }
      forall m | j <= m < |s| && m != k ensures !RegexMatchesAt(s, j, m) {
        if m < k {
          assert s[m..][0] == s[m];
        } else {
          assert s[j..m][k - j] == s[k];
        }
      }
    }
  }

  /** Every character of `d` is `9`. */
  predicate AllNines(d: string) { forall i :: 0 <= i < |d| ==> d[i] == '9' }

  /** A digit string has the largest value of its width exactly when it is all nines. */
  lemma {:induction false} AllNinesIsLargest(d: string)
    requires AllDigits(d)
    ensures DigitsValue(d) + 1 == Pow10(|d|) <==> AllNines(d)
  {
    if d != [] {
      var init := d[..|d| - 1];
      AllNinesIsLargest(init);
      var last := DigitValue(d[|d| - 1]);
      assert DigitsValue(d) == DigitsValue(init) * 10 + last;
      if DigitsValue(d) + 1 == Pow10(|d|) {
        assert DigitsValue(init) < Pow10(|d| - 1);
        assert last == 9 && DigitsValue(init) + 1 == Pow10(|d| - 1);
        assert forall i :: 0 <= i < |d| - 1 ==> d[i] == init[i];
      }
    }
  }

  /** Padding a digit string with zeros keeps it a digit string of the same value. */
  lemma PadStartZeros(dec: string, width: nat)
    requires AllDigits(dec)
    ensures AllDigits(PadStart(dec, width, '0'))
    ensures DigitsValue(PadStart(dec, width, '0')) == DigitsValue(dec)
  {
    var e := PadStart(dec, width, '0');
    PadStartShape(dec, width, '0');
    assert e == e[..|e| - |dec|] + dec;
    LeadingZeros(e[..|e| - |dec|], dec);
  }

  /** One more than a `w`-digit value needs at most `w + 1` digits, and needs
      `w + 1` exactly when the digits were all nines. */
  lemma {:induction false} SuccessorWidth(d: string)
    requires |d| > 0 && AllDigits(d)
    ensures |NatToDecimal(DigitsValue(d) + 1)| <= |d| + 1
    ensures |NatToDecimal(DigitsValue(d) + 1)| > |d| <==> AllNines(d)
  {
    var n := DigitsValue(d) + 1;
    DigitsValueBound(d);
    DecimalWidth(n, |d|);
    DecimalWidth(n, |d| + 1);
    assert Pow10(|d| + 1) == 10 * Pow10(|d|);
    AllNinesIsLargest(d);
  }

  /** The digit group after one increment: `String(parseInt(d, 10) + 1).padStart(|d|, "0")`.
      It is a digit string at least as wide as `d`; `IncrementDigitsCounts` gives
      its value and exact width. */
  function IncrementDigits(d: string): (e: string)
    requires |d| > 0 && AllDigits(d)
    ensures AllDigits(e) && |e| >= |d|
  {
    var dec := NatToDecimal(DigitsValue(d) + 1);
    PadStartZeros(dec, |d|);
    PadStart(dec, |d|, '0')
  }

  /** `IncrementDigits` spelled out for a known successor value `n`. */
  lemma IncrementDigitsOf(d: string, n: nat)
    requires |d| > 0 && AllDigits(d) && n == DigitsValue(d) + 1
    ensures IncrementDigits(d) == PadStart(NatToDecimal(n), |d|, '0')
  {
  }

  /** The incremented group's value is one more, it keeps the width of `d`, and it
      is one digit wider exactly when `d` was all nines. */
  lemma IncrementDigitsCounts(d: string)
    requires |d| > 0 && AllDigits(d)
    ensures DigitsValue(IncrementDigits(d)) == DigitsValue(d) + 1
    ensures |IncrementDigits(d)| == if AllNines(d) then |d| + 1 else |d|
  {
    var n := DigitsValue(d) + 1;
    PadStartZeros(NatToDecimal(n), |d|);
    NatToDecimalReadsBack(n);
    SuccessorWidth(d);
  }

  /** `generateNextProductCode(lastCode)`: the non-digit run before the trailing
      digits, then those digits incremented; `"P001"` when the code does not end in
      a digit. The result always ends in a digit. */
  function NextProductCode(lastCode: string): (code: string)
    ensures |code| > 0 && IsDigit(code[|code| - 1])
  {
    match TrailingCodeMatch(lastCode)
    case None => "P001"
    case Some((j, k)) =>
      var e := IncrementDigits(lastCode[k..]);
      assert IsDigit(e[|e| - 1]);
      lastCode[j..k] + e
  }

  /** `DigitRunStart` finds the start of the run: any position `a` that begins a
      digit run ending at `end` is the one it returns. */
  lemma {:induction false} DigitRunStartIs(s: string, end: nat, a: nat)
    requires a <= end <= |s|
    requires forall i :: a <= i < end ==> IsDigit(s[i])
    requires a == 0 || !IsDigit(s[a - 1])
    ensures DigitRunStart(s, end) == a
  {
    if end > a {
      DigitRunStartIs(s, end - 1, a);
    }
  }

  lemma {:induction false} NonDigitRunStartIs(s: string, end: nat, a: nat)
    requires a <= end <= |s|
    requires forall i :: a <= i < end ==> !IsDigit(s[i])
    requires a == 0 || IsDigit(s[a - 1])
    ensures NonDigitRunStart(s, end) == a
  {
    if end > a {
      NonDigitRunStartIs(s, end - 1, a);
    }
  }

  /** A code made of a non-digit prefix and a non-empty digit group is matched
      with exactly that split. */
  lemma SplitsAt(code: string, prefix: string, digits: string)
    requires code == prefix + digits
    requires NoDigits(prefix) && |digits| > 0 && AllDigits(digits)
    ensures TrailingCodeMatch(code) == Some((0, |prefix|))
    ensures code[..|prefix|] == prefix && code[|prefix|..] == digits
  {
    assert forall i :: 0 <= i < |prefix| ==> code[i] == prefix[i];
    assert forall i :: |prefix| <= i < |code| ==> code[i] == digits[i - |prefix|];
    DigitRunStartIs(code, |code|, |prefix|);
    NonDigitRunStartIs(code, |prefix|, 0);
  }

  /** Reading the suggested code back with the same regular expression gives the
      old prefix and a number one larger, at least as wide as before; so repeated
      suggestions count up under one prefix. */
  lemma NextProductCodeCountsUp(lastCode: string, j: nat, k: nat)
    requires TrailingCodeMatch(lastCode) == Some((j, k))
    ensures var next := NextProductCode(lastCode);
            && TrailingCodeMatch(next) == Some((0, k - j))
            && next[..k - j] == lastCode[j..k]
            && DigitsValue(next[k - j..]) == DigitsValue(lastCode[k..]) + 1
            && |next[k - j..]| >= |lastCode[k..]|
  {
    NextProductCodeOfMatch(lastCode, j, k);
    var prefix := lastCode[j..k];
    var e := IncrementDigits(lastCode[k..]);
    IncrementDigitsCounts(lastCode[k..]);
    MatchedPrefixHasNoDigits(lastCode, j, k);
    assert |e| >= |lastCode[k..]| > 0 && AllDigits(e);
    SplitsAt(prefix + e, prefix, e);
  }

  /** Group 1 of a match holds no digit. */
  lemma MatchedPrefixHasNoDigits(s: string, j: nat, k: nat)
    requires TrailingCodeMatch(s) == Some((j, k))
    ensures NoDigits(s[j..k])
  {
    assert j == NonDigitRunStart(s, k);
    forall i | 0 <= i < k - j
      ensures !IsDigit(s[j..k][i])
    {
      assert s[j..k][i] == s[j + i];
    }
  }

  /** A code that does not end in a digit, the empty code included, is followed by `"P001"`,
      whose own digit group reads back as 1 under the prefix `"P"`. */
  lemma NoTrailingDigitGivesP001(lastCode: string)
    requires |lastCode| == 0 || !IsDigit(lastCode[|lastCode| - 1])
    ensures NextProductCode(lastCode) == "P001"
    ensures TrailingCodeMatch("P001") == Some((0, 1)) && DigitsValue("P001"[1..]) == 1
  {
    SplitsAt("P001", "P", "001");
    assert DigitsValue("001") == 1 by {
      assert "001"[..2] == "00";
      assert "00"[..1] == "0";
      assert "0"[..0] == "";
    }
  }

  lemma NextProductCodeOfMatch(s: string, j: nat, k: nat)
    requires TrailingCodeMatch(s) == Some((j, k))
    ensures NextProductCode(s) == s[j..k] + IncrementDigits(s[k..])
  {
  }

  /** The kept prefix is only the non-digit run directly before the trailing digits:
      whatever precedes that run (ending in a digit) is dropped. */
  lemma NextProductCodeDropsLeadingPart(s: string, head: string, prefix: string, digits: string)
    requires s == head + prefix + digits
    requires head == [] || (|prefix| > 0 && IsDigit(head[|head| - 1]))
    requires NoDigits(prefix) && |digits| > 0 && AllDigits(digits)
    ensures NextProductCode(s) == prefix + IncrementDigits(digits)
  {
    MatchAfterHead(s, head, prefix, digits);
    NextProductCodeOfMatch(s, |head|, |head| + |prefix|);
  }

  /** A code made of any head ending in a digit, a non-digit prefix and a digit
      group is matched at the prefix. */
  lemma MatchAfterHead(s: string, head: string, prefix: string, digits: string)
    requires s == head + prefix + digits
    requires head == [] || (|prefix| > 0 && IsDigit(head[|head| - 1]))
    requires NoDigits(prefix) && |digits| > 0 && AllDigits(digits)
    ensures TrailingCodeMatch(s) == Some((|head|, |head| + |prefix|))
    ensures s[|head|..|head| + |prefix|] == prefix && s[|head| + |prefix|..] == digits
  {
    var j, k := |head|, |head| + |prefix|;
    forall i | k <= i < |s| ensures IsDigit(s[i]) {
      assert s[i] == digits[i - k];
    }
    forall i | j <= i < k ensures !IsDigit(s[i]) {
      assert s[i] == (head + prefix)[i] == prefix[i - j];
    }
    assert s[j..k] == prefix && s[k..] == digits;
    if j > 0 {
      assert s[j - 1] == head[j - 1];
    }
    DigitRunStartIs(s, |s|, k);
    NonDigitRunStartIs(s, k, j);
  }

  lemma Value34()
    ensures DigitsValue("34") == 34
  {
    assert "34"[..1] == "3"; assert "3"[..0] == "";
  }

  lemma Decimal35()
    ensures NatToDecimal(35) == "35"
  {
    assert NatToDecimal(3) == "3";
  }

  lemma IncrementDigits34()
    ensures IncrementDigits("34") == "35"
  {
    Value34();
    Decimal35();
    assert PadStart("35", 2, '0') == "35";
  }

  lemma Value000()
    ensures DigitsValue("000") == 0
  {
    assert "000"[..2] == "00"; assert "00"[..1] == "0"; assert "0"[..0] == "";
  }

  lemma IncrementDigits000()
    ensures IncrementDigits("000") == "001"
  {
    Value000();
    assert NatToDecimal(1) == "1";
    assert Repeat('0', 2) == "00";
    assert PadStart("1", 3, '0') == "001";
  }

  /** Only the non-digit run before the trailing digits is kept. */
  lemma NextProductCodeMixedExample()
    ensures NextProductCode("AB12CD34") == "CD35"
  {
    MatchAB12CD34();
    NextProductCodeOfMatch("AB12CD34", 4, 6);
    IncrementDigits34();
  }

  lemma MatchAB12CD34()
    ensures TrailingCodeMatch("AB12CD34") == Some((4, 6))
    ensures "AB12CD34"[4..6] == "CD" && "AB12CD34"[6..] == "34"
  {
    DigitRunStartIs("AB12CD34", 8, 6);
    NonDigitRunStartIs("AB12CD34", 6, 4);
  }

  /** `10^n` is spelled as a one followed by `n` zeros. */
  lemma {:induction false} PowerOfTenSpelling(n: nat)
    ensures NatToDecimal(Pow10(n)) == "1" + Repeat('0', n)
  {
    if n > 0 {
      PowerOfTenSpelling(n - 1);
      PowAtLeastTen(n);
      assert Pow10(n) / 10 == Pow10(n - 1) && Pow10(n) % 10 == 0;
      assert DigitChar(0) == '0';
    }
  }

  /** The digit group widens when it overflows: a run of nines becomes a one and as
      many zeros. */
  lemma NextProductCodeOverflow(prefix: string, nines: string)
    requires NoDigits(prefix) && |nines| > 0 && AllNines(nines)
    ensures NextProductCode(prefix + nines) == prefix + "1" + Repeat('0', |nines|)
  {
    assert AllDigits(nines);
    var code := prefix + nines;
    SplitsAt(code, prefix, nines);
    assert code[0..|prefix|] == prefix;
    NextProductCodeOfMatch(code, 0, |prefix|);
    IncrementNines(nines);
  }

  /** Incrementing a run of nines gives a one followed by as many zeros. */
  lemma IncrementNines(nines: string)
    requires |nines| > 0 && AllNines(nines)
    ensures AllDigits(nines) && IncrementDigits(nines) == "1" + Repeat('0', |nines|)
  {
    assert AllDigits(nines);
    AllNinesIsLargest(nines);
    var k := |nines|;
    IncrementDigitsOf(nines, Pow10(k));
    PowerOfTenSpelling(k);
    var dec := "1" + Repeat('0', k);
    assert PadStart(dec, k, '0') == dec;
  }

  lemma MatchP000()
    ensures TrailingCodeMatch("P000") == Some((0, 1))
    ensures "P000"[0..1] == "P" && "P000"[1..] == "000"
  {
    SplitsAt("P000", "P", "000");
  }

  /** The seed `"P000"` of an empty product list gives `"P001"`. */
  lemma NextProductCodeSeedExample()
    ensures NextProductCode("P000") == "P001"
  {
    MatchP000();
    NextProductCodeOfMatch("P000", 0, 1);
    IncrementDigits000();
  }

  // ---------------------------------------------------------------------------
  // Form state of the page
  // ---------------------------------------------------------------------------

  datatype Unit = Unit(unitId: int, unitName: string)

  datatype Product = Product(
    productId: int,
    productName: string,
    productCode: string,
    unit: Option<Unit>,
    quantity: real,
    buyingPrice: real,
    sellingPriceRetail: real,
    sellingPriceWholesale: real)

  /** The value of a number input: blank, or a number (`Number(x || 0)` reads blank as 0). */
  datatype NumInput = Blank | Entered(value: real)

  datatype FormData = FormData(
    productName: string,
    productCode: string,
    unitName: string,
    quantity: NumInput,
    buyingPrice: NumInput,
    sellingPriceRetail: NumInput,
    sellingPriceWholesale: NumInput)

  /** The body sent to the create and update endpoints. */
  datatype ProductData = ProductData(
    productName: string,
    productCode: string,
    unit: Unit,
    quantity: real,
    buyingPrice: real,
    sellingPriceRetail: real,
    sellingPriceWholesale: real)

  datatype ProductRequest = CreateProduct(data: ProductData) | UpdateProduct(id: int, data: ProductData)

  /** What a list endpoint answered: a body that is an array (`Some`) or one that is
      not (`None`: null, undefined or any other value), or a failed request. */
  datatype Fetch<T> = Fetched(data: Option<seq<T>>) | FetchFailed

  /** Whether an awaited create or update call resolved or threw. */
  datatype CallOutcome = CallSucceeded | CallFailed

  /** One edit of a form input (`handleChange`); the product code input is disabled. */
  datatype FieldEdit =
    | ProductNameEdit(name: string)
    | UnitNameEdit(unitName: string)
    | QuantityEdit(quantity: NumInput)
    | BuyingPriceEdit(buyingPrice: NumInput)
    | RetailPriceEdit(retailPrice: NumInput)
    | WholesalePriceEdit(wholesalePrice: NumInput)

  const EmptyFormData := FormData("", "", "", Blank, Blank, Blank, Blank)
  const DefaultProductName := "Unnamed Product"
  const SeedCode := "P000"
  const LoadProductsError := "Failed to load products. Please try again later."
  const LoadUnitsError := "Failed to load units. Please try again later."
  const NoUnitsError := "No units available. Please add a unit first."
  const SubmitError := "Failed to submit product. Please try again later."

  /** The code `loadProducts` increments: the last product's code, or the seed for an
      empty list. */
  function StartingCode(products: seq<Product>): (code: string)
    ensures products == [] ==> code == SeedCode
    ensures products != [] ==> code == products[|products| - 1].productCode
  {
    if |products| > 0 then products[|products| - 1].productCode else SeedCode
  }

  /** The code `handleSubmit` increments: the last product's code unless it is blank
      or the list is empty, then the seed. */
  function SubmitStartingCode(products: seq<Product>): (code: string)
    ensures code != ""
    ensures products != [] && products[|products| - 1].productCode != "" ==>
              code == products[|products| - 1].productCode
    ensures !(products != [] && products[|products| - 1].productCode != "") ==> code == SeedCode
  {
    if |products| > 0 && products[|products| - 1].productCode != "" then
      products[|products| - 1].productCode
    else SeedCode
  }

  /** The two starting-code rules suggest the same next code: a blank last code and
      the seed both lead to `"P001"`. */
  lemma StartingCodeRulesAgree(products: seq<Product>)
    ensures NextProductCode(StartingCode(products)) == NextProductCode(SubmitStartingCode(products))
  {
    if products != [] && products[|products| - 1].productCode == "" {
      NoTrailingDigitGivesP001("");
      NextProductCodeSeedExample();
    }
  }

  /** An empty product list suggests `"P001"`. */
  lemma EmptyListSuggestsP001()
    ensures NextProductCode(StartingCode([])) == "P001"
  {
    NextProductCodeSeedExample();
  }

  /** `units.find(u => u.unitName === name) || units[0]`: the first unit with the
      selected name, else the first unit, else nothing. */
  function SelectedUnit(units: seq<Unit>, name: string): (u: Option<Unit>)
    ensures u.None? <==> units == []
    ensures u.Some? ==> u.value in units
    ensures (exists i :: 0 <= i < |units| && units[i].unitName == name) ==>
              u.Some? && u.value.unitName == name
              && exists i :: 0 <= i < |units| && units[i] == u.value
                             && forall j :: 0 <= j < i ==> units[j].unitName != name
    ensures (forall i :: 0 <= i < |units| ==> units[i].unitName != name) && units != [] ==>
              u == Some(units[0])
  {
    match FindUnit(units, name)
    case Some(v) => Some(v)
    case None => if |units| > 0 then Some(units[0]) else None
  }

  function FindUnit(units: seq<Unit>, name: string): (u: Option<Unit>)
    ensures u.Some? ==> u.value in units && u.value.unitName == name
    ensures u.Some? ==> exists i :: 0 <= i < |units| && units[i] == u.value
                                    && forall j :: 0 <= j < i ==> units[j].unitName != name
    ensures u.None? <==> forall i :: 0 <= i < |units| ==> units[i].unitName != name
  {
    if units == [] then None
    else if units[0].unitName == name then Some(units[0])
    else
      var u := FindUnit(units[1..], name);
      if u.Some? then
        assert forall j :: 1 <= j < |units| ==> units[j] == units[1..][j - 1];
        u
      else u
  }

  /** `Number(x || 0)` of a number input. */
  function NumberOr0(x: NumInput): (r: real)
    ensures x.Blank? ==> r == 0.0
    ensures x.Entered? ==> r == x.value
  {
    match x
    case Blank => 0.0
    case Entered(v) => v
  }

  /** The payload `handleSubmit` assembles: a blank name becomes "Unnamed Product",
      a blank code becomes the next suggested code, blank numbers become 0. Neither
      the name nor the code of the payload is ever blank. */
  function ProductPayload(form: FormData, unit: Unit, products: seq<Product>): (data: ProductData)
    ensures data.productName != "" && data.productCode != ""
    ensures form.productName != "" ==> data.productName == form.productName
    ensures form.productName == "" ==> data.productName == DefaultProductName
    ensures form.productCode != "" ==> data.productCode == form.productCode
    ensures form.productCode == "" ==> data.productCode == NextProductCode(SubmitStartingCode(products))
    ensures data.unit == unit
    ensures data.quantity == NumberOr0(form.quantity) && data.buyingPrice == NumberOr0(form.buyingPrice)
    ensures data.sellingPriceRetail == NumberOr0(form.sellingPriceRetail)
    ensures data.sellingPriceWholesale == NumberOr0(form.sellingPriceWholesale)
  {
    ProductData(
      if form.productName != "" then form.productName else DefaultProductName,
      if form.productCode != "" then form.productCode else NextProductCode(SubmitStartingCode(products)),
      unit,
      NumberOr0(form.quantity),
      NumberOr0(form.buyingPrice),
      NumberOr0(form.sellingPriceRetail),
      NumberOr0(form.sellingPriceWholesale))
  }
  /** The request `handleSubmit` sends for a form: none when no unit can be
      selected; otherwise the defaulted payload, as an update of the product being
      edited when an identifier is set, else as a create. */
  function SubmitRequest(form: FormData, units: seq<Unit>, products: seq<Product>,
                         editing: Option<int>): (r: Option<ProductRequest>)
    ensures r.None? <==> units == []
    ensures r.Some? ==> (r.value.UpdateProduct? <==> Truthy(editing))
    ensures r.Some? && r.value.UpdateProduct? ==> editing == Some(r.value.id)
    ensures r.Some? ==> r.value.data.unit in units && r.value.data.productName != ""
                        && r.value.data.productCode != ""
    ensures r.Some? ==> r.value.data == ProductPayload(form, SelectedUnit(units, form.unitName).value, products)
  {
    match SelectedUnit(units, form.unitName)
    case None => None
    case Some(unit) =>
      var data := ProductPayload(form, unit, products);
      Some(if Truthy(editing) then UpdateProduct(editing.value, data) else CreateProduct(data))
  }

  /** `product.unit?.unitName || (units[0]?.unitName || "")`. */
  function EditUnitName(product: Product, units: seq<Unit>): (name: string)
    ensures product.unit.Some? && product.unit.value.unitName != "" ==> name == product.unit.value.unitName
    ensures !(product.unit.Some? && product.unit.value.unitName != "") && units != [] ==> name == units[0].unitName
    ensures !(product.unit.Some? && product.unit.value.unitName != "") && units == [] ==> name == ""
  {
    if product.unit.Some? && product.unit.value.unitName != "" then product.unit.value.unitName
    else if |units| > 0 then units[0].unitName
    else ""
  }

  /** The state of the product-management page. */
  class ProductManager {
    var products: seq<Product>
    var units: seq<Unit>
    var formData: FormData
    var editingIdentifier: Option<int>
    var loading: bool
    var error: string

    constructor ()
      ensures products == [] && units == [] && formData == EmptyFormData
      ensures editingIdentifier == None && !loading && error == ""
    {
      products, units, formData := [], [], EmptyFormData;
      editingIdentifier, loading, error := None, false, "";
    }

    /** `loadProducts`: store the list (an answer that is not an array counts as
        empty) and suggest the code after the last product's; on failure keep the list
        and report the error. */
    method LoadProducts(response: Fetch<Product>)
      modifies this`products, this`formData, this`loading, this`error
      ensures !loading
      ensures response.FetchFailed? ==>
                products == old(products) && formData == old(formData) && error == LoadProductsError
      ensures response.Fetched? ==>
                && products == response.data.GetOr([])
                && formData == old(formData).(productCode := NextProductCode(StartingCode(products)))
                && error == old(error)
    {
      loading := true;
      if response.FetchFailed? {
        error := LoadProductsError;
      } else {
        StoreProducts(response.data.GetOr([]));
      }
      loading := false;
    }

    /** Keep the fetched list and suggest the code after its last product's. */
    method StoreProducts(data: seq<Product>)
      modifies this`products, this`formData
      ensures products == data
      ensures formData == old(formData).(productCode := NextProductCode(StartingCode(data)))
    {
      products := data;
      formData := formData.(productCode := NextProductCode(StartingCode(data)));
    }

    /** `loadUnits`: store the units and preselect the first one. */
    method LoadUnits(response: Fetch<Unit>)
      modifies this`units, this`formData, this`error
      ensures response.FetchFailed? ==>
                units == old(units) && formData == old(formData) && error == LoadUnitsError
      ensures response.Fetched? ==>
                && units == response.data.GetOr([])
                && formData == (if units != [] then old(formData).(unitName := units[0].unitName) else old(formData))
                && error == old(error)
    {
      match response
      case FetchFailed =>
        error := LoadUnitsError;
      case Fetched(body) =>
        var unitsData := if body.Some? then body.value else [];
        units := unitsData;
        if |unitsData| > 0 {
          formData := formData.(unitName := unitsData[0].unitName);
        }
    }

    /** `handleChange`: one input of the form takes a new value. */
    method HandleChange(edit: FieldEdit)
      modifies this`formData
      ensures formData == match edit
                case ProductNameEdit(v) => old(formData).(productName := v)
                case UnitNameEdit(v) => old(formData).(unitName := v)
                case QuantityEdit(v) => old(formData).(quantity := v)
                case BuyingPriceEdit(v) => old(formData).(buyingPrice := v)
                case RetailPriceEdit(v) => old(formData).(sellingPriceRetail := v)
                case WholesalePriceEdit(v) => old(formData).(sellingPriceWholesale := v)
    {
      match edit
      case ProductNameEdit(v) => formData := formData.(productName := v);
      case UnitNameEdit(v) => formData := formData.(unitName := v);
      case QuantityEdit(v) => formData := formData.(quantity := v);
      case BuyingPriceEdit(v) => formData := formData.(buyingPrice := v);
      case RetailPriceEdit(v) => formData := formData.(sellingPriceRetail := v);
      case WholesalePriceEdit(v) => formData := formData.(sellingPriceWholesale := v);
    }

    /** `handleSubmit`: without any unit, report it and send nothing. Otherwise send
        the defaulted payload, as an update when an identifier is being edited and as a
        create otherwise. After a successful call the form is cleared for the next
        product, and after a successful update the editing identifier is cleared; a
        failed call keeps the form and the identifier and reports the error.
        `request` is the call that was made. */
    method HandleSubmit(outcome: CallOutcome) returns (request: Option<ProductRequest>)
      modifies this`formData, this`editingIdentifier, this`loading, this`error
      ensures !loading
      ensures request == old(SubmitRequest(formData, units, products, editingIdentifier))
      ensures request.None? ==>
                error == NoUnitsError && formData == old(formData)
                && editingIdentifier == old(editingIdentifier)
      ensures request.Some? && outcome.CallFailed? ==>
                error == SubmitError && formData == old(formData)
                && editingIdentifier == old(editingIdentifier)
      ensures request.Some? && outcome.CallSucceeded? ==>
                && error == ""
                && formData == EmptyFormData.(productCode := NextProductCode(SubmitStartingCode(products)),
                                              unitName := request.value.data.unit.unitName)
                && editingIdentifier == (if Truthy(old(editingIdentifier)) then None else old(editingIdentifier))
    {
      loading := true;
      error := "";
      request := SubmitRequest(formData, units, products, editingIdentifier);
      if request.None? {
        error := NoUnitsError;
        loading := false;
        return;
      }
      if outcome.CallFailed? {
        error := SubmitError;
        loading := false;
        return;
      }
      if Truthy(editingIdentifier) {
        editingIdentifier := None;
      }
      ResetForm(request.value.data.unit.unitName);
      loading := false;
    }

    /** After a successful save the form is emptied, keeps the chosen unit and
        suggests the code after the last product's. */
    method ResetForm(unitName: string)
      modifies this`formData
      ensures formData == EmptyFormData.(productCode := NextProductCode(SubmitStartingCode(products)),
                                         unitName := unitName)
    {
      formData := EmptyFormData.(productCode := NextProductCode(SubmitStartingCode(products)),
                                 unitName := unitName);
    }

    /** `handleEdit`: remember which product is edited and copy its fields into the
        form, the unit falling back to the first unit's name and then to blank. */
    method HandleEdit(product: Product)
      modifies this`editingIdentifier, this`formData
      ensures editingIdentifier == Some(product.productId)
      ensures formData == FormData(product.productName, product.productCode, EditUnitName(product, units),
                                   Entered(product.quantity), Entered(product.buyingPrice),
                                   Entered(product.sellingPriceRetail), Entered(product.sellingPriceWholesale))
    {
      editingIdentifier := Some(product.productId);
      formData := FormData(product.productName, product.productCode, EditUnitName(product, units),
                           Entered(product.quantity), Entered(product.buyingPrice),
                           Entered(product.sellingPriceRetail), Entered(product.sellingPriceWholesale));
    }
  }
}
