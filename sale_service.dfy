/**
 * The sale service of the store back end: saving a sale (mapping the request to
 * an entity, storing it and taking the sold quantities off the product stock),
 * mapping a stored sale back to its transfer object, and looking sales up by a
 * free-form identifier.
 */
module SaleService {
  import opened Wrappers
  import opened Digits

  /** A point in time; dates are carried along and never inspected. */
  datatype Timestamp = Timestamp(ticks: int)

  datatype Customer = Customer(customerId: int, customerName: string, mobileNumber: string, address: string)

  /** A stored product with its stock on hand. */
  datatype Product = Product(productId: int, productCode: string, productName: string, quantity: real)

  datatype SaleItem = SaleItem(itemId: Option<int>, product: Product, quantity: real, price: real, totalPrice: real)

  /** A stored sale. Payment mode and sale type hold the name of their enum constant. */
  datatype Sale = Sale(
    saleId: Option<int>,
    customer: Option<Customer>,
    saleDate: Timestamp,
    paymentMode: string,
    saleType: string,
    grossTotal: real,
    items: seq<SaleItem>)

  datatype CustomerDTO = CustomerDTO(customerId: int, customerName: string, mobileNumber: string, address: string)
  datatype ProductDTO = ProductDTO(productId: int, productCode: string, productName: string)
  datatype SaleItemDTO = SaleItemDTO(saleItemId: Option<int>, product: ProductDTO, quantity: real, price: real, totalPrice: real)

  datatype SaleDTO = SaleDTO(
    saleId: Option<int>,
    customer: Option<CustomerDTO>,
    saleDate: Option<Timestamp>,
    paymentMode: string,
    saleType: string,
    grossTotal: real,
    items: seq<SaleItemDTO>)

  /** The exceptions the service throws. */
  datatype SaleError =
    | MissingCustomer                  // the request has no customer to look up
    | CustomerNotFound
    | ProductNotFound
    | InsufficientStock(productName: string)
    | NoEnumConstant(enumName: string, value: string)

  // ---------------------------------------------------------------------------
  // Mapping to transfer objects
  // ---------------------------------------------------------------------------

  function ItemToDTO(item: SaleItem): (d: SaleItemDTO)
    ensures d.saleItemId == item.itemId
    ensures d.product == ProductDTO(item.product.productId, item.product.productCode, item.product.productName)
    ensures d.quantity == item.quantity && d.price == item.price && d.totalPrice == item.totalPrice
  {
    SaleItemDTO(item.itemId, ProductDTO(item.product.productId, item.product.productCode, item.product.productName),
                item.quantity, item.price, item.totalPrice)
  }

  function CustomerToDTO(c: Customer): (d: CustomerDTO)
    ensures d.customerId == c.customerId && d.customerName == c.customerName
    ensures d.mobileNumber == c.mobileNumber && d.address == c.address
  {
    CustomerDTO(c.customerId, c.customerName, c.mobileNumber, c.address)
  }

  /** `toDTO`: every field copied, the items one to one in order, and a missing
      customer mapped to a missing customer. */
  function ToDTO(sale: Sale): (d: SaleDTO)
    ensures d.saleId == sale.saleId && d.saleDate == Some(sale.saleDate)
    ensures d.paymentMode == sale.paymentMode && d.saleType == sale.saleType && d.grossTotal == sale.grossTotal
    ensures d.customer.None? <==> sale.customer.None?
    ensures d.customer == (if sale.customer.Some? then Some(CustomerToDTO(sale.customer.value)) else None)
    ensures |d.items| == |sale.items|
    ensures forall i :: 0 <= i < |sale.items| ==> d.items[i] == ItemToDTO(sale.items[i])
  {
    SaleDTO(sale.saleId,
            if sale.customer.Some? then Some(CustomerToDTO(sale.customer.value)) else None,
            Some(sale.saleDate), sale.paymentMode, sale.saleType, sale.grossTotal,
            seq(|sale.items|, i requires 0 <= i < |sale.items| => ItemToDTO(sale.items[i])))
  }

  // ---------------------------------------------------------------------------
  // Stock decrement
  // ---------------------------------------------------------------------------

  /** The product stock, and the error that stopped the walk if one did. */
  datatype StockRun = StockRun(stock: map<int, Product>, failure: Option<SaleError>)

  /** One iteration of the stock loop: re-read the item's product, refuse a product
      that is gone or a quantity that would fall below zero, otherwise write the
      lowered quantity back. */
  function DecrementOne(stock: map<int, Product>, item: SaleItem): (r: StockRun)
    ensures r.failure.None? ==> r.stock.Keys == stock.Keys
    ensures r.failure.Some? ==> r.stock == stock
  {
    var id := item.product.productId;
    if id !in stock then StockRun(stock, Some(ProductNotFound))
    else if stock[id].quantity - item.quantity < 0.0 then StockRun(stock, Some(InsufficientStock(stock[id].productName)))
    else StockRun(stock[id := stock[id].(quantity := stock[id].quantity - item.quantity)], None)
  }

  /** The stock loop over `items` in order: once an iteration fails, nothing after it
      runs and the writes before it stay. */
  function Decrement(stock: map<int, Product>, items: seq<SaleItem>): StockRun
  {
    if |items| == 0 then StockRun(stock, None)
    else
      var prev := Decrement(stock, items[..|items| - 1]);
      if prev.failure.Some? then prev else DecrementOne(prev.stock, items[|items| - 1])
  }

  /** The quantity of product `id` sold by `items`, repetitions included. */
  function SoldOf(items: seq<SaleItem>, id: int): real
  {
    if |items| == 0 then 0.0
    else SoldOf(items[..|items| - 1], id) + (if items[|items| - 1].product.productId == id then items[|items| - 1].quantity else 0.0)
  }

  /** The walk only ever changes quantities: the same products under the same keys
      with the same ids, names and codes, and every quantity it writes is at least 0. */
  lemma {:induction false} DecrementChangesOnlyQuantities(stock: map<int, Product>, items: seq<SaleItem>)
    ensures Decrement(stock, items).stock.Keys == stock.Keys
    ensures forall id :: id in stock ==>
              var p := Decrement(stock, items).stock[id];
              p == stock[id].(quantity := p.quantity)
              && (p.quantity == stock[id].quantity || p.quantity >= 0.0)
    decreases |items|
  {
    if |items| > 0 {
      DecrementChangesOnlyQuantities(stock, items[..|items| - 1]);
    }
  }

  /** A failure is final: the walk over a longer list ends where the first failing
      prefix ended, with the same stock and the same error. */
  lemma {:induction false} FailurePersists(stock: map<int, Product>, items: seq<SaleItem>, k: nat)
    requires k <= |items|
    requires Decrement(stock, items[..k]).failure.Some?
    ensures Decrement(stock, items) == Decrement(stock, items[..k])
    decreases |items| - k
  {
    if k < |items| {
      var init := items[..|items| - 1];
      assert init[..k] == items[..k];
      FailurePersists(stock, init, k);
    } else {
      assert items[..k] == items;
    }
  }

  /** Stock that is not negative stays so, whether the walk gets through or not. */
  lemma StockStaysNonNegative(stock: map<int, Product>, items: seq<SaleItem>)
    requires forall id :: id in stock ==> stock[id].quantity >= 0.0
    ensures forall id :: id in Decrement(stock, items).stock ==> Decrement(stock, items).stock[id].quantity >= 0.0
  {
    DecrementChangesOnlyQuantities(stock, items);
  }

  /** A failed walk stops at its first bad item `k`: the items before it got through,
      their writes are the final stock, and the error is item `k`'s. */
  lemma {:induction false} FailureStopsAtFirstBadItem(stock: map<int, Product>, items: seq<SaleItem>)
    requires Decrement(stock, items).failure.Some?
    ensures exists k :: 0 <= k < |items| && Decrement(stock, items[..k]).failure.None?
              && Decrement(stock, items) == StockRun(Decrement(stock, items[..k]).stock,
                                                     DecrementOne(Decrement(stock, items[..k]).stock, items[k]).failure)
    decreases |items|
  {
    var n := |items| - 1;
    var init := items[..n];
    if Decrement(stock, init).failure.Some? {
      FailureStopsAtFirstBadItem(stock, init);
      var k :| 0 <= k < |init| && Decrement(stock, init[..k]).failure.None?
               && Decrement(stock, init) == StockRun(Decrement(stock, init[..k]).stock,
                                                     DecrementOne(Decrement(stock, init[..k]).stock, init[k]).failure);
      assert init[..k] == items[..k];
    } else {
      assert items[..n] == init;
    }
  }

  /** A walk that gets through takes every product's total sold quantity off its
      stock, so a product sold twice is lowered twice. */
  lemma {:induction false} DecrementIsCumulative(stock: map<int, Product>, items: seq<SaleItem>)
    requires Decrement(stock, items).failure.None?
    ensures forall id :: id in stock ==>
              id in Decrement(stock, items).stock
              && Decrement(stock, items).stock[id].quantity == stock[id].quantity - SoldOf(items, id)
    decreases |items|
  {
    if |items| > 0 {
      var init := items[..|items| - 1];
      DecrementIsCumulative(stock, init);
      DecrementChangesOnlyQuantities(stock, init);
    }
  }

  /** For stock and sold quantities that are not negative, the walk gets through
      exactly when every item's product exists and no product is sold beyond its
      stock. */
  lemma DecrementSucceedsIff(stock: map<int, Product>, items: seq<SaleItem>)
    requires forall id :: id in stock ==> stock[id].quantity >= 0.0
    requires forall i :: 0 <= i < |items| ==> items[i].quantity >= 0.0
    ensures Decrement(stock, items).failure.None? <==>
              (forall i :: 0 <= i < |items| ==> items[i].product.productId in stock)
              && (forall id :: id in stock ==> SoldOf(items, id) <= stock[id].quantity)
  {
    if Decrement(stock, items).failure.None? {
      SucceedsOnlyWithinStock(stock, items);
    }
    if (forall i :: 0 <= i < |items| ==> items[i].product.productId in stock)
       && (forall id :: id in stock ==> SoldOf(items, id) <= stock[id].quantity) {
      SucceedsWithinStock(stock, items);
    }
  }

  /** A walk that gets through found every product and sold none beyond its stock. */
  lemma {:induction false} SucceedsOnlyWithinStock(stock: map<int, Product>, items: seq<SaleItem>)
    requires forall id :: id in stock ==> stock[id].quantity >= 0.0
    requires Decrement(stock, items).failure.None?
    ensures forall i :: 0 <= i < |items| ==> items[i].product.productId in stock
    ensures forall id :: id in stock ==> SoldOf(items, id) <= stock[id].quantity
    decreases |items|
  {
    if |items| > 0 {
      var n := |items| - 1;
      var init, last := items[..n], items[n];
      var prev := Decrement(stock, init);
      assert prev.failure.None?;
      SucceedsOnlyWithinStock(stock, init);
      DecrementIsCumulative(stock, init);
      DecrementChangesOnlyQuantities(stock, init);
      assert last.product.productId in stock;
      assert forall i :: 0 <= i < n ==> items[i] == init[i];
      forall j | j in stock
        ensures SoldOf(items, j) <= stock[j].quantity
      {
        if j != last.product.productId {
          assert SoldOf(items, j) == SoldOf(init, j);
        }
      }
    }
  }

  /** With sold quantities that are not negative, a walk whose products all exist and
      whose totals stay within stock gets through. */
  lemma {:induction false} SucceedsWithinStock(stock: map<int, Product>, items: seq<SaleItem>)
    requires forall i :: 0 <= i < |items| ==> items[i].quantity >= 0.0
    requires forall i :: 0 <= i < |items| ==> items[i].product.productId in stock
    requires forall id :: id in stock ==> SoldOf(items, id) <= stock[id].quantity
    ensures Decrement(stock, items).failure.None?
    decreases |items|
  {
    if |items| > 0 {
      var n := |items| - 1;
      var init, last := items[..n], items[n];
      assert forall i :: 0 <= i < n ==> init[i] == items[i];
      forall j | j in stock
        ensures SoldOf(init, j) <= stock[j].quantity
      {
        assert SoldOf(init, j) <= SoldOf(items, j);
      }
      SucceedsWithinStock(stock, init);
      DecrementIsCumulative(stock, init);
    }
  }

  // ---------------------------------------------------------------------------
  // Enum lookup
  // ---------------------------------------------------------------------------

  /** `Enum.valueOf(identifier.toUpperCase())`: the constant spelled exactly like the
      upper-cased identifier. */
  predicate NamesConstant(constants: seq<string>, identifier: string)
  {
    UpperString(identifier) in constants
  }

  /** `toEnum`: the first constant whose name equals `value` ignoring case, or the
      `IllegalArgumentException` naming the enum and the value. */
  method ToEnum(enumName: string, constants: seq<string>, value: string) returns (r: Result<string, SaleError>)
    ensures r.Success? ==>
              exists i :: 0 <= i < |constants| && constants[i] == r.value && EqualsIgnoreCase(constants[i], value)
                          && forall j :: 0 <= j < i ==> !EqualsIgnoreCase(constants[j], value)
    ensures r.Failure? <==> forall i :: 0 <= i < |constants| ==> !EqualsIgnoreCase(constants[i], value)
    ensures r.Failure? ==> r.error == NoEnumConstant(enumName, value)
  {
    var i := 0;
    while i < |constants|
      invariant 0 <= i <= |constants|
      invariant forall j :: 0 <= j < i ==> !EqualsIgnoreCase(constants[j], value)
    {
      if EqualsIgnoreCase(constants[i], value) {
        return Success(constants[i]);
      }
      i := i + 1;
    }
    return Failure(NoEnumConstant(enumName, value));
  }

  /** For constants spelled in upper case, looking up the upper-cased identifier and
      comparing ignoring case pick the same constant. */
  lemma ValueOfAgreesWithEqualsIgnoreCase(constant: string, identifier: string)
    requires UpperString(constant) == constant
    ensures constant == UpperString(identifier) <==> EqualsIgnoreCase(constant, identifier)
  {
  }

  // ---------------------------------------------------------------------------
  // Identifier dispatch
  // ---------------------------------------------------------------------------

  /** The branch a lookup by identifier takes. */
  datatype Query = ById(id: int) | ByPaymentMode(mode: string) | BySaleType(saleType: string) | ByCustomerName(fragment: string)

  /** The strict priority of the lookups: a Java `int` is a sale id; otherwise an
      identifier naming a payment mode selects by payment mode, then one naming a
      sale type by sale type; anything else is part of a customer name. */
  function Classify(identifier: string, paymentModes: seq<string>, saleTypes: seq<string>): (q: Query)
    ensures q.ById? <==> JavaParseInt(identifier).Some?
    ensures q.ById? ==> q.id == JavaParseInt(identifier).value
    ensures q.ByPaymentMode? <==> JavaParseInt(identifier).None? && NamesConstant(paymentModes, identifier)
    ensures q.BySaleType? <==>
              JavaParseInt(identifier).None? && !NamesConstant(paymentModes, identifier)
              && NamesConstant(saleTypes, identifier)
    ensures q.ByCustomerName? <==>
              JavaParseInt(identifier).None? && !NamesConstant(paymentModes, identifier)
              && !NamesConstant(saleTypes, identifier)
    ensures q.ByPaymentMode? ==> q.mode == UpperString(identifier) && q.mode in paymentModes
    ensures q.BySaleType? ==> q.saleType == UpperString(identifier) && q.saleType in saleTypes
    ensures q.ByCustomerName? ==> q.fragment == identifier
  {
    match JavaParseInt(identifier)
    case Some(id) => ById(id)
    case None =>
      if NamesConstant(paymentModes, identifier) then ByPaymentMode(UpperString(identifier))
      else if NamesConstant(saleTypes, identifier) then BySaleType(UpperString(identifier))
      else ByCustomerName(identifier)
  }

  /** Whether a sale answers a query: the repository's `findById`, `findByPaymentMode`,
      `findBySaleType` and `findByCustomer_CustomerNameContainingIgnoreCase`. A sale
      without customer matches no name. */
  predicate Matches(q: Query, sale: Sale)
  {
    match q
    case ById(id) => sale.saleId == Some(id)
    case ByPaymentMode(mode) => sale.paymentMode == mode
    case BySaleType(t) => sale.saleType == t
    case ByCustomerName(fragment) =>
      sale.customer.Some? && Contains(UpperString(sale.customer.value.customerName), UpperString(fragment))
  }

  /** The sales answering `q`, in repository order. */
  function Select(sales: seq<Sale>, q: Query): (r: seq<Sale>)
    ensures |r| <= |sales|
    ensures forall i :: 0 <= i < |r| ==> r[i] in sales && Matches(q, r[i])
  {
    if |sales| == 0 then []
    else
      var rest := Select(sales[1..], q);
      assert forall s :: s in sales[1..] ==> s in sales;
      if Matches(q, sales[0]) then [sales[0]] + rest else rest
  }

  /** No sale answering the query is left out of the selection. */
  lemma {:induction false} SelectKeepsEveryMatch(sales: seq<Sale>, q: Query)
    ensures forall i :: 0 <= i < |sales| && Matches(q, sales[i]) ==> sales[i] in Select(sales, q)
    decreases |sales|
  {
    if |sales| > 0 {
      SelectKeepsEveryMatch(sales[1..], q);
      assert forall i :: 1 <= i < |sales| ==> sales[i] == sales[1..][i - 1];
    }
  }

  /** The selection is empty exactly when no sale answers the query. */
  lemma {:induction false} SelectEmptyIff(sales: seq<Sale>, q: Query)
    ensures Select(sales, q) == [] <==> forall i :: 0 <= i < |sales| ==> !Matches(q, sales[i])
    decreases |sales|
  {
    if |sales| > 0 && !Matches(q, sales[0]) {
      SelectEmptyIff(sales[1..], q);
      assert forall j :: 1 <= j < |sales| ==> sales[j] == sales[1..][j - 1];
    }
  }

  /** Selecting from two stretches of the repository one after the other is selecting
      from the whole: the selection keeps repository order. */
  lemma {:induction false} SelectConcat(a: seq<Sale>, b: seq<Sale>, q: Query)
    ensures Select(a + b, q) == Select(a, q) + Select(b, q)
    decreases |a|
  {
    if |a| == 0 {
      assert a + b == b;
    } else {
      assert (a + b)[1..] == a[1..] + b;
      SelectConcat(a[1..], b, q);
    }
  }

  /** Each sale is selected at most as often as it is stored: no sale is repeated. */
  lemma {:induction false} SelectIsSubBag(sales: seq<Sale>, q: Query)
    ensures multiset(Select(sales, q)) <= multiset(sales)
    decreases |sales|
  {
    if |sales| > 0 {
      SelectIsSubBag(sales[1..], q);
      SubBagAfterHead(sales[0], Select(sales[1..], q), sales[1..]);
      assert sales == [sales[0]] + sales[1..];
    }
  }

  /** Keeping or dropping a head element keeps a sub-bag of the tail a sub-bag of the whole. */
  lemma SubBagAfterHead(x: Sale, kept: seq<Sale>, tail: seq<Sale>)
    requires multiset(kept) <= multiset(tail)
    ensures multiset([x] + kept) <= multiset([x] + tail)
    ensures multiset(kept) <= multiset([x] + tail)
  {
  }

  lemma {:induction false} SelectStartsAtFirstMatch(sales: seq<Sale>, q: Query)
    requires Select(sales, q) != []
    ensures exists i :: 0 <= i < |sales| && sales[i] == Select(sales, q)[0]
                        && forall j :: 0 <= j < i ==> !Matches(q, sales[j])
    decreases |sales|
  {
    if !Matches(q, sales[0]) {
      var rest := sales[1..];
      assert Select(rest, q) == Select(sales, q);
      SelectStartsAtFirstMatch(rest, q);
      var k :| 0 <= k < |rest| && rest[k] == Select(rest, q)[0]
               && forall j :: 0 <= j < k ==> !Matches(q, rest[j]);
      assert forall j :: 1 <= j <= k ==> sales[j] == rest[j - 1];
      assert sales[k + 1] == Select(sales, q)[0];
    }
  }

  /** `findById`: the first sale stored under `id`. */
  function FindById(sales: seq<Sale>, id: int): (r: Option<Sale>)
    ensures r.Some? ==> r.value in sales && r.value.saleId == Some(id)
    ensures r.None? <==> forall i :: 0 <= i < |sales| ==> sales[i].saleId != Some(id)
  {
    if |sales| == 0 then None
    else if sales[0].saleId == Some(id) then Some(sales[0])
    else FindById(sales[1..], id)
  }

  /** The first element of a list, if any: `stream().findFirst()`. */
  function First(sales: seq<Sale>): (r: Option<Sale>)
    ensures r.None? <==> sales == []
    ensures r.Some? ==> r.value == sales[0]
  {
    if |sales| == 0 then None else Some(sales[0])
  }

  function MapToDTO(sales: seq<Sale>): (r: seq<SaleDTO>)
    ensures |r| == |sales| && forall i :: 0 <= i < |sales| ==> r[i] == ToDTO(sales[i])
  {
    seq(|sales|, i requires 0 <= i < |sales| => ToDTO(sales[i]))
  }

  function MapOption(s: Option<Sale>): (r: Option<SaleDTO>)
    ensures r.None? <==> s.None?
    ensures r.Some? ==> r.value == ToDTO(s.value)
  {
    match s
    case Some(v) => Some(ToDTO(v))
    case None => None
  }

  /** The sale ids are present and distinct. */
  predicate DistinctIds(sales: seq<Sale>)
  {
    && (forall i :: 0 <= i < |sales| ==> sales[i].saleId.Some?)
    && (forall i, j :: 0 <= i < j < |sales| ==> sales[i].saleId != sales[j].saleId)
  }

  /** With distinct ids, looking up by id selects the same as the generic filter. */
  lemma {:induction false} FindByIdIsSelect(sales: seq<Sale>, id: int)
    requires DistinctIds(sales)
    ensures Select(sales, ById(id)) == (if FindById(sales, id).Some? then [FindById(sales, id).value] else [])
    decreases |sales|
  {
    if |sales| > 0 {
      var rest := sales[1..];
      assert DistinctIds(rest) by {
        assert forall i :: 0 <= i < |rest| ==> rest[i] == sales[i + 1];
      }
      FindByIdIsSelect(rest, id);
      if sales[0].saleId == Some(id) {
        assert forall i :: 0 <= i < |rest| ==> rest[i].saleId != Some(id) by {
          assert forall i :: 0 <= i < |rest| ==> rest[i] == sales[i + 1];
        }
      }
    }
  }

  /** The sale as the repository stores it: sale id `saleId`, and item ids handed out
      in order from `firstItemId`. */
  function Stored(sale: Sale, saleId: int, firstItemId: int): (s: Sale)
    ensures s.saleId == Some(saleId)
    ensures |s.items| == |sale.items|
    ensures forall i :: 0 <= i < |sale.items| ==> s.items[i] == sale.items[i].(itemId := Some(firstItemId + i))
    ensures s == sale.(saleId := s.saleId, items := s.items)
  {
    sale.(saleId := Some(saleId),
          items := seq(|sale.items|, i requires 0 <= i < |sale.items| => sale.items[i].(itemId := Some(firstItemId + i))))
  }

  // ---------------------------------------------------------------------------
  // The service with its repositories
  // ---------------------------------------------------------------------------

  /** The service together with the repositories it reads and writes: products and
      customers by id, sales in repository order, and the next ids the database
      would hand out. */
  class SaleStore {
    var products: map<int, Product>
    var customers: map<int, Customer>
    var sales: seq<Sale>
    var nextSaleId: int
    var nextItemId: int
    const paymentModes: seq<string>
    const saleTypes: seq<string>

    /** Every product and customer is stored under its own id, and the stored sales
        have distinct ids below the next one. */
    ghost predicate Valid()
      reads this
    {
      && (forall id :: id in products ==> products[id].productId == id)
      && (forall id :: id in customers ==> customers[id].customerId == id)
      && DistinctIds(sales)
      && (forall i :: 0 <= i < |sales| ==> sales[i].saleId.value < nextSaleId)
    }

    constructor (products: map<int, Product>, customers: map<int, Customer>, paymentModes: seq<string>, saleTypes: seq<string>)
      requires forall id :: id in products ==> products[id].productId == id
      requires forall id :: id in customers ==> customers[id].customerId == id
      ensures Valid()
      ensures this.products == products && this.customers == customers && sales == []
      ensures this.paymentModes == paymentModes && this.saleTypes == saleTypes
    {
      this.products := products;
      this.customers := customers;
      sales := [];
      nextSaleId := 1;
      nextItemId := 1;
      this.paymentModes := paymentModes;
      this.saleTypes := saleTypes;
    }

    /** The item mapping of `toEntity`, in order: each item's product is fetched by
        id and the first unknown one is an error. */
    function ToEntityItems(items: seq<SaleItemDTO>): (r: Result<seq<SaleItem>, SaleError>)
      reads this
      ensures r.Failure? <==> exists i :: 0 <= i < |items| && items[i].product.productId !in products
      ensures r.Failure? ==> r.error == ProductNotFound
      ensures r.Success? ==>
                |r.value| == |items|
                && forall i :: 0 <= i < |items| ==>
                     r.value[i] == SaleItem(None, products[items[i].product.productId],
                                            items[i].quantity, items[i].price, items[i].totalPrice)
    {
      if |items| == 0 then Success([])
      else
        var id := items[0].product.productId;
        if id !in products then Failure(ProductNotFound)
        else
          match ToEntityItems(items[1..])
          case Failure(e) =>
            assert forall i :: 1 <= i < |items| ==> items[i] == items[1..][i - 1];
            Failure(e)
          case Success(rest) =>
            assert forall i :: 1 <= i < |items| ==> items[i] == items[1..][i - 1];
            Success([SaleItem(None, products[id], items[0].quantity, items[0].price, items[0].totalPrice)] + rest)
    }

    /** `toEntity`: the customer must exist, then every product; the sale gets no id,
        the request's date or `now`, and the request's gross total as it stands. */
    function ToEntity(dto: SaleDTO, now: Timestamp): (r: Result<Sale, SaleError>)
      reads this
      ensures dto.customer.None? ==> r == Failure(MissingCustomer)
      ensures dto.customer.Some? && dto.customer.value.customerId !in customers ==> r == Failure(CustomerNotFound)
      ensures dto.customer.Some? && dto.customer.value.customerId in customers ==>
                (r.Failure? <==> ToEntityItems(dto.items).Failure?)
                && (r.Failure? ==> r.error == ProductNotFound)
      ensures r.Success? ==>
                && dto.customer.Some?
                && r.value.saleId == None
                && r.value.customer == Some(customers[dto.customer.value.customerId])
                && r.value.saleDate == dto.saleDate.GetOr(now)
                && r.value.paymentMode == dto.paymentMode && r.value.saleType == dto.saleType
                && r.value.grossTotal == dto.grossTotal
                && Success(r.value.items) == ToEntityItems(dto.items)
    {
      if dto.customer.None? then Failure(MissingCustomer)
      else if dto.customer.value.customerId !in customers then Failure(CustomerNotFound)
      else
        match ToEntityItems(dto.items)
        case Failure(e) => Failure(e)
        case Success(items) =>
          Success(Sale(None, Some(customers[dto.customer.value.customerId]), dto.saleDate.GetOr(now),
                       dto.paymentMode, dto.saleType, dto.grossTotal, items))
    }

    /** Mapping a request to an entity and back keeps the customer id, the date (or
        `now`), the enums, the gross total and every item's product id, quantity,
        price and total, in order. The sale and item ids come back empty, and the
        customer's and the products' other details are the stored ones, not the
        request's. */
    lemma ToEntityRoundTrip(dto: SaleDTO, now: Timestamp)
      requires Valid()
      requires ToEntity(dto, now).Success?
      ensures var back := ToDTO(ToEntity(dto, now).value);
              && back.saleId == None
              && back.customer.Some? && back.customer.value.customerId == dto.customer.value.customerId
              && back.customer == Some(CustomerToDTO(customers[dto.customer.value.customerId]))
              && back.saleDate == Some(dto.saleDate.GetOr(now))
              && back.paymentMode == dto.paymentMode && back.saleType == dto.saleType
              && back.grossTotal == dto.grossTotal
              && |back.items| == |dto.items|
              && forall i :: 0 <= i < |dto.items| ==>
                   back.items[i].saleItemId == None
                   && back.items[i].product.productId == dto.items[i].product.productId
                   && back.items[i].product.productCode == products[dto.items[i].product.productId].productCode
                   && back.items[i].product.productName == products[dto.items[i].product.productId].productName
                   && back.items[i].quantity == dto.items[i].quantity
                   && back.items[i].price == dto.items[i].price
                   && back.items[i].totalPrice == dto.items[i].totalPrice
    {
    }

    /** `findByIdentifier`: the sales the identifier's branch selects, as transfer
        objects; a sale id gives at most one. */
    function FindByIdentifier(identifier: string): (r: seq<SaleDTO>)
      reads this
      ensures Classify(identifier, paymentModes, saleTypes).ById? ==> |r| <= 1
    {
      match Classify(identifier, paymentModes, saleTypes)
      case ById(id) => if FindById(sales, id).Some? then [ToDTO(FindById(sales, id).value)] else []
      case q => MapToDTO(Select(sales, q))
    }

    /** With distinct sale ids every branch of `findByIdentifier` is the generic
        selection: exactly the sales answering the query, in order. */
    lemma FindByIdentifierSelects(identifier: string)
      requires Valid()
      ensures FindByIdentifier(identifier) == MapToDTO(Select(sales, Classify(identifier, paymentModes, saleTypes)))
    {
      var q := Classify(identifier, paymentModes, saleTypes);
      if q.ById? {
        FindByIdIsSelect(sales, q.id);
      }
    }

    /** `findSingleByIdentifier`: the first sale of the identifier's branch. */
    function FindSingleByIdentifier(identifier: string): (r: Option<SaleDTO>)
      reads this
      ensures r.Some? ==> exists s :: s in sales && r.value == ToDTO(s)
    {
      match Classify(identifier, paymentModes, saleTypes)
      case ById(id) => MapOption(FindById(sales, id))
      case q => MapOption(First(Select(sales, q)))
    }

    /** `findFirstMatchByIdentifier`, written as the chain of attempts it is: a sale
        id, then a payment mode, then a sale type, then a customer name. */
    function FindFirstMatchByIdentifier(identifier: string): (r: Option<SaleDTO>)
      reads this
      ensures r.Some? ==> exists s :: s in sales && r.value == ToDTO(s)
    {
      var upper := UpperString(identifier);
      if JavaParseInt(identifier).Some? then MapOption(FindById(sales, JavaParseInt(identifier).value))
      else if upper in paymentModes then MapOption(First(Select(sales, ByPaymentMode(upper))))
      else if upper in saleTypes then MapOption(First(Select(sales, BySaleType(upper))))
      else MapOption(First(Select(sales, ByCustomerName(identifier))))
    }

    /** The single lookup answers the first entry of the list lookup. */
    lemma FindSingleIsFirstOfList(identifier: string)
      ensures FindSingleByIdentifier(identifier) ==
                (if FindByIdentifier(identifier) == [] then None else Some(FindByIdentifier(identifier)[0]))
    {
    }

    /** The two single-result lookups answer alike for every identifier. */
    lemma FindFirstMatchIsFindSingle(identifier: string)
      ensures FindFirstMatchByIdentifier(identifier) == FindSingleByIdentifier(identifier)
    {
    }

    /** The stock loop of `saveSale`: for each item in order, re-read its product,
        stop at a product that is gone or a quantity that would fall below zero,
        otherwise write the lowered quantity back. */
    method DecrementStock(items: seq<SaleItem>) returns (failure: Option<SaleError>)
      requires forall id :: id in products ==> products[id].productId == id
      modifies this`products
      ensures forall id :: id in products ==> products[id].productId == id
      ensures StockRun(products, failure) == Decrement(old(products), items)
    {
      var i := 0;
      while i < |items|
        invariant 0 <= i <= |items|
        invariant Decrement(old(products), items[..i]) == StockRun(products, None)
        invariant forall id :: id in products ==> products[id].productId == id
      {
        var item := items[i];
        var id := item.product.productId;
        assert items[..i + 1][..i] == items[..i];
        if id !in products {
          FailurePersists(old(products), items, i + 1);
          return Some(ProductNotFound);
        }
        var product := products[id];
        var newQty := product.quantity - item.quantity;
        if newQty < 0.0 {
          FailurePersists(old(products), items, i + 1);
          return Some(InsufficientStock(product.productName));
        }
        products := products[id := product.(quantity := newQty)];
        i := i + 1;
      }
      assert items[..i] == items;
      failure := None;
    }

    /** `saleRepository.save(sale)` for a new sale carrying the next sale id: the sale
        joins the repository and both id counters move past the ids it took. */
    method AppendSale(saved: Sale)
      requires Valid()
      requires saved.saleId == Some(nextSaleId)
      modifies this`sales, this`nextSaleId, this`nextItemId
      ensures Valid()
      ensures sales == old(sales) + [saved]
      ensures nextSaleId == old(nextSaleId) + 1 && nextItemId == old(nextItemId) + |saved.items|
    {
      sales := sales + [saved];
      nextSaleId := nextSaleId + 1;
      nextItemId := nextItemId + |saved.items|;
    }

    /** `saveSale`. A request `toEntity` refuses changes nothing. Otherwise the sale is
        stored first, then the stock loop runs over its items in order; the first
        failing item ends the call with its error, and the sale and the decrements
        before that item stay in place. */
    method SaveSale(dto: SaleDTO, now: Timestamp) returns (r: Result<SaleDTO, SaleError>)
      requires Valid()
      modifies this`products, this`sales, this`nextSaleId, this`nextItemId
      ensures Valid()
      ensures old(ToEntity(dto, now)).Failure? ==>
                && r == Failure(old(ToEntity(dto, now)).error)
                && products == old(products) && sales == old(sales)
                && nextSaleId == old(nextSaleId) && nextItemId == old(nextItemId)
      ensures old(ToEntity(dto, now)).Success? ==>
                var saved := Stored(old(ToEntity(dto, now)).value, old(nextSaleId), old(nextItemId));
                var run := Decrement(old(products), saved.items);
                && sales == old(sales) + [saved]
                && nextSaleId == old(nextSaleId) + 1
                && nextItemId == old(nextItemId) + |saved.items|
                && products == run.stock
                && (run.failure.None? ==> r == Success(ToDTO(saved)))
                && (run.failure.Some? ==> r == Failure(run.failure.value))
    {
      var entity := ToEntity(dto, now);
      if entity.Failure? {
        return Failure(entity.error);
      }
      var saved := Stored(entity.value, nextSaleId, nextItemId);
      AppendSale(saved);
      var failure := DecrementStock(saved.items);
      if failure.Some? {
        return Failure(failure.value);
      }
      r := Success(ToDTO(saved));
    }
  }
}
