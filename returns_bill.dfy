/**
 * The return-bill form of the store front end: a ledger of returned line items
 * with a running total, a draft item being typed in, and the confirm-then-submit
 * workflow that sends the bill.
 */
module ReturnsBill {
  import opened Wrappers
  import opened Digits

  datatype Product = Product(productId: int, productName: string)

  datatype Customer = Customer(customerId: int, customerName: string, mobileNumber: string, address: string)

  /** A number-valued field of the draft: a number, or blank (the empty string the
      page stores when the input is empty or does not parse). */
  datatype NumField = Num(value: real) | Blank

  /** The draft line item: the product id as the selected option's text, quantity,
      price and their product. */
  datatype Draft = Draft(productId: string, quantity: NumField, price: NumField, totalPrice: NumField)

  /** A line item of the ledger. */
  datatype ReturnItem = ReturnItem(product: Product, quantity: real, price: real, totalPrice: real)

  /** The bill form. `customerId` is `None` for the blank selection and for a value
      `parseInt` cannot read. */
  datatype Form = Form(
    saleId: string,
    customerId: Option<int>,
    returnDate: string,
    returnType: string,
    paymentMode: string,
    returnItems: seq<ReturnItem>,
    totalReturnAmount: real)

  datatype NewCustomerForm = NewCustomerForm(customerName: string, mobileNumber: string, address: string)

  /** The bill sent to the server. */
  datatype BillRecord = BillRecord(
    saleId: Option<int>,
    customer: Option<Customer>,
    returnDate: string,
    returnType: string,
    paymentMode: string,
    returnItems: seq<ReturnItem>,
    totalReturnAmount: real)

  datatype ItemField = QuantityField | PriceField
  datatype FormField = ReturnDateField | ReturnTypeField | PaymentModeField
  datatype CustomerField = CustomerNameField | MobileNumberField | AddressField

  datatype AddOutcome = InvalidDraft | ProductNotFound | Added

  /** Which presence check stopped the submission, or that the confirmation opened. */
  datatype SubmitCheck = MissingSale | MissingCustomer | NoItems | MissingDate | Confirming

  /** What the customer-creation call answered. */
  datatype CreationOutcome = CustomerCreated(customer: Customer) | CustomerCreationFailed

  /** What the bill-creation call answered: the `returnId` of the body, or a failure. */
  datatype SubmissionOutcome = Acknowledged(returnId: Option<int>) | SubmissionFailed

  /** How the confirmation ended. */
  datatype ConfirmOutcome = IncompleteNewCustomer | SubmitFailed | Submitted

  const EmptyDraft := Draft("", Num(0.0), Num(0.0), Num(0.0))
  const EmptyForm := Form("", None, "", "Retail", "Cash", [], 0.0)
  const EmptyNewCustomer := NewCustomerForm("", "", "")

  /** The running total the page keeps: `reduce((sum, i) => sum + i.totalPrice, 0)`,
      a left fold over the items. */
  function Sum(items: seq<ReturnItem>): real
  {
    if |items| == 0 then 0.0 else Sum(items[..|items| - 1]) + items[|items| - 1].totalPrice
  }

  /** The sum of quantity times price over the items: what the total is meant to be. */
  function Subtotals(items: seq<ReturnItem>): real
  {
    if |items| == 0 then 0.0 else items[0].quantity * items[0].price + Subtotals(items[1..])
  }

  /** An item as `addItem` builds it: positive quantity and price, and their product. */
  predicate WellPriced(item: ReturnItem)
  {
    item.quantity > 0.0 && item.price > 0.0 && item.totalPrice == item.quantity * item.price
  }

  lemma SumAppend(items: seq<ReturnItem>, item: ReturnItem)
    ensures Sum(items + [item]) == Sum(items) + item.totalPrice
  {
    assert (items + [item])[..|items|] == items;
  }

  lemma {:induction false} SumConcat(a: seq<ReturnItem>, b: seq<ReturnItem>)
    ensures Sum(a + b) == Sum(a) + Sum(b)
    decreases |b|
  {
    if |b| == 0 {
      assert a + b == a;
    } else {
      var init := b[..|b| - 1];
      assert a + b == (a + init) + [b[|b| - 1]];
      SumAppend(a + init, b[|b| - 1]);
      SumConcat(a, init);
      SumAppend(init, b[|b| - 1]);
      assert init + [b[|b| - 1]] == b;
    }
  }

  /** Removing the item at `i` lowers the total by exactly that item's price. */
  lemma SumRemoveAt(items: seq<ReturnItem>, i: nat)
    requires i < |items|
    ensures Sum(items[..i] + items[i + 1..]) == Sum(items) - items[i].totalPrice
  {
    var before, x, after := items[..i], items[i], items[i + 1..];
    assert items[..i + 1] == before + [x];
    assert items[..i + 1] + after == items;
    SumAppend(before, x);
    SumConcat(before + [x], after);
    SumConcat(before, after);
  }

  lemma {:induction false} SubtotalsConcat(a: seq<ReturnItem>, b: seq<ReturnItem>)
    ensures Subtotals(a + b) == Subtotals(a) + Subtotals(b)
    decreases |a|
  {
    if |a| == 0 {
      assert a + b == b;
    } else {
      assert (a + b)[1..] == a[1..] + b;
      SubtotalsConcat(a[1..], b);
    }
  }

  /** For well-priced items the running total is the sum of quantity times price. */
  lemma {:induction false} TotalIsSumOfSubtotals(items: seq<ReturnItem>)
    requires forall i :: 0 <= i < |items| ==> WellPriced(items[i])
    ensures Sum(items) == Subtotals(items)
    decreases |items|
  {
    if |items| > 0 {
      var init := items[..|items| - 1];
      var last := items[|items| - 1];
      TotalIsSumOfSubtotals(init);
      assert items == init + [last];
      SubtotalsConcat(init, [last]);
      assert Subtotals([last]) == last.quantity * last.price + Subtotals([]);
    }
  }

  /** `items.filter((_, i) => i !== index)`, one element at a time from the left. */
  function FilterOutIndex(items: seq<ReturnItem>, index: int): seq<ReturnItem>
  {
    if |items| == 0 then []
    else FilterOutIndex(items[..|items| - 1], index) + (if |items| - 1 == index then [] else [items[|items| - 1]])
  }

  /** Dropping one item of a well-priced ledger leaves a well-priced ledger. */
  lemma RemainingItemsWellPriced(items: seq<ReturnItem>, index: nat, rest: seq<ReturnItem>)
    requires index < |items| && rest == items[..index] + items[index + 1..]
    requires forall i :: 0 <= i < |items| ==> WellPriced(items[i])
    ensures forall i :: 0 <= i < |rest| ==> WellPriced(rest[i])
  {
    forall i | 0 <= i < |rest|
      ensures WellPriced(rest[i])
    {
      assert rest[i] == items[if i < index then i else i + 1];
    }
  }

  /** The item built from an accepted draft is well priced. */
  lemma DraftItemWellPriced(d: Draft, product: Product)
    requires Positive(d.quantity) && Positive(d.price)
    requires DraftBalanced(d)
    ensures WellPriced(ReturnItem(product, d.quantity.value, d.price.value, d.totalPrice.value))
  {
  }

  /** Appending a well-priced item to a well-priced ledger keeps it well priced. */
  lemma AppendedItemsWellPriced(items: seq<ReturnItem>, item: ReturnItem)
    requires forall i :: 0 <= i < |items| ==> WellPriced(items[i])
    requires WellPriced(item)
    ensures forall i :: 0 <= i < |items + [item]| ==> WellPriced((items + [item])[i])
  {
  }

  /** The filter removes exactly position `index` and keeps the others in order; an
      index outside the list removes nothing. */
  lemma {:induction false} FilterOutIndexRemovesOne(items: seq<ReturnItem>, index: int)
    ensures 0 <= index < |items| ==> FilterOutIndex(items, index) == items[..index] + items[index + 1..]
    ensures !(0 <= index < |items|) ==> FilterOutIndex(items, index) == items
    decreases |items|
  {
    if |items| > 0 {
      var n := |items| - 1;
      var init, last := items[..n], items[n];
      assert items == init + [last];
      FilterOutIndexRemovesOne(init, index);
      if index == n {
        assert items[..index] + items[index + 1..] == init;
      } else if 0 <= index < n {
        SkipThenAppend(init, last, index);
      }
    }
  }

  /** Skipping an item before the last commutes with appending the last. */
  lemma SkipThenAppend(init: seq<ReturnItem>, last: ReturnItem, index: nat)
    requires index < |init|
    ensures init[..index] + init[index + 1..] + [last] == (init + [last])[..index] + (init + [last])[index + 1..]
  {
    var items := init + [last];
    assert items[..index] == init[..index];
    assert items[index + 1..] == init[index + 1..] + [last];
  }

  /** The product of quantity and price when both are numbers, else blank. */
  function DraftTotal(quantity: NumField, price: NumField): (t: NumField)
    ensures t.Num? <==> quantity.Num? && price.Num?
    ensures t.Num? ==> t.value == quantity.value * price.value
  {
    if quantity.Num? && price.Num? then Num(quantity.value * price.value) else Blank
  }

  /** What a number input stores: the parsed number, or blank when the text is empty
      or does not parse. */
  function InputValue(parsed: Option<real>): (f: NumField)
    ensures f.Num? <==> parsed.Some?
    ensures f.Num? ==> f.value == parsed.value
  {
    match parsed
    case Some(v) => Num(v)
    case None => Blank
  }

  /** `x <= 0` fails exactly for a positive number; a blank reads as 0. */
  predicate Positive(x: NumField) { x.Num? && x.value > 0.0 }

  /** The check `addItem` makes before looking the product up. */
  predicate DraftAcceptable(d: Draft)
  {
    d.productId != "" && Positive(d.quantity) && Positive(d.price)
  }

  /** `products.find(p => p.productId === id)`: the first product with that id. A
      value `parseInt` could not read matches nothing. */
  function FindProduct(products: seq<Product>, id: Option<int>): (r: Option<Product>)
    ensures r.None? <==> id.None? || forall i :: 0 <= i < |products| ==> products[i].productId != id.value
    ensures r.Some? ==> exists i :: 0 <= i < |products| && products[i] == r.value && r.value.productId == id.value
                                    && forall j :: 0 <= j < i ==> products[j].productId != id.value
  {
    if id.None? || |products| == 0 then None
    else if products[0].productId == id.value then Some(products[0])
    else
      var r := FindProduct(products[1..], id);
      if r.Some? then
        assert forall j :: 1 <= j < |products| ==> products[j] == products[1..][j - 1];
        r
      else r
  }

  /** `customers.find(c => c.customerId === id)`: the first customer with that id. */
  function FindCustomer(customers: seq<Customer>, id: Option<int>): (r: Option<Customer>)
    ensures r.None? <==> id.None? || forall i :: 0 <= i < |customers| ==> customers[i].customerId != id.value
    ensures r.Some? ==> exists i :: 0 <= i < |customers| && customers[i] == r.value && r.value.customerId == id.value
                                    && forall j :: 0 <= j < i ==> customers[j].customerId != id.value
  {
    if id.None? || |customers| == 0 then None
    else if customers[0].customerId == id.value then Some(customers[0])
    else
      var r := FindCustomer(customers[1..], id);
      if r.Some? then
        assert forall j :: 1 <= j < |customers| ==> customers[j] == customers[1..][j - 1];
        r
      else r
  }

  /** All three new-customer fields are filled in. */
  predicate Complete(c: NewCustomerForm)
  {
    c.customerName != "" && c.mobileNumber != "" && c.address != ""
  }

  /** The bill built from the form: the sale id read by `parseInt`, the date as its
      ISO text, everything else copied. */
  function Bill(form: Form, customer: Option<Customer>, isoDate: string): (b: BillRecord)
    ensures b.returnItems == form.returnItems && b.totalReturnAmount == form.totalReturnAmount
    ensures b.customer == customer && b.returnDate == isoDate
    ensures b.saleId == JsParseInt(form.saleId)
    ensures b.returnType == form.returnType && b.paymentMode == form.paymentMode
  {
    BillRecord(JsParseInt(form.saleId), customer, isoDate, form.returnType, form.paymentMode,
               form.returnItems, form.totalReturnAmount)
  }

  /** The bill `confirmAndSubmit` sends once it gets past the new-customer check:
      none when the new customer could not be created or the date does not convert.
      The customer is the created one in new-customer mode, otherwise the first
      catalog customer with the selected id. */
  function SentBill(form: Form, isNewCustomer: bool, customers: seq<Customer>,
                    creation: CreationOutcome, isoDate: Option<string>): (b: Option<BillRecord>)
    ensures b.Some? <==> (!isNewCustomer || creation.CustomerCreated?) && isoDate.Some?
    ensures b.Some? && isNewCustomer ==> b.value.customer == Some(creation.customer)
    ensures b.Some? && !isNewCustomer ==> b.value.customer == FindCustomer(customers, form.customerId)
    ensures b.Some? ==> b.value == Bill(form, b.value.customer, isoDate.value)
  {
    if isNewCustomer && creation.CustomerCreationFailed? then None
    else if isoDate.None? then None
    else Some(Bill(form, if isNewCustomer then Some(creation.customer) else FindCustomer(customers, form.customerId),
                   isoDate.value))
  }

  /** The draft's total is its quantity times its price when both are numbers,
      and blank otherwise. */
  predicate DraftBalanced(d: Draft)
  {
    match d.totalPrice
    case Num(t) => d.quantity.Num? && d.price.Num? && t == d.quantity.value * d.price.value
    case Blank => !(d.quantity.Num? && d.price.Num?)
  }

  /** The page invariant: the total is the running sum of the items, the draft's
      total is its quantity times its price whenever both are numbers, and every
      item is well priced. */
  predicate Balanced(form: Form, draft: Draft)
  {
    && form.totalReturnAmount == Sum(form.returnItems)
    && DraftBalanced(draft)
    && forall i :: 0 <= i < |form.returnItems| ==> WellPriced(form.returnItems[i])
  }

  /** The empty form and the empty draft satisfy the page's invariant. */
  lemma EmptyPageBalanced()
    ensures Balanced(EmptyForm, EmptyDraft)
  {
  }

  /** The reset draft is consistent, and `addItem` refuses it until it is edited. */
  lemma EmptyDraftRefused()
    ensures DraftBalanced(EmptyDraft) && !DraftAcceptable(EmptyDraft)
  {
  }

  /** Everything on the page that a handler can change, besides the catalogs. */
  datatype PageState = PageState(
    form: Form,
    currentItem: Draft,
    showConfirmModal: bool,
    isNewCustomer: bool,
    newCustomerForm: NewCustomerForm,
    returnId: Option<int>,
    popupVisible: bool)

  /** The state of the return-bill page. */
  class ReturnBillPage {
    var products: seq<Product>
    var customers: seq<Customer>
    var form: Form
    var currentItem: Draft
    var showConfirmModal: bool
    var isNewCustomer: bool
    var newCustomerForm: NewCustomerForm
    var returnId: Option<int>
    var popupVisible: bool

    function State(): PageState
      reads this
    {
      PageState(form, currentItem, showConfirmModal, isNewCustomer, newCustomerForm, returnId, popupVisible)
    }

    /** The page's form and draft are balanced. */
    ghost predicate Valid()
      reads this
    {
      Balanced(form, currentItem)
    }

    /** The page after its catalogs have loaded. */
    constructor (products: seq<Product>, customers: seq<Customer>)
      ensures Valid()
      ensures this.products == products && this.customers == customers
      ensures form == EmptyForm && currentItem == EmptyDraft && newCustomerForm == EmptyNewCustomer
      ensures !showConfirmModal && !isNewCustomer && returnId == None && !popupVisible
    {
      this.products := products;
      this.customers := customers;
      form := EmptyForm;
      currentItem := EmptyDraft;
      showConfirmModal := false;
      isNewCustomer := false;
      newCustomerForm := EmptyNewCustomer;
      returnId := None;
      popupVisible := false;
      EmptyPageBalanced();
    }

    /** The sale selector stores the chosen option's text. */
    method SelectSale(saleId: string)
      requires Valid()
      modifies this`form
      ensures Valid()
      ensures form == old(form).(saleId := saleId)
    {
      form := form.(saleId := saleId);
    }

    /** `handleCustomerSelect`: "new" switches to new-customer mode and clears the
        customer; any other value leaves that mode and stores the parsed id. */
    method HandleCustomerSelect(value: string)
      requires Valid()
      modifies this`form, this`isNewCustomer
      ensures Valid()
      ensures isNewCustomer <==> value == "new"
      ensures form == old(form).(customerId := if value == "new" then None else JsParseInt(value))
    {
      if value == "new" {
        isNewCustomer := true;
        form := form.(customerId := None);
      } else {
        isNewCustomer := false;
        form := form.(customerId := JsParseInt(value));
      }
    }

    /** `handleFormChange`: one of the date, type and payment-mode inputs changes. */
    method HandleFormChange(field: FormField, value: string)
      requires Valid()
      modifies this`form
      ensures Valid()
      ensures form == match field
                case ReturnDateField => old(form).(returnDate := value)
                case ReturnTypeField => old(form).(returnType := value)
                case PaymentModeField => old(form).(paymentMode := value)
    {
      match field {
        case ReturnDateField => form := form.(returnDate := value);
        case ReturnTypeField => form := form.(returnType := value);
        case PaymentModeField => form := form.(paymentMode := value);
      }
    }

    /** `handleNewCustomerInput`: one of the new-customer inputs changes. */
    method HandleNewCustomerInput(field: CustomerField, value: string)
      requires Valid()
      modifies this`newCustomerForm
      ensures Valid()
      ensures newCustomerForm == match field
                case CustomerNameField => old(newCustomerForm).(customerName := value)
                case MobileNumberField => old(newCustomerForm).(mobileNumber := value)
                case AddressField => old(newCustomerForm).(address := value)
    {
      match field {
        case CustomerNameField => newCustomerForm := newCustomerForm.(customerName := value);
        case MobileNumberField => newCustomerForm := newCustomerForm.(mobileNumber := value);
        case AddressField => newCustomerForm := newCustomerForm.(address := value);
      }
    }

    /** The product selector stores the chosen option's text as the draft's id. */
    method SelectProduct(productId: string)
      requires Valid()
      modifies this`currentItem
      ensures Valid()
      ensures currentItem == old(currentItem).(productId := productId)
    {
      currentItem := currentItem.(productId := productId);
    }

    /** `handleItemChange`: the quantity or price input changes (`parsed` is what
        `parseFloat` made of the text, `None` for empty or unreadable text), and the
        draft's total is recomputed. */
    method HandleItemChange(field: ItemField, parsed: Option<real>)
      requires Valid()
      modifies this`currentItem
      ensures Valid()
      ensures currentItem.productId == old(currentItem).productId
      ensures field.QuantityField? ==>
                currentItem.quantity == InputValue(parsed) && currentItem.price == old(currentItem).price
      ensures field.PriceField? ==>
                currentItem.price == InputValue(parsed) && currentItem.quantity == old(currentItem).quantity
      ensures currentItem.quantity.Num? && currentItem.price.Num? ==>
                currentItem.totalPrice == Num(currentItem.quantity.value * currentItem.price.value)
    {
      var val := InputValue(parsed);
      var updated := if field.QuantityField? then currentItem.(quantity := val) else currentItem.(price := val);
      updated := updated.(totalPrice := DraftTotal(updated.quantity, updated.price));
      currentItem := updated;
    }

    /** `addItem`: reject a draft without product, quantity or price, then a product
        id the catalog does not hold; otherwise append the item, update the total and
        clear the draft. */
    method AddItem() returns (outcome: AddOutcome)
      requires Valid()
      modifies this`form, this`currentItem
      ensures Valid()
      ensures outcome == InvalidDraft <==> old(!DraftAcceptable(currentItem))
      ensures outcome == ProductNotFound <==>
                old(DraftAcceptable(currentItem) && FindProduct(products, JsParseInt(currentItem.productId)).None?)
      ensures outcome != Added ==> form == old(form) && currentItem == old(currentItem)
      ensures outcome == Added ==>
                && form.returnItems == old(form.returnItems + [ReturnItem(
                     FindProduct(products, JsParseInt(currentItem.productId)).value,
                     currentItem.quantity.value, currentItem.price.value, currentItem.totalPrice.value)])
                && form.totalReturnAmount == old(form.totalReturnAmount + currentItem.totalPrice.value)
                && form == old(form).(returnItems := form.returnItems, totalReturnAmount := form.totalReturnAmount)
                && currentItem == EmptyDraft
    {
      if currentItem.productId == "" || !Positive(currentItem.quantity) || !Positive(currentItem.price) {
        return InvalidDraft;
      }
      var selected := FindProduct(products, JsParseInt(currentItem.productId));
      if selected.None? {
        return ProductNotFound;
      }
      AppendDraft(selected.value);
      outcome := Added;
    }

    /** The accepting branch of `addItem`: the draft becomes an item of `product`
        at the end of the ledger, the total grows by the draft's total, and the
        draft is cleared. */
    method AppendDraft(product: Product)
      requires Valid() && Positive(currentItem.quantity) && Positive(currentItem.price)
      modifies this`form, this`currentItem
      ensures Valid()
      ensures form == old(form.(
                returnItems := form.returnItems + [ReturnItem(product, currentItem.quantity.value,
                                                              currentItem.price.value, currentItem.totalPrice.value)],
                totalReturnAmount := form.totalReturnAmount + currentItem.totalPrice.value))
      ensures currentItem == EmptyDraft
    {
      var item := ReturnItem(product, currentItem.quantity.value, currentItem.price.value,
                             currentItem.totalPrice.value);
      DraftItemWellPriced(currentItem, product);
      var updatedItems := form.returnItems + [item];
      AppendedItemsWellPriced(form.returnItems, item);
      SumAppend(form.returnItems, item);
      currentItem := EmptyDraft;
      EmptyPageBalanced();
      StoreItems(updatedItems);
    }

    /** `setForm(prev => ({ ...prev, returnItems, totalReturnAmount }))` as `addItem`
        and `removeItem` call it: the items are replaced and the total recomputed as
        their running sum; nothing else in the form changes. */
    method StoreItems(items: seq<ReturnItem>)
      requires DraftBalanced(currentItem)
      requires forall i :: 0 <= i < |items| ==> WellPriced(items[i])
      modifies this`form
      ensures form == old(form).(returnItems := items, totalReturnAmount := Sum(items))
      ensures Valid()
    {
      form := form.(returnItems := items, totalReturnAmount := Sum(items));
    }

    /** `removeItem`: drop the item at `index` and recompute the total; an index
        outside the list changes nothing. */
    method RemoveItem(index: int)
      requires Valid()
      modifies this`form
      ensures Valid()
      ensures 0 <= index < |old(form.returnItems)| ==>
                && form.returnItems == old(form.returnItems[..index] + form.returnItems[index + 1..])
                && form.totalReturnAmount == old(form.totalReturnAmount - form.returnItems[index].totalPrice)
      ensures !(0 <= index < |old(form.returnItems)|) ==> form == old(form)
      ensures form == old(form).(returnItems := form.returnItems, totalReturnAmount := form.totalReturnAmount)
    {
      var updatedItems := FilterOutIndex(form.returnItems, index);
      FilterOutIndexRemovesOne(form.returnItems, index);
      if 0 <= index < |form.returnItems| {
        SumRemoveAt(form.returnItems, index);
        RemainingItemsWellPriced(form.returnItems, index, updatedItems);
      }
      StoreItems(updatedItems);
    }

    /** `handleSubmit`: check sale, customer (or new-customer mode), items and date,
        in that order, and open the confirmation only when all are present. */
    method HandleSubmit() returns (check: SubmitCheck)
      requires Valid()
      modifies this`showConfirmModal
      ensures Valid()
      ensures check == MissingSale <==> form.saleId == ""
      ensures check == MissingCustomer <==> form.saleId != "" && !Truthy(form.customerId) && !isNewCustomer
      ensures check == NoItems <==>
                form.saleId != "" && (Truthy(form.customerId) || isNewCustomer) && form.returnItems == []
      ensures check == MissingDate <==>
                form.saleId != "" && (Truthy(form.customerId) || isNewCustomer) && form.returnItems != []
                && form.returnDate == ""
      ensures check == Confirming ==> showConfirmModal
      ensures check != Confirming ==> showConfirmModal == old(showConfirmModal)
    {
      if form.saleId == "" {
        return MissingSale;
      }
      if !Truthy(form.customerId) && !isNewCustomer {
        return MissingCustomer;
      }
      if |form.returnItems| == 0 {
        return NoItems;
      }
      if form.returnDate == "" {
        return MissingDate;
      }
      showConfirmModal := true;
      check := Confirming;
    }

    /** `confirmAndSubmit`. In new-customer mode an incomplete new customer stops
        everything with nothing changed; otherwise the customer is created (the
        request is `customerRequest`). The bill goes out when the customer is known
        and the date converts (`isoDate`), and `sent` is what was sent. When the
        server acknowledges it, the returned id is kept (0 or none as none), the popup
        opens and the form, new customer, mode and draft are reset. Any failure only
        closes the confirmation. */
    method ConfirmAndSubmit(creation: CreationOutcome, isoDate: Option<string>, submission: SubmissionOutcome)
      returns (outcome: ConfirmOutcome, customerRequest: Option<NewCustomerForm>, sent: Option<BillRecord>)
      requires Valid()
      modifies this`form, this`currentItem, this`showConfirmModal, this`isNewCustomer,
               this`newCustomerForm, this`returnId, this`popupVisible
      ensures Valid()
      ensures outcome == IncompleteNewCustomer <==> old(isNewCustomer) && !Complete(old(newCustomerForm))
      ensures outcome == IncompleteNewCustomer ==>
                customerRequest == None && sent == None && State() == old(State())
      ensures outcome != IncompleteNewCustomer ==>
                customerRequest == (if old(isNewCustomer) then Some(old(newCustomerForm)) else None)
      ensures outcome != IncompleteNewCustomer ==>
                sent == SentBill(old(form), old(isNewCustomer), customers, creation, isoDate)
      ensures outcome == Submitted <==>
                outcome != IncompleteNewCustomer && sent.Some? && submission.Acknowledged?
      ensures outcome == SubmitFailed ==> State() == old(State()).(showConfirmModal := false)
      ensures outcome == Submitted ==>
                State() == PageState(EmptyForm, EmptyDraft, false, false, EmptyNewCustomer,
                                     if Truthy(submission.returnId) then submission.returnId else None, true)
      ensures sent.Some? ==> sent.value.totalReturnAmount == Sum(sent.value.returnItems)
    {
      if isNewCustomer && !Complete(newCustomerForm) {
        return IncompleteNewCustomer, None, None;
      }
      customerRequest := if isNewCustomer then Some(newCustomerForm) else None;
      sent := SentBill(form, isNewCustomer, customers, creation, isoDate);
      if sent.None? || submission.SubmissionFailed? {
        showConfirmModal := false;
        return SubmitFailed, customerRequest, sent;
      }
      ShowReturned(if Truthy(submission.returnId) then submission.returnId else None);
      outcome := Submitted;
    }

    /** The success path of `confirmAndSubmit`: keep the returned id, open the popup,
        reset form, new customer, mode and draft, and close the confirmation. */
    method ShowReturned(id: Option<int>)
      modifies this`form, this`currentItem, this`showConfirmModal, this`isNewCustomer,
               this`newCustomerForm, this`returnId, this`popupVisible
      ensures Valid()
      ensures form == EmptyForm && currentItem == EmptyDraft && newCustomerForm == EmptyNewCustomer
      ensures !showConfirmModal && !isNewCustomer && returnId == id && popupVisible
    {
      returnId := id;
      popupVisible := true;
      form := EmptyForm;
      newCustomerForm := EmptyNewCustomer;
      isNewCustomer := false;
      currentItem := EmptyDraft;
      showConfirmModal := false;
      EmptyPageBalanced();
    }

    /** `cancelConfirm`: only the confirmation closes. */
    method CancelConfirm()
      requires Valid()
      modifies this`showConfirmModal
      ensures Valid()
      ensures !showConfirmModal
    {
      showConfirmModal := false;
    }
  }

  /** Under the page invariant the bill's total is the sum of quantity times price
      over its items. */
  lemma LedgerTotalIsSubtotals(page: ReturnBillPage)
    requires page.Valid()
    ensures page.form.totalReturnAmount == Subtotals(page.form.returnItems)
  {
    TotalIsSumOfSubtotals(page.form.returnItems);
  }
}
