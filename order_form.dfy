/** The order form: a plain object of loosely typed fields plus a list of
    product objects, the handlers that edit them, the loading of an order to
    edit, and the submit rules that turn the form into the saved payload. */
module OrderForm {
  import opened JsNumbers
  import opened JsStrings
  import opened JsValues
  import opened Seqs

  /** The property names the form and its products use, and any other name
      an edited order brings along (`_id`, `tag`, ...). */
  datatype Key =
    | ShopifyId | OrderId | OrderDate | CustomerName | CustomerPhone | CustomerAddress
    | City | State | Pincode | DeadWeight | Length | Breadth | Height | VolumetricWeight | Amount
    | PaymentMode | HsnCode | InvoiceReference | Status | DestinationName
    | DestinationAddressLine1 | DestinationAddressLine2 | DestinationCity | DestinationState
    | DestinationPincode | DestinationPhone
    | ProductName | Quantity | ImageUrl | UploadedImageUrl | Category | Price
    | OtherKey(name: string)

  /** A plain object: property name to value. A name that is not a key reads
      as `undefined`. */
  type Record = map<Key, JsValue>

  function Get(r: Record, k: Key): JsValue {
    if k in r then r[k] else Undefined
  }

  /** The six inputs whose text is converted with `Number`. */
  const NumberFields: set<Key> := {DeadWeight, Length, Breadth, Height, VolumetricWeight, Amount}

  /** `value === "" ? "" : Number(value)` for a numeric input; the text as
      typed otherwise. */
  function InputValue(numeric: bool, value: string): JsValue {
    if !numeric then Str(value)
    else if value == "" then Str("")
    else Num(StringToNumber(value))
  }

  /** The product a new form starts with and `addProduct` appends. */
  function DefaultProduct(): Record {
    map[ProductName := Str(""), Quantity := Num(Finite(1.0)), ImageUrl := Str(""),
        UploadedImageUrl := Str(""), Category := Str("Home"), Price := Num(Finite(0.0))]
  }

  /** The properties of `initialOrder` besides its product list. */
  const FormKeys: set<Key> := {
    ShopifyId, OrderId, OrderDate, CustomerName, CustomerPhone, CustomerAddress, City, State, Pincode,
    DeadWeight, Length, Breadth, Height, VolumetricWeight, Amount, PaymentMode, HsnCode, InvoiceReference,
    Status, DestinationName, DestinationAddressLine1, DestinationAddressLine2, DestinationCity,
    DestinationState, DestinationPincode, DestinationPhone}

  /** The value of a property in `initialOrder`: `"COD"`, `"New"` and the
      warehouse name for three of them, `""` for the others. */
  function InitialValue(k: Key): JsValue {
    match k
    case PaymentMode => Str("COD")
    case Status => Str("New")
    case DestinationName => Str("Ikkasa Warehouse")
    case _ => if k in FormKeys then Str("") else Undefined
  }

  /** `initialOrder` without its product list. */
  function InitialFields(): Record {
    map k | k in FormKeys :: InitialValue(k)
  }

  // ---------------------------------------------------------------------
  // Editing
  // ---------------------------------------------------------------------

  /** `handleChange`: only the property `name` changes; the six numeric
      inputs hold `Number(value)`, or `""` when the input is empty. */
  function FieldChanged(fields: Record, name: Key, value: string): (r: Record)
    ensures r.Keys == fields.Keys + {name}
    ensures name !in NumberFields ==> Get(r, name) == Str(value)
    ensures name in NumberFields && value == "" ==> Get(r, name) == Str("")
    ensures name in NumberFields && value != "" ==> Get(r, name) == Num(StringToNumber(value))
    ensures forall k :: k != name ==> Get(r, k) == Get(fields, k)
  {
    fields[name := InputValue(name in NumberFields, value)]
  }

  /** `handleProductChange` on one product: the named field takes the input
      (`quantity` and `price` through `Number`, `""` staying `""`), the two
      image URLs keep their previous values whatever the field, and every
      other field stays. */
  function ProductChanged(p: Record, field: Key, value: string): (r: Record)
    ensures field != ImageUrl && field != UploadedImageUrl ==>
      Get(r, field) == InputValue(field == Quantity || field == Price, value)
    ensures Get(r, ImageUrl) == Get(p, ImageUrl) && Get(r, UploadedImageUrl) == Get(p, UploadedImageUrl)
    ensures forall k :: k != field && k != ImageUrl && k != UploadedImageUrl ==> Get(r, k) == Get(p, k)
  {
    p[field := InputValue(field == Quantity || field == Price, value)]
      [ImageUrl := Get(p, ImageUrl)][UploadedImageUrl := Get(p, UploadedImageUrl)]
  }

  /** Typing the digits of `n` into a quantity stores the number `n`. */
  lemma TypedQuantity(p: Record, n: nat)
    ensures Get(ProductChanged(p, Quantity, DecimalString(n)), Quantity) == Num(Finite(n as real))
  {
    DecimalStringRoundTrip(n);
  }

  /** `products` with product `i` changed and the others as they are. */
  function ProductsChanged(products: seq<Record>, i: nat, field: Key, value: string): (r: seq<Record>)
    requires i < |products|
    ensures |r| == |products| && r[i] == ProductChanged(products[i], field, value)
    ensures forall k :: 0 <= k < |r| && k != i ==> r[k] == products[k]
  {
    products[i := ProductChanged(products[i], field, value)]
  }

  /** `splice(i, 1)` on a copy: product `i` is dropped, the others keep their
      order; an index past the end removes nothing. */
  function Spliced(s: seq<Record>, i: nat): (r: seq<Record>)
    ensures i < |s| ==> |r| == |s| - 1
    ensures i < |s| ==> forall k :: 0 <= k < i ==> r[k] == s[k]
    ensures i < |s| ==> forall k :: i <= k < |r| ==> r[k] == s[k + 1]
    ensures i >= |s| ==> r == s
  {
    if i < |s| then s[..i] + s[i + 1..] else s
  }

  /** Removing the product just added restores the list. */
  lemma AddThenRemove(s: seq<Record>)
    ensures Spliced(s + [DefaultProduct()], |s|) == s
  {
    assert (s + [DefaultProduct()])[..|s|] == s;
  }

  // ---------------------------------------------------------------------
  // Loading an order to edit
  // ---------------------------------------------------------------------

  /** The order handed to the form: its properties and, apart, its product
      list (`None` when the property is absent). */
  datatype EditData = EditData(props: Record, products: Option<seq<Record>>)

  /** A product of the edited order as the form holds it: only the six form
      fields, with `""`, `"Home"` and 0 for falsy values and a quantity of
      `Number(q) || 1`, which is never 0 or NaN. */
  function LoadedProduct(p: Record): (r: Record)
    ensures r.Keys == DefaultProduct().Keys
    ensures Get(r, ImageUrl) == Or(Get(p, ImageUrl), Str(""))
    ensures Get(r, UploadedImageUrl) == Or(Get(p, UploadedImageUrl), Str(""))
    ensures Get(r, ProductName) == Or(Get(p, ProductName), Str(""))
    ensures Get(r, Category) == Or(Get(p, Category), Str("Home"))
    ensures Get(r, Price) == Or(Get(p, Price), Num(Finite(0.0)))
    ensures Truthy(Get(r, Quantity)) && Get(r, Quantity).Num?
    ensures Truthy(Num(ToNumber(Get(p, Quantity)))) ==> Get(r, Quantity) == Num(ToNumber(Get(p, Quantity)))
    ensures !Truthy(Num(ToNumber(Get(p, Quantity)))) ==> Get(r, Quantity) == Num(Finite(1.0))
  {
    map[ProductName := Or(Get(p, ProductName), Str("")),
        Quantity := Or(Num(ToNumber(Get(p, Quantity))), Num(Finite(1.0))),
        ImageUrl := Or(Get(p, ImageUrl), Str("")),
        UploadedImageUrl := Or(Get(p, UploadedImageUrl), Str("")),
        Category := Or(Get(p, Category), Str("Home")),
        Price := Or(Get(p, Price), Num(Finite(0.0)))]
  }

  /** The product list of the edited order; a missing or empty list becomes
      the single default product, so the form always has one. */
  function LoadedProducts(products: Option<seq<Record>>): (r: seq<Record>)
    ensures |r| >= 1
    ensures products.Some? && products.value != [] ==>
      |r| == |products.value| && forall k :: 0 <= k < |r| ==> r[k] == LoadedProduct(products.value[k])
    ensures products.None? || products.value == [] ==> r == [DefaultProduct()]
  {
    if products.Some? && |products.value| > 0 then
      seq(|products.value|, k requires 0 <= k < |products.value| => LoadedProduct(products.value[k]))
    else [DefaultProduct()]
  }

  /** `isoDate.substr(0, 10)` */
  function DatePart(isoDate: string): string {
    if |isoDate| <= 10 then isoDate else isoDate[..10]
  }

  /** `{ ...initialOrder, ...editData, ... }` without the products: a property
      of the edited order overrides the initial one, an absent one keeps it,
      and the listed properties get their `??` and `||` defaults. `isoDate`
      is `new Date(editData.orderDate).toISOString()`. */
  function EditFields(editData: Record, isoDate: string): Record {
    (InitialFields() + editData)
      [OrderDate := if Truthy(Get(editData, OrderDate)) then Str(DatePart(isoDate)) else Str("")]
      [DeadWeight := Coalesce(Get(editData, DeadWeight), Str(""))]
      [Length := Coalesce(Get(editData, Length), Str(""))]
      [Breadth := Coalesce(Get(editData, Breadth), Str(""))]
      [Height := Coalesce(Get(editData, Height), Str(""))]
      [VolumetricWeight := Coalesce(Get(editData, VolumetricWeight), Str(""))]
      [Amount := Coalesce(Get(editData, Amount), Str(""))]
      [PaymentMode := Coalesce(Get(editData, PaymentMode), Str("COD"))]
      [Status := Or(Get(editData, Status), Str("New"))]
  }

  /** The date is cut to its day, and payment mode and status get their
      defaults. */
  lemma EditDefaults(editData: Record, isoDate: string)
    ensures var r := EditFields(editData, isoDate);
      && Get(r, OrderDate) == (if Truthy(Get(editData, OrderDate)) then Str(DatePart(isoDate)) else Str(""))
      && Get(r, PaymentMode) == Coalesce(Get(editData, PaymentMode), Str("COD"))
      && Get(r, Status) == Or(Get(editData, Status), Str("New"))
  {
  }

  /** An empty or missing numeric property becomes `""`. */
  lemma EditBlankNumbers(editData: Record, isoDate: string, f: Key)
    requires f in NumberFields
    ensures Get(EditFields(editData, isoDate), f) == Coalesce(Get(editData, f), Str(""))
  {
  }

  /** Every other property comes from the edited order when it has one and
      from `initialOrder` otherwise. */
  lemma EditKeepsOtherProperties(editData: Record, isoDate: string, k: Key)
    requires k !in NumberFields && k != OrderDate && k != PaymentMode && k != Status
    ensures Get(EditFields(editData, isoDate), k) == if k in editData then editData[k] else Get(InitialFields(), k)
  {
  }

  // ---------------------------------------------------------------------
  // Submit
  // ---------------------------------------------------------------------

  datatype RejectReason = MissingCustomerDetails | NoProducts

  /** A product as the payload carries it. */
  datatype SavedProduct = SavedProduct(
    productName: JsValue, quantity: JsNumber, imageUrl: JsValue, uploadedImageUrl: JsValue,
    category: JsValue, price: JsNumber)

  /** What the form hands to `onSave`. Properties of the form outside this
      shape, such as `_id`, are not sent; the order date is kept as its text
      (the payload wraps it in a `Date`). */
  datatype Payload = Payload(
    shopifyId: JsValue, orderId: JsValue, orderDate: JsValue,
    customerName: JsValue, customerPhone: JsValue, customerAddress: JsValue,
    city: JsValue, state: JsValue, pincode: JsValue,
    products: seq<SavedProduct>,
    deadWeight: JsValue, length: JsValue, breadth: JsValue, height: JsValue,
    volumetricWeight: JsValue, amount: JsValue,
    paymentMode: JsValue, hsnCode: JsValue, invoiceReference: JsValue, status: JsValue,
    destinationName: JsValue, destinationAddressLine1: JsValue, destinationAddressLine2: JsValue,
    destinationCity: JsValue, destinationState: JsValue, destinationPincode: JsValue,
    destinationPhone: JsValue)

  /** The submit is rejected (a toast, no `onSave`), saves a payload, or
      throws: `item.productName.trim()` on a product whose name is not a
      string raises a `TypeError`. */
  datatype SubmitOutcome = Rejected(reason: RejectReason) | Saved(payload: Payload) | Threw

  predicate CustomerComplete(fields: Record) {
    Truthy(Get(fields, CustomerName)) && Truthy(Get(fields, CustomerPhone)) &&
    Truthy(Get(fields, CustomerAddress))
  }

  /** `item.productName.trim() && item.quantity > 0` */
  predicate ValidProduct(p: Record) {
    Get(p, ProductName).Str? && Trim(Get(p, ProductName).s) != "" && IsPositive(Get(p, Quantity))
  }

  /** Some product's name is not a string, so trimming it throws. */
  predicate NameNotString(products: seq<Record>) {
    exists k :: 0 <= k < |products| && !Get(products[k], ProductName).Str?
  }

  /** A valid product as the payload carries it: truthy image URLs and
      category are kept, falsy ones default to `""` and `"Home"`, and the
      price is `Number(price)`, or 0 when that is NaN. */
  function PayloadProduct(p: Record): (r: SavedProduct)
    ensures r.productName == Get(p, ProductName) && r.quantity == ToNumber(Get(p, Quantity))
    ensures Defaulted(r.imageUrl, Get(p, ImageUrl), Str(""))
    ensures Defaulted(r.uploadedImageUrl, Get(p, UploadedImageUrl), Str(""))
    ensures Defaulted(r.category, Get(p, Category), Str("Home"))
    ensures ToNumber(Get(p, Price)).Finite? ==> r.price == ToNumber(Get(p, Price))
    ensures !ToNumber(Get(p, Price)).Finite? ==> r.price == Finite(0.0)
  {
    var price := ToNumber(Get(p, Price));
    SavedProduct(
      Get(p, ProductName),
      ToNumber(Get(p, Quantity)),
      Or(Get(p, ImageUrl), Str("")),
      Or(Get(p, UploadedImageUrl), Str("")),
      Or(Get(p, Category), Str("Home")),
      if price.Finite? && price.value != 0.0 then price else Finite(0.0))
  }

  /** `order.f === "" ? undefined : Number(order.f)` */
  function OptionalNumber(v: JsValue): (r: JsValue)
    ensures v == Str("") ==> r == Undefined
    ensures v != Str("") ==> r == Num(ToNumber(v))
  {
    if v == Str("") then Undefined else Num(ToNumber(v))
  }

  /** The payload built from the form and its valid products: the products
      in their order, empty numeric fields left undefined, and the defaults
      for payment mode, status and destination. */
  function BuildPayload(fields: Record, valid: seq<Record>): (p: Payload)
    ensures |p.products| == |valid| && forall k :: 0 <= k < |valid| ==> p.products[k] == PayloadProduct(valid[k])
    ensures p.deadWeight == OptionalNumber(Get(fields, DeadWeight)) && p.length == OptionalNumber(Get(fields, Length))
    ensures p.breadth == OptionalNumber(Get(fields, Breadth)) && p.height == OptionalNumber(Get(fields, Height))
    ensures p.volumetricWeight == OptionalNumber(Get(fields, VolumetricWeight)) && p.amount == OptionalNumber(Get(fields, Amount))
    ensures p.orderDate == if Truthy(Get(fields, OrderDate)) then Get(fields, OrderDate) else Undefined
    ensures Truthy(p.paymentMode) && Truthy(p.status) && Truthy(p.destinationName)
    ensures Defaulted(p.paymentMode, Get(fields, PaymentMode), Str("COD"))
    ensures Defaulted(p.status, Get(fields, Status), Str("New"))
    ensures Defaulted(p.destinationName, Get(fields, DestinationName), Str("Ikkasa Warehouse"))
    ensures Defaulted(p.shopifyId, Get(fields, ShopifyId), Str(""))
    ensures Defaulted(p.hsnCode, Get(fields, HsnCode), Str("")) && Defaulted(p.invoiceReference, Get(fields, InvoiceReference), Str(""))
    ensures Defaulted(p.destinationAddressLine1, Get(fields, DestinationAddressLine1), Str(""))
    ensures Defaulted(p.destinationAddressLine2, Get(fields, DestinationAddressLine2), Str(""))
    ensures Defaulted(p.destinationCity, Get(fields, DestinationCity), Str(""))
    ensures Defaulted(p.destinationState, Get(fields, DestinationState), Str(""))
    ensures Defaulted(p.destinationPincode, Get(fields, DestinationPincode), Str(""))
    ensures Defaulted(p.destinationPhone, Get(fields, DestinationPhone), Str(""))
    ensures p.orderId == Get(fields, OrderId) && p.customerName == Get(fields, CustomerName)
    ensures p.customerPhone == Get(fields, CustomerPhone) && p.customerAddress == Get(fields, CustomerAddress)
    ensures p.city == Get(fields, City) && p.state == Get(fields, State) && p.pincode == Get(fields, Pincode)
  {
    Payload(
      Or(Get(fields, ShopifyId), Str("")),
      Get(fields, OrderId),
      if Truthy(Get(fields, OrderDate)) then Get(fields, OrderDate) else Undefined,
      Get(fields, CustomerName), Get(fields, CustomerPhone), Get(fields, CustomerAddress),
      Get(fields, City), Get(fields, State), Get(fields, Pincode),
      seq(|valid|, k requires 0 <= k < |valid| => PayloadProduct(valid[k])),
      OptionalNumber(Get(fields, DeadWeight)), OptionalNumber(Get(fields, Length)),
      OptionalNumber(Get(fields, Breadth)), OptionalNumber(Get(fields, Height)),
      OptionalNumber(Get(fields, VolumetricWeight)), OptionalNumber(Get(fields, Amount)),
      Or(Get(fields, PaymentMode), Str("COD")),
      Or(Get(fields, HsnCode), Str("")),
      Or(Get(fields, InvoiceReference), Str("")),
      Or(Get(fields, Status), Str("New")),
      Or(Get(fields, DestinationName), Str("Ikkasa Warehouse")),
      Or(Get(fields, DestinationAddressLine1), Str("")),
      Or(Get(fields, DestinationAddressLine2), Str("")),
      Or(Get(fields, DestinationCity), Str("")),
      Or(Get(fields, DestinationState), Str("")),
      Or(Get(fields, DestinationPincode), Str("")),
      Or(Get(fields, DestinationPhone), Str("")))
  }

  /** `handleSubmit`: missing customer details reject first; then every
      product's name is trimmed (throwing on a name that is not a string); no
      valid product rejects; otherwise the valid products, in their order,
      go into the payload. */
  function Submit(fields: Record, products: seq<Record>): (r: SubmitOutcome)
    ensures r == Rejected(MissingCustomerDetails) <==> !CustomerComplete(fields)
    ensures r.Threw? <==> CustomerComplete(fields) && NameNotString(products)
    ensures r == Rejected(NoProducts) <==>
      && CustomerComplete(fields)
      && (forall k :: 0 <= k < |products| ==> Get(products[k], ProductName).Str?)
      && (forall k :: 0 <= k < |products| ==> !ValidProduct(products[k]))
    ensures r.Saved? ==> r.payload == BuildPayload(fields, Filter(products, ValidProduct))
  {
    if !CustomerComplete(fields) then Rejected(MissingCustomerDetails)
    else if NameNotString(products) then Threw
    else
      var valid := Filter(products, ValidProduct);
      if |valid| == 0 then
        assert forall k :: 0 <= k < |products| ==> !ValidProduct(products[k]) by {
          forall k | 0 <= k < |products| ensures !ValidProduct(products[k]) {
            assert products[k] in products;
          }
        }
        Rejected(NoProducts)
      else
        assert exists k :: 0 <= k < |products| && ValidProduct(products[k]) by {
          assert valid[0] in products;
        }
        Saved(BuildPayload(fields, valid))
  }

  /** Every product of a saved payload has a non-blank name and a positive
      quantity, and the payload keeps the valid products in the order of the
      form. */
  lemma SavedProductsValid(fields: Record, products: seq<Record>)
    requires Submit(fields, products).Saved?
    ensures var ps := Submit(fields, products).payload.products;
      forall k :: 0 <= k < |ps| ==>
        ps[k].productName.Str? && Trim(ps[k].productName.s) != "" && ps[k].quantity.Finite? && ps[k].quantity.value > 0.0
    ensures IsSubsequence(Filter(products, ValidProduct), products)
  {
    var valid := Filter(products, ValidProduct);
    var ps := Submit(fields, products).payload.products;
    forall k | 0 <= k < |ps|
      ensures ps[k].productName.Str? && Trim(ps[k].productName.s) != "" && ps[k].quantity.Finite? && ps[k].quantity.value > 0.0
    {
      assert valid[k] in valid;
      assert ValidProduct(valid[k]);
    }
    FilterSubsequence(products, ValidProduct);
  }

  /** A fresh form cannot be submitted: the customer details are empty. */
  lemma InitialFormRejected()
    ensures Submit(InitialFields(), [DefaultProduct()]) == Rejected(MissingCustomerDetails)
  {
    assert Get(InitialFields(), CustomerName) == Str("");
  }

  /** An added, untouched product is not valid, so it changes nothing at
      submit. */
  lemma AddProductKeepsSubmit(fields: Record, products: seq<Record>)
    ensures Submit(fields, products + [DefaultProduct()]) == Submit(fields, products)
  {
    var d := DefaultProduct();
    var s := products + [d];
    assert Get(d, ProductName) == Str("");
    assert !ValidProduct(d) by {
      TrimOfTrimmed("");
    }
    FilterConcat(products, [d], ValidProduct);
    assert Filter([d], ValidProduct) == [];
    assert Filter(s, ValidProduct) == Filter(products, ValidProduct);
    assert NameNotString(s) == NameNotString(products) by {
      if NameNotString(s) {
        var k :| 0 <= k < |s| && !Get(s[k], ProductName).Str?;
        assert k < |products| && products[k] == s[k];
      }
      if NameNotString(products) {
        var k :| 0 <= k < |products| && !Get(products[k], ProductName).Str?;
        assert s[k] == products[k];
      }
    }
  }

  /** A loaded product with a non-blank name and a quantity that is not
      negative is valid at submit: a missing or zero quantity became 1. */
  lemma LoadedProductValid(p: Record)
    requires Get(p, ProductName).Str? && Trim(Get(p, ProductName).s) != ""
    requires !(ToNumber(Get(p, Quantity)).Finite? && ToNumber(Get(p, Quantity)).value < 0.0)
    ensures ValidProduct(LoadedProduct(p))
  {
    assert Get(p, ProductName).s != "";
    assert Get(LoadedProduct(p), ProductName) == Get(p, ProductName);
  }

  // ---------------------------------------------------------------------
  // The form component
  // ---------------------------------------------------------------------

  class Form {
    /** `order` without its products */
    var fields: Record
    /** `order.products` */
    var products: seq<Record>
    var uploadingProductIndex: Option<nat>

    constructor ()
      ensures fields == InitialFields() && products == [DefaultProduct()] && uploadingProductIndex == None
    {
      fields := InitialFields();
      products := [DefaultProduct()];
      uploadingProductIndex := None;
    }

    /** The `editData` effect: the edited order, or a fresh form. */
    method LoadEditData(editData: Option<EditData>, isoDate: string)
      modifies this
      ensures editData.Some? ==> fields == EditFields(editData.value.props, isoDate) && products == LoadedProducts(editData.value.products)
      ensures editData.None? ==> fields == InitialFields() && products == [DefaultProduct()]
      ensures uploadingProductIndex == None
    {
      if editData.Some? {
        fields := EditFields(editData.value.props, isoDate);
        products := LoadedProducts(editData.value.products);
      } else {
        fields := InitialFields();
        products := [DefaultProduct()];
      }
      uploadingProductIndex := None;
    }

    /** `handleChange` */
    method HandleChange(name: Key, value: string)
      modifies this
      ensures fields == FieldChanged(old(fields), name, value)
      ensures products == old(products) && uploadingProductIndex == old(uploadingProductIndex)
    {
      fields := FieldChanged(fields, name, value);
    }

    /** `handleProductChange`: the list is copied, product `i` of the copy is
      replaced, and the copy becomes the list. */
    method HandleProductChange(i: nat, field: Key, value: string)
      requires i < |products|
      modifies this
      ensures products == ProductsChanged(old(products), i, field, value)
      ensures fields == old(fields) && uploadingProductIndex == old(uploadingProductIndex)
    {
      var ps := products;
      var newProducts := new Record[|ps|](k requires 0 <= k < |ps| => ps[k]);
      newProducts[i] := ProductChanged(newProducts[i], field, value);
      products := newProducts[..];
    }

    /** `addProduct` */
    method AddProduct()
      modifies this
      ensures products == old(products) + [DefaultProduct()]
      ensures fields == old(fields) && uploadingProductIndex == old(uploadingProductIndex)
    {
      products := products + [DefaultProduct()];
    }

    /** `removeProduct`: `splice(i, 1)` on a copy of the list shifts the later
      products down by one. */
    method RemoveProduct(i: nat)
      modifies this
      ensures products == Spliced(old(products), i)
      ensures fields == old(fields) && uploadingProductIndex == old(uploadingProductIndex)
    {
      var ps := products;
      var filtered := new Record[|ps|](k requires 0 <= k < |ps| => ps[k]);
      if i < filtered.Length {
        var k := i;
        while k + 1 < filtered.Length
          modifies filtered
          invariant i <= k < filtered.Length
          invariant forall j :: 0 <= j < i ==> filtered[j] == ps[j]
          invariant forall j :: i <= j < k ==> filtered[j] == ps[j + 1]
          invariant forall j :: k <= j < filtered.Length ==> filtered[j] == ps[j]
        {
          filtered[k] := filtered[k + 1];
          k := k + 1;
        }
        products := filtered[..filtered.Length - 1];
      }
    }

    /** `handleSubmit` on the current form. */
    function SubmitOutcome(): SubmitOutcome
      reads this
    {
      Submit(fields, products)
    }
  }
}
