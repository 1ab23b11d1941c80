/**
 * The product management REST API: an in-memory table `products_db` keyed by
 * integer ids, filled from the counter `next_id`, with create, read, update, delete
 * and two listing endpoints. Request bodies are checked against the field
 * constraints before a handler runs; a missing id is answered with 404.
 */
module Products {
  import opened Common
  import opened Text

  /** `datetime.now()` readings, which the handlers receive as parameters. */
  type Timestamp = int

  /** `ProductBase`: the fields a client supplies. Prices are exact reals. */
  datatype ProductData = ProductData(
    name: String,
    description: Option<String>,
    price: real,
    quantity: int,
    category: String)

  /** `Product`: a stored record. */
  datatype Product = Product(id: int, data: ProductData, createdAt: Timestamp, updatedAt: Timestamp)

  /** `ProductUpdate`: every field optional; `None` means the client did not send it. */
  datatype ProductUpdate = ProductUpdate(
    name: Option<String>,
    description: Option<Option<String>>,
    price: Option<real>,
    quantity: Option<int>,
    category: Option<String>)

  /** One entry of `model_dump(exclude_unset=True)`. */
  datatype Field =
    | NameField(name: String)
    | DescriptionField(description: Option<String>)
    | PriceField(price: real)
    | QuantityField(quantity: int)
    | CategoryField(category: String)

  /** Why a request fails: the body breaks a field constraint (422), or the product or
      category is not there (404). */
  datatype ApiError = ValidationError | NotFound(detail: String)

  datatype Result<T> = Ok(value: T) | Err(error: ApiError)

  function StatusCode(e: ApiError): int {
    match e
    case ValidationError => 422
    case NotFound(_) => 404
  }

  // ---------------------------------------------------------------------------
  // Field constraints

  predicate ValidName(name: String) { 1 <= |name| <= 100 }
  predicate ValidDescription(description: Option<String>) { description.None? || |description.value| <= 500 }
  predicate ValidPrice(price: real) { price > 0.0 }
  predicate ValidQuantity(quantity: int) { quantity >= 0 }
  predicate ValidCategory(category: String) { 1 <= |category| <= 50 }

  /** The constraints of `ProductBase`. */
  predicate ValidData(d: ProductData) {
    ValidName(d.name) && ValidDescription(d.description) && ValidPrice(d.price)
    && ValidQuantity(d.quantity) && ValidCategory(d.category)
  }

  /** The constraints of `ProductUpdate`, on the fields that are sent. */
  predicate ValidUpdate(u: ProductUpdate) {
    (u.name.Some? ==> ValidName(u.name.value))
    && (u.description.Some? ==> ValidDescription(u.description.value))
    && (u.price.Some? ==> ValidPrice(u.price.value))
    && (u.quantity.Some? ==> ValidQuantity(u.quantity.value))
    && (u.category.Some? ==> ValidCategory(u.category.value))
  }

  // ---------------------------------------------------------------------------
  // Updates

  /** `model_dump(exclude_unset=True)`: the fields that were sent, in declaration order. */
  function UpdateData(u: ProductUpdate): seq<Field> {
    NameSent(u) + DescriptionSent(u) + PriceSent(u) + QuantitySent(u) + CategorySent(u)
  }

  function NameSent(u: ProductUpdate): seq<Field> {
    if u.name.Some? then [NameField(u.name.value)] else []
  }

  function DescriptionSent(u: ProductUpdate): seq<Field> {
    if u.description.Some? then [DescriptionField(u.description.value)] else []
  }

  function PriceSent(u: ProductUpdate): seq<Field> {
    if u.price.Some? then [PriceField(u.price.value)] else []
  }

  function QuantitySent(u: ProductUpdate): seq<Field> {
    if u.quantity.Some? then [QuantityField(u.quantity.value)] else []
  }

  function CategorySent(u: ProductUpdate): seq<Field> {
    if u.category.Some? then [CategoryField(u.category.value)] else []
  }

  /** `stored_product[field] = value` */
  function SetField(d: ProductData, f: Field): ProductData {
    match f
    case NameField(v) => d.(name := v)
    case DescriptionField(v) => d.(description := v)
    case PriceField(v) => d.(price := v)
    case QuantityField(v) => d.(quantity := v)
    case CategoryField(v) => d.(category := v)
  }

  /** The assignments of the update loop, in order. */
  function SetFields(d: ProductData, fields: seq<Field>): ProductData {
    if |fields| == 0 then d else SetField(SetFields(d, fields[..|fields| - 1]), fields[|fields| - 1])
  }

  /** What an update means, field by field: a field that was sent takes the sent
      value, every other field keeps its stored value. */
  function Merged(d: ProductData, u: ProductUpdate): ProductData {
    ProductData(
      u.name.GetOr(d.name),
      u.description.GetOr(d.description),
      u.price.GetOr(d.price),
      u.quantity.GetOr(d.quantity),
      u.category.GetOr(d.category))
  }

  /** Assigning the sent fields one by one gives the merged record. */
  lemma UpdateLoopMerges(d: ProductData, u: ProductUpdate)
    ensures SetFields(d, UpdateData(u)) == Merged(d, u)
  {
    var n, e, p, q := NameSent(u), DescriptionSent(u), PriceSent(u), QuantitySent(u);
    var d1 := d.(name := u.name.GetOr(d.name));
    assert SetFields(d, n) == d1 by {
      SetFieldsThen(d, [], n, d);
      assert [] + n == n;
    }
    var d2 := d1.(description := u.description.GetOr(d.description));
    assert SetFields(d, n + e) == d2 by {
      SetFieldsThen(d, n, e, d1);
    }
    var d3 := d2.(price := u.price.GetOr(d.price));
    assert SetFields(d, n + e + p) == d3 by {
      SetFieldsThen(d, n + e, p, d2);
    }
    var d4 := d3.(quantity := u.quantity.GetOr(d.quantity));
    assert SetFields(d, n + e + p + q) == d4 by {
      SetFieldsThen(d, n + e + p, q, d3);
    }
    SetFieldsThen(d, n + e + p + q, CategorySent(u), d4);
  }

  /** `for field, value in update_data.items(): stored_product[field] = value` */
  method AssignFields(d: ProductData, fields: seq<Field>) returns (data: ProductData)
    ensures data == SetFields(d, fields)
  {
    data := d;
    for i := 0 to |fields|
      invariant data == SetFields(d, fields[..i])
    {
      assert fields[..i + 1][..i] == fields[..i];
      data := SetField(data, fields[i]);
    }
    assert fields[..|fields|] == fields;
  }

  /** Assigning at most one more field after `a`. */
  lemma SetFieldsThen(d: ProductData, a: seq<Field>, b: seq<Field>, x: ProductData)
    requires SetFields(d, a) == x && |b| <= 1
    ensures SetFields(d, a + b) == if |b| == 0 then x else SetField(x, b[0])
  {
    if |b| == 0 {
      assert a + b == a;
    } else {
      assert (a + b)[..|a + b| - 1] == a;
    }
  }

  /** A valid update of a valid record gives a valid record. */
  lemma MergedStaysValid(d: ProductData, u: ProductUpdate)
    requires ValidData(d) && ValidUpdate(u)
    ensures ValidData(Merged(d, u))
  {
  }

  // ---------------------------------------------------------------------------
  // Listing

  /** `c.lower() == category.lower()` */
  predicate SameCategory(p: Product, category: String) {
    Lower(p.data.category) == Lower(category)
  }

  /** `[p for p in products if p["category"].lower() == category.lower()]` */
  function InCategory(products: seq<Product>, category: String): seq<Product> {
    if |products| == 0 then []
    else
      InCategory(products[..|products| - 1], category)
      + (if SameCategory(products[|products| - 1], category) then [products[|products| - 1]] else [])
  }

  /** The filter keeps exactly the matching products. */
  lemma {:induction false} InCategoryMembers(products: seq<Product>, category: String)
    ensures forall p :: p in InCategory(products, category) <==> p in products && SameCategory(p, category)
    ensures |InCategory(products, category)| <= |products|
  {
    if |products| > 0 {
      var init := products[..|products| - 1];
      InCategoryMembers(init, category);
      assert products == init + [products[|products| - 1]];
    }
  }

  /** A slice bound as Python normalises it: negative counts from the end, then clamp. */
  function SliceBound(i: int, n: nat): (r: nat)
    ensures r <= n
  {
    if i < 0 then (if i + n < 0 then 0 else i + n) else if i > n then n else i
  }

  /** `s[start:stop]` */
  function PySlice<T>(s: seq<T>, start: int, stop: int): (r: seq<T>)
    ensures |r| <= |s|
    ensures 0 <= start <= stop ==> |r| <= stop - start
    ensures forall x :: x in r ==> x in s
  {
    var a := SliceBound(start, |s|);
    var b := SliceBound(stop, |s|);
    if a < b then s[a..b] else []
  }

  /** With non-negative arguments, `s[skip:skip + limit]` is the window of at most
      `limit` elements that starts at `skip`: at offset `i` it holds the element at
      `skip + i`, and it runs to `skip + limit` or to the end of the list, whichever
      comes first. */
  lemma PageWindow<T>(s: seq<T>, skip: int, limit: int)
    ensures 0 <= skip && 0 <= limit ==>
              var r := PySlice(s, skip, skip + limit);
              && |r| == (if skip >= |s| then 0 else if skip + limit <= |s| then limit else |s| - skip)
              && forall i :: 0 <= i < |r| ==> r[i] == s[skip + i]
    ensures 0 <= skip && 0 <= limit && skip + limit <= |s| ==> PySlice(s, skip, skip + limit) == s[skip..skip + limit]
  {
  }

  /** `str(product_id)` */
  function IntToString(i: int): String {
    if i < 0 then "-" + NatToString(-i) else NatToString(i)
  }

  /** The 404 detail for a missing id. */
  function MissingProduct(id: int): ApiError {
    NotFound("Product with id " + IntToString(id) + " not found")
  }

  /** The sample products `startup_event` inserts. */
  const SampleProducts: seq<ProductData> := [
    ProductData("Laptop", Some("High-performance laptop for professionals"), 999.99, 50, "Electronics"),
    ProductData("Wireless Mouse", Some("Ergonomic wireless mouse"), 29.99, 200, "Accessories")
  ]

  /** `products_db` with `next_id`. The dict's iteration order is kept as `order`, the
      keys in insertion order. */
  class ProductStore {
    var products: map<int, Product>
    var order: seq<int>
    var nextId: int

    /** Every stored record sits under its own id, which is below the counter and
        satisfies the field constraints; the key order lists each key once, and since
        every new key is the counter, in increasing order. */
    predicate Valid()
      reads this
    {
      && 1 <= nextId
      && (forall id :: id in products ==> 1 <= id < nextId && products[id].id == id && ValidData(products[id].data))
      && (forall i :: 0 <= i < |order| ==> order[i] in products)
      && (forall id :: id in products ==> id in order)
      && (forall i, j :: 0 <= i < j < |order| ==> order[i] < order[j])
    }

    /** The module-level `products_db = {}` and `next_id = 1`. */
    constructor ()
      ensures Valid()
      ensures products == map[] && order == [] && nextId == 1
    {
      products := map[];
      order := [];
      nextId := 1;
    }

    /** `list(products_db.values())` */
    function Values(): seq<Product>
      requires Valid()
      reads this
    {
      seq(|order|, i requires 0 <= i < |order| && Valid() reads this => products[order[i]])
    }

    /** The listed values are exactly the stored records. */
    lemma StoredAreValues()
      requires Valid()
      ensures forall p :: p in Values() <==> p.id in products && products[p.id] == p
      ensures forall id :: id in products ==> products[id] in Values()
    {
      var vs := Values();
      forall p | p in vs ensures p.id in products && products[p.id] == p {
        var i :| 0 <= i < |vs| && vs[i] == p;
      }
      forall p: Product | p.id in products && products[p.id] == p ensures p in vs {
        var i :| 0 <= i < |order| && order[i] == p.id;
        assert vs[i] == p;
      }
    }

    /** Store a record under the counter and advance the counter. */
    method Insert(data: ProductData, now: Timestamp) returns (product: Product)
      requires Valid() && ValidData(data)
      modifies this
      ensures Valid()
      ensures product == Product(old(nextId), data, now, now)
      ensures old(nextId) !in old(products)
      ensures products == old(products)[old(nextId) := product]
      ensures order == old(order) + [old(nextId)]
      ensures nextId == old(nextId) + 1
    {
      product := Product(nextId, data, now, now);
      products := products[nextId := product];
      order := order + [nextId];
      nextId := nextId + 1;
    }

    /** `startup_event`: insert the two sample products, each stamped with its own
        clock reading. */
    method StartupEvent(clock: seq<Timestamp>)
      requires Valid() && |clock| == |SampleProducts|
      modifies this
      ensures Valid()
      ensures nextId == old(nextId) + 2
      ensures products == old(products)[old(nextId) := Product(old(nextId), SampleProducts[0], clock[0], clock[0])]
                                       [old(nextId) + 1 := Product(old(nextId) + 1, SampleProducts[1], clock[1], clock[1])]
      ensures order == old(order) + [old(nextId), old(nextId) + 1]
    {
      for k := 0 to |SampleProducts|
        invariant Valid()
        invariant nextId == old(nextId) + k
        invariant k == 0 ==> products == old(products) && order == old(order)
        invariant k == 1 ==> products == old(products)[old(nextId) := Product(old(nextId), SampleProducts[0], clock[0], clock[0])]
        invariant k == 1 ==> order == old(order) + [old(nextId)]
        invariant k == 2 ==> products == old(products)[old(nextId) := Product(old(nextId), SampleProducts[0], clock[0], clock[0])]
                                       [old(nextId) + 1 := Product(old(nextId) + 1, SampleProducts[1], clock[1], clock[1])]
        invariant k == 2 ==> order == old(order) + [old(nextId), old(nextId) + 1]
      {
        var now := clock[k];
        var product := Insert(SampleProducts[k], now);
      }
    }

    /** The stored products in key order, restricted to `category` (ignoring letter
        case) when a non-empty one is given: the list `GET /products` slices. */
    function Listed(category: Option<String>): seq<Product>
      requires Valid()
      reads this
    {
      if category.Some? && category.value != "" then InCategory(Values(), category.value) else Values()
    }

    /** `GET /products`: the listed products sliced `[skip:skip + limit]`. For
        non-negative arguments the page holds, at offset `i`, the listed product at
        position `skip + i`, for every position from `skip` up to `skip + limit` that
        the list has. */
    function GetAllProducts(skip: int, limit: int, category: Option<String>): (r: seq<Product>)
      requires Valid()
      reads this
      ensures forall p :: p in r ==> p.id in products && products[p.id] == p
      ensures category.Some? && category.value != "" ==> forall p :: p in r ==> SameCategory(p, category.value)
      ensures 0 <= skip && 0 <= limit ==> |r| <= limit
      ensures 0 <= skip && 0 <= limit ==>
                var listed := Listed(category);
                && |r| == (if skip >= |listed| then 0 else if skip + limit <= |listed| then limit else |listed| - skip)
                && forall i :: 0 <= i < |r| ==> r[i] == listed[skip + i]
    {
      var listed := Listed(category);
      InCategoryMembers(Values(), if category.Some? then category.value else "");
      StoredAreValues();
      PageWindow(listed, skip, limit);
      PySlice(listed, skip, skip + limit)
    }

    /** `GET /products/{id}` */
    function GetProduct(id: int): (r: Result<Product>)
      reads this
      ensures r.Ok? <==> id in products
      ensures r.Ok? ==> r.value == products[id]
      ensures r.Err? ==> r.error == MissingProduct(id)
    {
      if id !in products then Err(MissingProduct(id)) else Ok(products[id])
    }

    /** `GET /products/category/{category}`: every product of the category, or 404 when
        there is none. */
    function GetProductsByCategory(category: String): (r: Result<seq<Product>>)
      requires Valid()
      reads this
      ensures r.Err? <==> forall id :: id in products ==> !SameCategory(products[id], category)
      ensures r.Err? ==> r.error == NotFound("No products found in category '" + category + "'")
      ensures r.Ok? ==> forall p :: p in r.value <==> p.id in products && products[p.id] == p && SameCategory(p, category)
    {
      InCategoryMembers(Values(), category);
      StoredAreValues();
      var matching := InCategory(Values(), category);
      if |matching| == 0 then Err(NotFound("No products found in category '" + category + "'"))
      else assert matching[0] in matching; Ok(matching)
    }

    /** `POST /products`: a body that breaks a constraint is refused with 422 before the
        handler runs; otherwise the product is stored under the counter, which
        advances by one. */
    method CreateProduct(data: ProductData, now: Timestamp) returns (r: Result<Product>)
      requires Valid()
      modifies this
      ensures Valid()
      ensures !ValidData(data) ==> r == Err(ValidationError) && unchanged(this)
      ensures ValidData(data) ==>
                && r == Ok(Product(old(nextId), data, now, now))
                && old(nextId) !in old(products)
                && products == old(products)[old(nextId) := r.value]
                && order == old(order) + [old(nextId)]
                && nextId == old(nextId) + 1
    {
      if !ValidData(data) {
        return Err(ValidationError);
      }
      var product := Insert(data, now);
      r := Ok(product);
    }

    /** `PUT /products/{id}`: the body is checked first (422), then the id (404); the
        sent fields are assigned one by one and `updated_at` is refreshed. */
    method UpdateProduct(id: int, u: ProductUpdate, now: Timestamp) returns (r: Result<Product>)
      requires Valid()
      modifies this
      ensures Valid()
      ensures !ValidUpdate(u) ==> r == Err(ValidationError) && unchanged(this)
      ensures ValidUpdate(u) && id !in old(products) ==> r == Err(MissingProduct(id)) && unchanged(this)
      ensures ValidUpdate(u) && id in old(products) ==>
                && r == Ok(Product(id, Merged(old(products)[id].data, u), old(products)[id].createdAt, now))
                && products == old(products)[id := r.value]
                && order == old(order) && nextId == old(nextId)
    {
      if !ValidUpdate(u) {
        return Err(ValidationError);
      }
      if id !in products {
        return Err(MissingProduct(id));
      }
      var stored := products[id];
      var data := AssignFields(stored.data, UpdateData(u));
      UpdateLoopMerges(stored.data, u);
      MergedStaysValid(stored.data, u);
      stored := stored.(data := data, updatedAt := now);
      products := products[id := stored];
      r := Ok(stored);
    }

    /** `DELETE /products/{id}`: 404 when absent; otherwise exactly that key goes, and the
        counter stays where it is, so the id is never handed out again. */
    method DeleteProduct(id: int) returns (r: Result<()>)
      requires Valid()
      modifies this
      ensures Valid()
      ensures id !in old(products) ==> r == Err(MissingProduct(id)) && unchanged(this)
      ensures id in old(products) ==>
                && r == Ok(())
                && products == old(products) - {id}
                && order == RemoveKey(old(order), id)
                && nextId == old(nextId)
    {
      if id !in products {
        return Err(MissingProduct(id));
      }
      RemoveKeyKeeps(order, id);
      var remaining := RemoveKey(order, id);
      forall i | 0 <= i < |remaining| ensures remaining[i] in products - {id} {
        assert remaining[i] in remaining;
      }
      products := products - {id};
      order := remaining;
      r := Ok(());
    }
  }

  /** The key order after `del products_db[id]`. */
  function RemoveKey(order: seq<int>, id: int): seq<int> {
    if |order| == 0 then []
    else if order[0] == id then RemoveKey(order[1..], id)
    else [order[0]] + RemoveKey(order[1..], id)
  }

  /** Removing a key keeps every other key, in the same relative order. */
  lemma {:induction false} RemoveKeyKeeps(order: seq<int>, id: int)
    ensures forall k :: k in RemoveKey(order, id) <==> k in order && k != id
    ensures (forall i, j :: 0 <= i < j < |order| ==> order[i] < order[j]) ==>
              forall i, j :: 0 <= i < j < |RemoveKey(order, id)| ==> RemoveKey(order, id)[i] < RemoveKey(order, id)[j]
  {
    if |order| > 0 {
      RemoveKeyKeeps(order[1..], id);
      if (forall i, j :: 0 <= i < j < |order| ==> order[i] < order[j]) && order[0] != id {
        var r := RemoveKey(order, id);
        assert r == [order[0]] + RemoveKey(order[1..], id);
        forall i, j | 0 <= i < j < |r| ensures r[i] < r[j] {
          if i == 0 {
            assert r[j] in RemoveKey(order[1..], id);
            assert r[j] in order[1..];
          }
        }
      }
    }
  }
}
