/**
 * Order creation (pages/api/product-orders/index.ts, POST): the body is validated,
 * the distinct product ids are looked up, an unknown id rejects the request, and
 * otherwise one priced line per requested item and their total make up the order.
 *
 * The product table is a map from id to product; the order the store would create
 * is returned together with the response status.
 */
module ProductOrdersApi {
  import opened Wrappers
  import opened Records
  import opened OrderSchema
  import opened Collections

  const CREATED := 201
  const MSG_UNAVAILABLE := "Algunos productos no están disponibles"
  const MSG_NOT_FOUND := "No pudimos encontrar uno de los productos seleccionados"

  /** A line of the new order, priced from the stored product. */
  datatype OrderLine = OrderLine(
    productId: int,
    productName: string,
    productCode: string,
    presentation: string,
    unitPrice: int,
    quantity: nat,
    subtotal: int)

  /** The order handed to the store. */
  datatype NewOrder = NewOrder(
    name: string,
    address: string,
    phone: string,
    accountId: string,
    total: int,
    products: seq<OrderLine>)

  datatype ApiError = InvalidBody(issues: seq<Issue>) | BadRequest(message: string)

  /** `req.body ?? {}` for a body already decoded; `None` is `undefined`. */
  function RequestBody(body: Option<Json>): Json {
    if body.None? || body.value.JNull? then JObj(map[]) else body.value
  }

  /** Each id in the table is the id of the product stored under it. */
  predicate KeyedById(db: map<int, ProductoVender>) {
    forall k :: k in db ==> db[k].id == k
  }

  /** The stored product a requested id names: a whole number that is a key of the table. */
  function Lookup(db: map<int, ProductoVender>, productId: real): (r: Option<ProductoVender>)
    ensures r.Some? <==> IsInteger(productId) && productId.Floor in db
  {
    if IsInteger(productId) && productId.Floor in db then Some(db[productId.Floor]) else None
  }

  function ProductIds(items: seq<OrderItem>): (r: seq<real>)
    ensures |r| == |items| && forall k :: 0 <= k < |items| ==> r[k] == items[k].productId
  {
    seq(|items|, k requires 0 <= k < |items| => items[k].productId)
  }

  /** The products `findMany` returns for the ids: those that exist. */
  function Found(ids: seq<real>, db: map<int, ProductoVender>): seq<ProductoVender>
    decreases |ids|
  {
    if ids == [] then []
    else
      var rest := Found(ids[1..], db);
      match Lookup(db, ids[0])
      case Some(p) => [p] + rest
      case None => rest
  }

  /** One line per item, in order; an item whose product is missing throws "No pudimos encontrar". */
  function Lines(items: seq<OrderItem>, db: map<int, ProductoVender>): (r: Result<seq<OrderLine>, ApiError>)
    ensures r.Ok? ==> |r.value| == |items|
    ensures r.Err? ==> r.error == BadRequest(MSG_NOT_FOUND)
    decreases |items|
  {
    if items == [] then Ok([])
    else
      var product :- match Lookup(db, items[0].productId)
                     case Some(p) => Ok(p)
                     case None => Err(BadRequest(MSG_NOT_FOUND));
      var rest :- Lines(items[1..], db);
      var unitPrice := product.precioVenta;
      var quantity := items[0].quantity;
      Ok([OrderLine(product.id, product.producto, product.codigo, product.presentacion,
                    unitPrice, quantity, unitPrice * quantity)] + rest)
  }

  /** `reduce((acc, item) => acc + item.subtotal, 0)`. */
  function SumSubtotals(lines: seq<OrderLine>): int
    decreases |lines|
  {
    if lines == [] then 0 else SumSubtotals(lines[..|lines| - 1]) + lines[|lines| - 1].subtotal
  }

  /**
   * `createProductOrder`: the response status and the created order, or the error
   * thrown. An order is created, with status 201, only from a valid body, for the
   * signed-in account, with one line per requested item; the only errors are the
   * body's issues and the two "bad request" messages.
   */
  function CreateOrder(account: Account, body: Option<Json>, db: map<int, ProductoVender>)
    : (r: Result<(int, NewOrder), ApiError>)
    ensures r.Ok? ==> Validate(RequestBody(body)).Ok? && r.value.0 == CREATED && r.value.1.accountId == account.id
    ensures r.Ok? ==> |r.value.1.products| == |Validate(RequestBody(body)).value.items|
    ensures r.Err? ==> r.error.InvalidBody? || r.error == BadRequest(MSG_UNAVAILABLE) || r.error == BadRequest(MSG_NOT_FOUND)
  {
    var payload :- match Validate(RequestBody(body))
                   case Ok(p) => Ok(p)
                   case Err(issues) => Err(InvalidBody(issues));
    var productIds := Dedup(ProductIds(payload.items));
    var products := Found(productIds, db);
    if |products| != |productIds| then Err(BadRequest(MSG_UNAVAILABLE))
    else
      var lines :- Lines(payload.items, db);
      Ok((CREATED, NewOrder(payload.name, payload.address, payload.phone, account.id, SumSubtotals(lines), lines)))
  }

  // ---------------------------------------------------------------------------
  // Properties

  /** `findMany` returns at most one product per id, and one per id exactly when all exist. */
  lemma {:induction false} FoundCount(ids: seq<real>, db: map<int, ProductoVender>)
    ensures |Found(ids, db)| <= |ids|
    ensures |Found(ids, db)| == |ids| <==> forall i :: 0 <= i < |ids| ==> Lookup(db, ids[i]).Some?
    decreases |ids|
  {
    if ids != [] {
      FoundCount(ids[1..], db);
      if Lookup(db, ids[0]).Some? {
        assert forall i :: 1 <= i < |ids| ==> ids[i] == ids[1..][i - 1];
      }
    }
  }

  /** The item lines fail exactly when some item's product is missing. */
  lemma {:induction false} LinesFail(items: seq<OrderItem>, db: map<int, ProductoVender>)
    ensures Lines(items, db).Err? <==> exists i :: 0 <= i < |items| && Lookup(db, items[i].productId).None?
    ensures Lines(items, db).Err? ==> Lines(items, db).error == BadRequest(MSG_NOT_FOUND)
    decreases |items|
  {
    if items != [] {
      LinesFail(items[1..], db);
      if Lookup(db, items[0].productId).Some? {
        forall i | 1 <= i < |items| ensures items[i] == items[1..][i - 1] { }
        if exists i :: 0 <= i < |items| && Lookup(db, items[i].productId).None? {
          var i :| 0 <= i < |items| && Lookup(db, items[i].productId).None?;
          assert i > 0;
          assert Lookup(db, items[1..][i - 1].productId).None?;
        }
      }
    }
  }

  /**
   * Line `k` is item `k` priced from its stored product: the product's own price,
   * never a client value, and subtotal = unit price * quantity.
   */
  lemma {:induction false} LinesPriced(items: seq<OrderItem>, db: map<int, ProductoVender>)
    requires Lines(items, db).Ok?
    ensures |Lines(items, db).value| == |items|
    ensures forall k :: 0 <= k < |items| ==>
              var line := Lines(items, db).value[k];
              var product := Lookup(db, items[k].productId);
              && product.Some?
              && line.productId == product.value.id
              && line.productName == product.value.producto
              && line.productCode == product.value.codigo
              && line.presentation == product.value.presentacion
              && line.unitPrice == product.value.precioVenta
              && line.quantity == items[k].quantity
              && line.subtotal == line.unitPrice * line.quantity
    decreases |items|
  {
    if items != [] {
      LinesPriced(items[1..], db);
      var lines := Lines(items, db).value;
      var rest := Lines(items[1..], db).value;
      assert lines == [lines[0]] + rest;
      forall k | 1 <= k < |items| ensures lines[k] == rest[k - 1] && items[k] == items[1..][k - 1] { }
    }
  }

  /** Every check before the lookup is about the body alone: an invalid body never reaches the store. */
  lemma InvalidBodyRejected(account: Account, body: Option<Json>, db: map<int, ProductoVender>)
    requires Validate(RequestBody(body)).Err?
    ensures CreateOrder(account, body, db) == Err(InvalidBody(Validate(RequestBody(body)).error))
  {
  }

  /** A missing or null body is validated as `{}`, which fails. */
  lemma MissingBody(account: Account, db: map<int, ProductoVender>)
    ensures CreateOrder(account, None, db).Err?
    ensures CreateOrder(account, Some(JNull), db).Err?
  {
    assert !ValidRequest(JObj(map[]));
    ValidateAccepts(JObj(map[]));
  }

  /**
   * A valid request is refused with "Algunos productos no están disponibles" exactly
   * when some requested id has no stored product; the later "No pudimos encontrar"
   * error can never be raised.
   */
  lemma UnavailableProducts(account: Account, body: Option<Json>, db: map<int, ProductoVender>)
    requires Validate(RequestBody(body)).Ok?
    ensures var items := Validate(RequestBody(body)).value.items;
      && (CreateOrder(account, body, db) == Err(BadRequest(MSG_UNAVAILABLE)) <==>
            exists i :: 0 <= i < |items| && Lookup(db, items[i].productId).None?)
      && (CreateOrder(account, body, db).Err? ==> CreateOrder(account, body, db) == Err(BadRequest(MSG_UNAVAILABLE)))
  {
    var items := Validate(RequestBody(body)).value.items;
    var xs := ProductIds(items);
    var ids := Dedup(xs);
    DedupSpec(xs);
    FoundCount(ids, db);
    LinesFail(items, db);
    if exists i :: 0 <= i < |items| && Lookup(db, items[i].productId).None? {
      var i :| 0 <= i < |items| && Lookup(db, items[i].productId).None?;
      assert xs[i] in ids;
    } else {
      forall j | 0 <= j < |ids| ensures Lookup(db, ids[j]).Some? {
        assert ids[j] in xs;
      }
    }
  }

  /**
   * A created order answers 201 and carries the caller's account id, the validated
   * name, address and phone, one line per requested item (duplicates included),
   * and the sum of the line subtotals as its total.
   */
  lemma CreatedOrder(account: Account, body: Option<Json>, db: map<int, ProductoVender>)
    requires CreateOrder(account, body, db).Ok?
    ensures var payload := Validate(RequestBody(body)).value;
      var (status, order) := CreateOrder(account, body, db).value;
      && Validate(RequestBody(body)).Ok?
      && status == 201
      && order.accountId == account.id
      && order.name == payload.name && order.address == payload.address && order.phone == payload.phone
      && order.products == Lines(payload.items, db).value
      && |order.products| == |payload.items|
      && order.total == SumSubtotals(order.products)
  {
    var payload := Validate(RequestBody(body)).value;
    LinesPriced(payload.items, db);
  }

  /** With the table keyed by id, each line names the product that was requested. */
  lemma LineProductIds(items: seq<OrderItem>, db: map<int, ProductoVender>)
    requires KeyedById(db) && Lines(items, db).Ok?
    ensures forall k :: 0 <= k < |items| ==> Lines(items, db).value[k].productId as real == items[k].productId
  {
    LinesPriced(items, db);
  }
}
