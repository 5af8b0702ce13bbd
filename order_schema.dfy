/**
 * The order schemas (types/ProductOrder.ts): `CreateProductOrderSchema`, which both
 * the checkout form and the order API run on a decoded JSON body, and the
 * `ProductOrderSchema` record shape. Validation follows zod: every field is checked,
 * every failed check adds an issue, and the body is accepted only when none failed.
 */
module OrderSchema {
  import opened Wrappers
  import opened JsText

  /** A decoded JSON value. An absent key is `undefined`, which is not a value. */
  datatype Json =
    | JNull
    | JBool(b: bool)
    | JNum(n: real)
    | JStr(s: string)
    | JArr(elems: seq<Json>)
    | JObj(fields: map<string, Json>)

  /** The type name zod reports for a value it did not expect. */
  function TypeName(j: Json): string {
    match j
    case JNull => "null"
    case JBool(_) => "boolean"
    case JNum(_) => "number"
    case JStr(_) => "string"
    case JArr(_) => "array"
    case JObj(_) => "object"
  }

  function Field(fields: map<string, Json>, key: string): Option<Json> {
    if key in fields then Some(fields[key]) else None
  }

  datatype PathKey = Key(name: string) | Index(i: nat)

  /** A failed check: where it failed and the message the schema gives for it. */
  datatype Issue = Issue(path: seq<PathKey>, message: string)

  const MSG_REQUIRED_FIELD := "Campo requerido"
  const MSG_INVALID_FORMAT := "Formato inválido"
  const MSG_NAME_MIN := "Debe tener al menos 3 caracteres"
  const MSG_NAME_MAX := "Debe tener máximo 120 caracteres"
  const MSG_NAME_EMPTY := "No puede estar vacío"
  const MSG_ADDRESS_MIN := "La dirección debe tener al menos 5 caracteres"
  const MSG_ADDRESS_MAX := "La dirección debe tener máximo 200 caracteres"
  const MSG_PHONE_LENGTH := "El teléfono debe tener 10 dígitos"
  const MSG_PHONE_DIGITS := "El teléfono debe ser numérico"
  const MSG_ITEMS_MIN := "Debes incluir al menos un producto"
  const MSG_PRODUCT_ID_REQUIRED := "El id del producto es requerido"
  const MSG_QUANTITY_REQUIRED := "La cantidad es requerida"
  const MSG_QUANTITY_INT := "La cantidad debe ser un entero"
  const MSG_QUANTITY_POSITIVE := "La cantidad debe ser positiva"
  /** zod's own message for a missing value when the schema gives none. */
  const MSG_REQUIRED := "Required"

  /** zod's own message for a value of the wrong type. */
  function Expected(expected: string, received: Json): string {
    "Expected " + expected + ", received " + TypeName(received)
  }

  predicate IsInteger(x: real) {
    x.Floor as real == x
  }

  /** A validated order item: any number as product id, a positive whole quantity. */
  datatype OrderItem = OrderItem(productId: real, quantity: nat)

  /** The validated order request (`CreateProductOrder`). */
  datatype CreateProductOrder = CreateProductOrder(name: string, address: string, phone: string, items: seq<OrderItem>)

  function IssuesOf<T>(r: Result<T, seq<Issue>>): seq<Issue> {
    if r.Ok? then [] else r.error
  }

  function Check(ok: bool, path: seq<PathKey>, message: string): (r: seq<Issue>)
    ensures r == [] <==> ok
  {
    if ok then [] else [Issue(path, message)]
  }

  /** The type test of `z.string(baseStringField)`: a missing value and a non-string have their own messages. */
  function StringValue(v: Option<Json>, key: string): (r: Result<string, seq<Issue>>)
    ensures r.Ok? <==> v.Some? && v.value.JStr?
    ensures r.Ok? ==> r.value == v.value.s
    ensures r.Err? ==> r.error != []
  {
    match v
    case None => Err([Issue([Key(key)], MSG_REQUIRED_FIELD)])
    case Some(JStr(s)) => Ok(s)
    case Some(_) => Err([Issue([Key(key)], MSG_INVALID_FORMAT)])
  }

  /** The string at `key`, accepted when its checks all pass, or every failed check. */
  function CheckedString(v: Option<Json>, key: string, checks: string -> seq<Issue>): (r: Result<string, seq<Issue>>)
    ensures r.Ok? <==> v.Some? && v.value.JStr? && checks(v.value.s) == []
    ensures r.Ok? ==> r.value == v.value.s
    ensures r.Err? ==> r.error != []
  {
    var s :- StringValue(v, key);
    var issues := checks(s);
    if issues == [] then Ok(s) else Err(issues)
  }

  /**
   * `name`: from 3 to 120 characters, and not empty. Every issue is reported at
   * `name`, and at most two at once: too short and empty can fail together.
   */
  function NameChecks(s: string): (r: seq<Issue>)
    ensures forall k :: 0 <= k < |r| ==> r[k].path == [Key("name")]
    ensures |r| <= 2
  {
    var n := Utf16Length(s);
    Check(n >= 3, [Key("name")], MSG_NAME_MIN) + Check(n <= 120, [Key("name")], MSG_NAME_MAX)
      + Check(n >= 1, [Key("name")], MSG_NAME_EMPTY)
  }

  /** `address`: from 5 to 200 characters; a single issue at most, reported at `address`. */
  function AddressChecks(s: string): (r: seq<Issue>)
    ensures forall k :: 0 <= k < |r| ==> r[k].path == [Key("address")]
    ensures |r| <= 1
  {
    var n := Utf16Length(s);
    Check(n >= 5, [Key("address")], MSG_ADDRESS_MIN) + Check(n <= 200, [Key("address")], MSG_ADDRESS_MAX)
  }

  /** `phone`: exactly 10 characters, matching `^[0-9]*$`; every issue is reported at `phone`. */
  function PhoneChecks(s: string): (r: seq<Issue>)
    ensures forall k :: 0 <= k < |r| ==> r[k].path == [Key("phone")]
    ensures |r| <= 2
  {
    Check(Utf16Length(s) == 10, [Key("phone")], MSG_PHONE_LENGTH) + Check(AllDigits(s), [Key("phone")], MSG_PHONE_DIGITS)
  }

  /** `productId`: a number, required. */
  function ParseProductId(v: Option<Json>, path: seq<PathKey>): (r: Result<real, seq<Issue>>)
    ensures r.Ok? <==> v.Some? && v.value.JNum?
    ensures r.Ok? ==> r.value == v.value.n
    ensures r.Err? ==> r.error != []
  {
    match v
    case None => Err([Issue(path, MSG_PRODUCT_ID_REQUIRED)])
    case Some(JNum(n)) => Ok(n)
    case Some(other) => Err([Issue(path, Expected("number", other))])
  }

  /** `quantity`: a number, required, then an integer and positive (both checks reported). */
  function ParseQuantity(v: Option<Json>, path: seq<PathKey>): (r: Result<nat, seq<Issue>>)
    ensures r.Ok? <==> v.Some? && v.value.JNum? && IsInteger(v.value.n) && v.value.n > 0.0
    ensures r.Ok? ==> r.value as real == v.value.n && r.value > 0
    ensures r.Err? ==> r.error != []
  {
    match v
    case None => Err([Issue(path, MSG_QUANTITY_REQUIRED)])
    case Some(JNum(n)) =>
      var issues := Check(IsInteger(n), path, MSG_QUANTITY_INT) + Check(n > 0.0, path, MSG_QUANTITY_POSITIVE);
      if issues == [] then Ok(n.Floor) else Err(issues)
    case Some(other) => Err([Issue(path, Expected("number", other))])
  }

  /** One element of `items`, at position `i`. */
  function ParseItem(e: Json, i: nat): (r: Result<OrderItem, seq<Issue>>)
    ensures r.Err? ==> r.error != []
  {
    var path := [Key("items"), Index(i)];
    match e
    case JObj(f) =>
      var productId := ParseProductId(Field(f, "productId"), path + [Key("productId")]);
      var quantity := ParseQuantity(Field(f, "quantity"), path + [Key("quantity")]);
      if productId.Ok? && quantity.Ok? then Ok(OrderItem(productId.value, quantity.value))
      else Err(IssuesOf(productId) + IssuesOf(quantity))
    case _ => Err([Issue(path, Expected("object", e))])
  }

  /** The elements `es[from..]`; the issues of every failing element are collected. */
  function ParseElements(es: seq<Json>, from: nat): (r: Result<seq<OrderItem>, seq<Issue>>)
    requires from <= |es|
    ensures r.Ok? ==> |r.value| == |es| - from
    ensures r.Err? ==> r.error != []
    decreases |es| - from
  {
    if from == |es| then Ok([])
    else
      var head := ParseItem(es[from], from);
      var tail := ParseElements(es, from + 1);
      if head.Ok? && tail.Ok? then Ok([head.value] + tail.value)
      else Err(IssuesOf(head) + IssuesOf(tail))
  }

  /** `items`: an array with at least one element, each element checked. */
  function ParseItems(v: Option<Json>): (r: Result<seq<OrderItem>, seq<Issue>>)
    ensures r.Ok? ==> v.Some? && v.value.JArr? && |r.value| == |v.value.elems| >= 1
    ensures r.Err? ==> r.error != []
  {
    match v
    case None => Err([Issue([Key("items")], MSG_REQUIRED)])
    case Some(JArr(es)) =>
      var min := Check(|es| >= 1, [Key("items")], MSG_ITEMS_MIN);
      var elements := ParseElements(es, 0);
      if min == [] && elements.Ok? then Ok(elements.value) else Err(min + IssuesOf(elements))
    case Some(other) => Err([Issue([Key("items")], Expected("array", other))])
  }

  /** `CreateProductOrderSchema.parse(body)`: the request, or every issue found, in field order. */
  function Validate(body: Json): (r: Result<CreateProductOrder, seq<Issue>>)
    ensures r.Err? ==> r.error != []
  {
    match body
    case JObj(f) =>
      var name := CheckedString(Field(f, "name"), "name", NameChecks);
      var address := CheckedString(Field(f, "address"), "address", AddressChecks);
      var phone := CheckedString(Field(f, "phone"), "phone", PhoneChecks);
      var items := ParseItems(Field(f, "items"));
      if name.Ok? && address.Ok? && phone.Ok? && items.Ok? then
        Ok(CreateProductOrder(name.value, address.value, phone.value, items.value))
      else
        Err(IssuesOf(name) + IssuesOf(address) + IssuesOf(phone) + IssuesOf(items))
    case _ => Err([Issue([], Expected("object", body))])
  }

  // ---------------------------------------------------------------------------
  // The rules, stated on their own

  predicate ValidName(s: string) {
    3 <= Utf16Length(s) <= 120
  }

  predicate ValidAddress(s: string) {
    5 <= Utf16Length(s) <= 200
  }

  /** Ten ASCII digits. */
  predicate ValidPhone(s: string) {
    |s| == 10 && forall k :: 0 <= k < |s| ==> '0' <= s[k] <= '9'
  }

  predicate ValidItem(e: Json) {
    && e.JObj?
    && "productId" in e.fields && e.fields["productId"].JNum?
    && "quantity" in e.fields && e.fields["quantity"].JNum?
    && IsInteger(e.fields["quantity"].n) && e.fields["quantity"].n > 0.0
  }

  predicate ValidRequest(body: Json) {
    && body.JObj?
    && "name" in body.fields && body.fields["name"].JStr? && ValidName(body.fields["name"].s)
    && "address" in body.fields && body.fields["address"].JStr? && ValidAddress(body.fields["address"].s)
    && "phone" in body.fields && body.fields["phone"].JStr? && ValidPhone(body.fields["phone"].s)
    && "items" in body.fields && body.fields["items"].JArr? && |body.fields["items"].elems| >= 1
    && forall i :: 0 <= i < |body.fields["items"].elems| ==> ValidItem(body.fields["items"].elems[i])
  }

  lemma NameChecksPass(s: string)
    ensures NameChecks(s) == [] <==> ValidName(s)
  {
  }

  lemma AddressChecksPass(s: string)
    ensures AddressChecks(s) == [] <==> ValidAddress(s)
  {
  }

  /** Ten characters matching `^[0-9]*$` are ten ASCII digits: digits are single UTF-16 units. */
  lemma PhoneChecksPass(s: string)
    ensures PhoneChecks(s) == [] <==> ValidPhone(s)
  {
    if AllDigits(s) {
      assert forall k :: 0 <= k < |s| ==> s[k] <= '\U{FFFF}';
    }
  }

  lemma ParseItemOk(e: Json, i: nat)
    ensures ParseItem(e, i).Ok? <==> ValidItem(e)
    ensures ParseItem(e, i).Ok? ==>
              ParseItem(e, i).value.productId == e.fields["productId"].n
              && ParseItem(e, i).value.quantity as real == e.fields["quantity"].n
  {
  }

  lemma ParseElementsOk(es: seq<Json>, from: nat)
    requires from <= |es|
    ensures ParseElements(es, from).Ok? <==> forall i :: from <= i < |es| ==> ValidItem(es[i])
    ensures ParseElements(es, from).Ok? ==>
              forall k :: 0 <= k < |es| - from ==> Ok(ParseElements(es, from).value[k]) == ParseItem(es[from + k], from + k)
  {
    ParseElementsAccepts(es, from);
    if ParseElements(es, from).Ok? {
      ParseElementsValues(es, from);
    }
  }

  lemma {:induction false} ParseElementsAccepts(es: seq<Json>, from: nat)
    requires from <= |es|
    ensures ParseElements(es, from).Ok? <==> forall i :: from <= i < |es| ==> ValidItem(es[i])
    decreases |es| - from
  {
    if from < |es| {
      ParseItemOk(es[from], from);
      ParseElementsAccepts(es, from + 1);
    }
  }

  lemma {:induction false} ParseElementsValues(es: seq<Json>, from: nat)
    requires from <= |es| && ParseElements(es, from).Ok?
    ensures forall k :: 0 <= k < |es| - from ==> Ok(ParseElements(es, from).value[k]) == ParseItem(es[from + k], from + k)
    decreases |es| - from
  {
    if from < |es| {
      var r := ParseElements(es, from).value;
      var tail := ParseElements(es, from + 1).value;
      ParseElementsValues(es, from + 1);
      assert r == [ParseItem(es[from], from).value] + tail;
      forall k | 0 <= k < |es| - from
        ensures Ok(r[k]) == ParseItem(es[from + k], from + k)
      {
        if k > 0 {
          var j := k - 1;
          assert Ok(tail[j]) == ParseItem(es[from + 1 + j], from + 1 + j);
          assert r[k] == tail[j];
        }
      }
    }
  }

  /** The schema accepts a body exactly when it satisfies every rule. */
  lemma ValidateAccepts(body: Json)
    ensures Validate(body).Ok? <==> ValidRequest(body)
  {
    if body.JObj? {
      var f := body.fields;
      FieldsAccepted(f);
      ItemsAccepted(f);
    }
  }

  /** Each of the three strings passes its schema exactly when it satisfies its rule. */
  lemma FieldsAccepted(f: map<string, Json>)
    ensures CheckedString(Field(f, "name"), "name", NameChecks).Ok?
            <==> "name" in f && f["name"].JStr? && ValidName(f["name"].s)
    ensures CheckedString(Field(f, "address"), "address", AddressChecks).Ok?
            <==> "address" in f && f["address"].JStr? && ValidAddress(f["address"].s)
    ensures CheckedString(Field(f, "phone"), "phone", PhoneChecks).Ok?
            <==> "phone" in f && f["phone"].JStr? && ValidPhone(f["phone"].s)
  {
    if "name" in f && f["name"].JStr? {
      NameChecksPass(f["name"].s);
    }
    if "address" in f && f["address"].JStr? {
      AddressChecksPass(f["address"].s);
    }
    if "phone" in f && f["phone"].JStr? {
      PhoneChecksPass(f["phone"].s);
    }
  }

  /** The `items` field passes exactly when it is a non-empty array of valid items. */
  lemma ItemsAccepted(f: map<string, Json>)
    ensures ParseItems(Field(f, "items")).Ok?
            <==> "items" in f && f["items"].JArr? && |f["items"].elems| >= 1
                 && forall i :: 0 <= i < |f["items"].elems| ==> ValidItem(f["items"].elems[i])
  {
    if "items" in f && f["items"].JArr? {
      ParseElementsOk(f["items"].elems, 0);
    }
  }

  /**
   * An accepted body yields its own name, address and phone, and one item per
   * element, in order, with that element's product id and quantity.
   */
  lemma ValidatePayload(body: Json)
    requires ValidRequest(body)
    ensures Validate(body).Ok?
    ensures var p := Validate(body).value; var f := body.fields;
      && p.name == f["name"].s && p.address == f["address"].s && p.phone == f["phone"].s
      && |p.items| == |f["items"].elems|
      && forall k :: 0 <= k < |p.items| ==>
           p.items[k].productId == f["items"].elems[k].fields["productId"].n
           && p.items[k].quantity as real == f["items"].elems[k].fields["quantity"].n
           && p.items[k].quantity > 0
  {
    ValidateAccepts(body);
    var f := body.fields;
    var es := f["items"].elems;
    ParseElementsOk(es, 0);
    var p := Validate(body).value;
    forall k | 0 <= k < |p.items|
      ensures p.items[k].productId == es[k].fields["productId"].n
      ensures p.items[k].quantity as real == es[k].fields["quantity"].n && p.items[k].quantity > 0
    {
      assert Ok(p.items[k]) == ParseItem(es[0 + k], 0 + k);
      ParseItemOk(es[k], k);
    }
  }

  /** A blank name is reported twice: too short, and empty. */
  lemma EmptyNameIssues()
    ensures NameChecks("") == [Issue([Key("name")], MSG_NAME_MIN), Issue([Key("name")], MSG_NAME_EMPTY)]
  {
  }

  /** A body that is not an object is rejected with the one type issue. */
  lemma NotAnObject(body: Json)
    requires !body.JObj?
    ensures Validate(body) == Err([Issue([], Expected("object", body))])
  {
  }

  // ---------------------------------------------------------------------------
  // ProductOrderSchema

  /** A stored order as the API returns it; only `deletedAt` may be null. */
  datatype ProductOrder = ProductOrder(
    id: string,
    name: string,
    address: string,
    phone: string,
    status: string,
    accountId: string,
    total: real,
    createdAt: string,
    updatedAt: string,
    deletedAt: Option<string>)

  function Str(f: map<string, Json>, key: string): Option<string> {
    if key in f && f[key].JStr? then Some(f[key].s) else None
  }

  /** `ProductOrderSchema.parse`, timestamps taken as strings. */
  function ParseProductOrder(j: Json): Option<ProductOrder> {
    var f :- if j.JObj? then Some(j.fields) else None;
    var id :- Str(f, "id");
    var name :- Str(f, "name");
    var address :- Str(f, "address");
    var phone :- Str(f, "phone");
    var status :- Str(f, "status");
    var accountId :- Str(f, "accountId");
    var total :- if "total" in f && f["total"].JNum? then Some(f["total"].n) else None;
    var createdAt :- Str(f, "createdAt");
    var updatedAt :- Str(f, "updatedAt");
    var deletedAt :- if "deletedAt" !in f then None
                     else if f["deletedAt"].JNull? then Some(None)
                     else if f["deletedAt"].JStr? then Some(Some(f["deletedAt"].s))
                     else None;
    Some(ProductOrder(id, name, address, phone, status, accountId, total, createdAt, updatedAt, deletedAt))
  }

  const REQUIRED_ORDER_KEYS: set<string> :=
    {"id", "name", "address", "phone", "status", "accountId", "total", "createdAt", "updatedAt"}

  /**
   * Of an accepted order record, a null `deletedAt` is still accepted, while a
   * null or missing value in any other field, or a missing `deletedAt`, is not.
   */
  lemma OrderRecordNullability(f: map<string, Json>, key: string)
    requires ParseProductOrder(JObj(f)).Some?
    ensures ParseProductOrder(JObj(f["deletedAt" := JNull])) == Some(ParseProductOrder(JObj(f)).value.(deletedAt := None))
    ensures key in REQUIRED_ORDER_KEYS ==> ParseProductOrder(JObj(f[key := JNull])).None?
    ensures key in REQUIRED_ORDER_KEYS || key == "deletedAt" ==> ParseProductOrder(JObj(f - {key})).None?
  {
  }
}
