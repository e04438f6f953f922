/** The in-skill purchase sample's product model: the skill's product list as the monetization
    API returns it, and the lookups the purchase handlers make on it (the products still on sale,
    a product's id by its spoken name, a product's name by its id).

    The HTTP call of `query` is a parameter: `Query` takes the status code and the decoded body.
    Every product and the product list are JSON values, and each dictionary read can raise
    `KeyError` as in Python. */
module Purchase {
  import opened Outcomes
  import opened PyJson
  import opened Text

  const PURCHASABLE: string := "PURCHASABLE"
  const ENTITLED: string := "ENTITLED"

  /** `query` after the request: the body's `inSkillProducts` on status 200, `None` otherwise. */
  function Query(statusCode: int, body: Json): (r: Outcome<Json>)
    ensures statusCode != 200 ==> r == Ok(JNull)
    ensures statusCode == 200 ==> (r.Ok? <==> body.JDict? && "inSkillProducts" in body.fields)
    ensures statusCode == 200 && r.Ok? ==> r.value == body.fields["inSkillProducts"]
  {
    if statusCode == 200 then Index(body, "inSkillProducts") else Ok(JNull)
  }

  /** What `for prod in product_list` visits: the items of a list, the one-character strings of
      a string. `None`, a boolean and a number are not iterable. A dictionary yields its keys,
      strings, and every loop over the product list subscripts its item by a string at once,
      which a string refuses: an empty dictionary is the empty traversal and any other raises
      `TypeError` on its first key, whichever key that is. */
  function Products(productList: Json): (r: Outcome<seq<Json>>)
    ensures productList.JList? ==> r == Ok(productList.items)
    ensures productList.JNull? || productList.JBool? || productList.JInt? ==> r == Raise(TypeError)
    ensures productList.JDict? ==> r == if productList.fields == map[] then Ok([]) else Raise(TypeError)
    ensures productList.JStr? ==> r.Ok? && |r.value| == |productList.s| &&
                                  forall i :: 0 <= i < |productList.s| ==> r.value[i] == JStr([productList.s[i]])
  {
    match productList
    case JList(items) => Ok(items)
    case JStr(s) => Ok(seq(|s|, i requires 0 <= i < |s| => JStr([s[i]])))
    case JDict(f) => if f == map[] then Ok([]) else Raise(TypeError)
    case _ => Raise(TypeError)
  }

  /** `purchasable`: the product's `purchasable` field is the string `'PURCHASABLE'`. */
  function Purchasable(product: Json): (r: Outcome<bool>)
    ensures r.Ok? <==> product.JDict? && "purchasable" in product.fields
    ensures r.Ok? ==> (r.value <==> product.fields["purchasable"] == JStr(PURCHASABLE))
  {
    match Index(product, "purchasable")
    case Raise(e) => Raise(e)
    case Ok(v) => Ok(v == JStr(PURCHASABLE))
  }

  /** `entitled`: the product's `entitled` field is the string `'ENTITLED'`. */
  function Entitled(product: Json): (r: Outcome<bool>)
    ensures r.Ok? <==> product.JDict? && "entitled" in product.fields
    ensures r.Ok? ==> (r.value <==> product.fields["entitled"] == JStr(ENTITLED))
  {
    match Index(product, "entitled")
    case Raise(e) => Raise(e)
    case Ok(v) => Ok(v == JStr(ENTITLED))
  }

  /** The test of `list`: purchasable and not entitled. `and` does not read `entitled` of a
      product that is not purchasable. */
  function Wanted(product: Json): Outcome<bool> {
    match Purchasable(product)
    case Raise(e) => Raise(e)
    case Ok(false) => Ok(false)
    case Ok(true) =>
      match Entitled(product)
      case Raise(e) => Raise(e)
      case Ok(owned) => Ok(!owned)
  }

  /** The products of `products` that pass `Wanted`, in order; the first product whose test
      raises makes the whole list raise. */
  function Filtered(products: seq<Json>): (r: Outcome<seq<Json>>)
    ensures r.Ok? ==> |r.value| <= |products|
    ensures r.Ok? ==> forall i :: 0 <= i < |r.value| ==> r.value[i] in products && Wanted(r.value[i]) == Ok(true)
  {
    if products == [] then Ok([])
    else
      match Filtered(products[..|products| - 1])
      case Raise(e) => Raise(e)
      case Ok(kept) =>
        match Wanted(products[|products| - 1])
        case Raise(e) => Raise(e)
        case Ok(w) => Ok(if w then kept + [products[|products| - 1]] else kept)
  }

  /** The test of `productId`: the product's name, lower-cased, equals `name`. A name that is not
      a string has no `lower` method. */
  function NameMatches(product: Json, name: Json): Outcome<bool> {
    match Index(product, "name")
    case Raise(e) => Raise(e)
    case Ok(n) => if n.JStr? then Ok(name == JStr(Lower(n.s))) else Raise(AttributeError)
  }

  /** The `productId` of the first product whose name matches; `None` when none does. */
  function IdByName(products: seq<Json>, name: Json): (r: Outcome<Json>)
    ensures r.Ok? && r.value != JNull ==>
              exists p :: p in products && NameMatches(p, name) == Ok(true) && Index(p, "productId") == r
  {
    if products == [] then Ok(JNull)
    else
      match NameMatches(products[0], name)
      case Raise(e) => Raise(e)
      case Ok(true) => Index(products[0], "productId")
      case Ok(false) => IdByName(products[1..], name)
  }

  /** The `name` of the first product whose `productId` equals `id`; `None` when none does. */
  function NameById(products: seq<Json>, id: Json): (r: Outcome<Json>)
    ensures r.Ok? && r.value != JNull ==>
              exists p :: p in products && Index(p, "productId") == Ok(id) && Index(p, "name") == r
  {
    if products == [] then Ok(JNull)
    else
      match Index(products[0], "productId")
      case Raise(e) => Raise(e)
      case Ok(pid) => if id == pid then Index(products[0], "name") else NameById(products[1..], id)
  }

  /** A product object: the API access token and the product list `query` returned. */
  class Product {
    var token: string
    var productList: Json

    /** `__init__`, given what `query` returned for this token. */
    constructor (apiAccessToken: string, queried: Json)
      ensures token == apiAccessToken && productList == queried
    {
      token := apiAccessToken;
      productList := queried;
    }

    /** `list`: the products still on sale, in the order of the product list. */
    method List() returns (r: Outcome<seq<Json>>)
      ensures Products(productList).Raise? ==> r == Raise(Products(productList).error)
      ensures Products(productList).Ok? ==> r == Filtered(Products(productList).value)
    {
      var products := Products(productList);
      if products.Raise? {
        return Raise(products.error);
      }
      var ps := products.value;
      var mylist: seq<Json> := [];
      var i := 0;
      while i < |ps|
        invariant 0 <= i <= |ps|
        invariant Filtered(ps[..i]) == Ok(mylist)
      {
        assert ps[..i + 1][..i] == ps[..i];
        var w := Wanted(ps[i]);
        if w.Raise? {
          FilteredKeepsFailure(ps, i + 1);
          return Raise(w.error);
        }
        if w.value {
          mylist := mylist + [ps[i]];
        }
        i := i + 1;
      }
      assert ps[..i] == ps;
      return Ok(mylist);
    }

    /** `productId`: the id of the first product whose lower-cased name is `name`. */
    method ProductId(name: Json) returns (r: Outcome<Json>)
      ensures Products(productList).Raise? ==> r == Raise(Products(productList).error)
      ensures Products(productList).Ok? ==> r == IdByName(Products(productList).value, name)
    {
      var products := Products(productList);
      if products.Raise? {
        return Raise(products.error);
      }
      var ps := products.value;
      for i := 0 to |ps|
        invariant IdByName(ps, name) == IdByName(ps[i..], name)
      {
        assert ps[i..][1..] == ps[i + 1..];
        var m := NameMatches(ps[i], name);
        if m.Raise? {
          return Raise(m.error);
        }
        if m.value {
          return Index(ps[i], "productId");
        }
      }
      return Ok(JNull);
    }

    /** `productName`: the name of the first product whose id is `id`. */
    method ProductName(id: Json) returns (r: Outcome<Json>)
      ensures Products(productList).Raise? ==> r == Raise(Products(productList).error)
      ensures Products(productList).Ok? ==> r == NameById(Products(productList).value, id)
    {
      var products := Products(productList);
      if products.Raise? {
        return Raise(products.error);
      }
      var ps := products.value;
      for i := 0 to |ps|
        invariant NameById(ps, id) == NameById(ps[i..], id)
      {
        assert ps[i..][1..] == ps[i + 1..];
        var pid := Index(ps[i], "productId");
        if pid.Raise? {
          return Raise(pid.error);
        }
        if id == pid.value {
          return Index(ps[i], "name");
        }
      }
      return Ok(JNull);
    }
  }

  // ---------------------------------------------------------------------------------------------
  // Reference definitions and properties

  /** A product record as the API documents it, with the fields every lookup reads. */
  predicate Listed(product: Json) {
    product.JDict?
    && "purchasable" in product.fields && "entitled" in product.fields
    && "name" in product.fields && product.fields["name"].JStr?
    && "productId" in product.fields
  }

  predicate AllListed(products: seq<Json>) {
    forall k {:trigger products[k]} :: 0 <= k < |products| ==> Listed(products[k])
  }

  function NameOf(product: Json): string
    requires Listed(product)
  {
    product.fields["name"].s
  }

  function IdOf(product: Json): Json
    requires Listed(product)
  {
    product.fields["productId"]
  }

  /** On sale: offered for purchase and not already owned. */
  predicate OnSale(product: Json)
    requires Listed(product)
  {
    product.fields["purchasable"] == JStr(PURCHASABLE) && product.fields["entitled"] != JStr(ENTITLED)
  }

  function OnSaleOf(products: seq<Json>): seq<Json>
    requires AllListed(products)
  {
    if products == [] then []
    else OnSaleOf(products[..|products| - 1]) + (if OnSale(products[|products| - 1]) then [products[|products| - 1]] else [])
  }

  /** A product test that raises makes `list` raise, whatever follows it. */
  lemma {:induction false} FilteredKeepsFailure(products: seq<Json>, n: nat)
    requires n <= |products| && Filtered(products[..n]).Raise?
    ensures Filtered(products) == Filtered(products[..n])
    decreases |products| - n
  {
    if n < |products| {
      var longer := products[..n + 1];
      assert longer[..n] == products[..n];
      assert Filtered(longer) == Filtered(products[..n]);
      FilteredKeepsFailure(products, n + 1);
    } else {
      assert products[..n] == products;
    }
  }

  /** Over documented products `list` raises nothing and keeps exactly the products on sale,
      in their order. */
  lemma {:induction false} FilteredIsOnSale(products: seq<Json>)
    requires AllListed(products)
    ensures Filtered(products) == Ok(OnSaleOf(products))
  {
    if products != [] {
      var last := products[|products| - 1];
      FilteredIsOnSale(products[..|products| - 1]);
      assert Listed(last);
      assert Wanted(last) == Ok(OnSale(last));
      var kept := OnSaleOf(products[..|products| - 1]);
      assert Filtered(products) == Ok(if OnSale(last) then kept + [last] else kept);
      assert OnSaleOf(products) == kept + (if OnSale(last) then [last] else []);
      if !OnSale(last) {
        assert kept + [] == kept;
      }
    }
  }

  /** Membership in the reference: a product is kept if and only if it is in the list and on sale. */
  lemma {:induction false} OnSaleMembership(products: seq<Json>, p: Json)
    requires AllListed(products)
    ensures p in OnSaleOf(products) <==> p in products && OnSale(p)
  {
    if products != [] {
      var init := products[..|products| - 1];
      var last := products[|products| - 1];
      OnSaleMembership(init, p);
      assert products == init + [last];
      assert OnSaleOf(products) == OnSaleOf(init) + (if OnSale(last) then [last] else []);
      assert p in products <==> p in init || p == last;
    }
  }

  /** A product record missing the `purchasable` field makes `list` raise `KeyError`, provided
      the records before it are documented ones. */
  lemma {:induction false} FilteredRaisesOnMissingField(products: seq<Json>, k: nat)
    requires k < |products|
    requires AllListed(products[..k])
    requires products[k].JDict? && "purchasable" !in products[k].fields
    ensures Filtered(products) == Raise(KeyError)
  {
    FilteredIsOnSale(products[..k]);
    var upTo := products[..k + 1];
    assert upTo[..k] == products[..k];
    assert Filtered(upTo) == Raise(KeyError);
    FilteredKeepsFailure(products, k + 1);
  }

  /** A failed query leaves `None` as the product list, and iterating it raises `TypeError`. */
  lemma FailedQueryBreaksLookups(statusCode: int, body: Json)
    requires statusCode != 200
    ensures Query(statusCode, body).Ok? && Products(Query(statusCode, body).value) == Raise(TypeError)
  {
  }

  /** Lower-casing leaves no capital letter. */
  lemma LowerHasNoCapital(s: string)
    ensures forall i :: 0 <= i < |Lower(s)| ==> !('A' <= Lower(s)[i] <= 'Z')
  {
    forall i | 0 <= i < |Lower(s)|
      ensures !('A' <= Lower(s)[i] <= 'Z')
    {
      assert Lower(s)[i] == LowerChar(s[i]);
    }
  }

  /** Product `k` is the first whose lower-cased name is `name`. */
  predicate FirstNamed(products: seq<Json>, name: Json, k: nat)
    requires AllListed(products)
  {
    k < |products| && name == JStr(Lower(NameOf(products[k])))
    && forall j :: 0 <= j < k ==> name != JStr(Lower(NameOf(products[j])))
  }

  /** `productId` over documented products returns the id of the first product whose
      lower-cased name is the given name. */
  lemma {:induction false} IdByNameFindsFirst(products: seq<Json>, name: Json, k: nat)
    requires AllListed(products) && FirstNamed(products, name, k)
    ensures IdByName(products, name) == Ok(IdOf(products[k]))
  {
    if k > 0 {
      var rest := products[1..];
      assert forall j :: 0 <= j < k - 1 ==> rest[j] == products[j + 1];
      IdByNameFindsFirst(rest, name, k - 1);
    }
  }

  /** `productId` over documented products returns `None` when no name matches. */
  lemma {:induction false} IdByNameFindsNone(products: seq<Json>, name: Json)
    requires AllListed(products)
    requires forall k :: 0 <= k < |products| ==> name != JStr(Lower(NameOf(products[k])))
    ensures IdByName(products, name) == Ok(JNull)
  {
    if products != [] {
      var rest := products[1..];
      assert forall j :: 0 <= j < |rest| ==> rest[j] == products[j + 1];
      IdByNameFindsNone(rest, name);
    }
  }

  /** `productName` over documented products returns `None` when no product has the id. */
  lemma {:induction false} NameByIdFindsNone(products: seq<Json>, id: Json)
    requires AllListed(products)
    requires forall k :: 0 <= k < |products| ==> IdOf(products[k]) != id
    ensures NameById(products, id) == Ok(JNull)
  {
    if products != [] {
      var rest := products[1..];
      assert forall j :: 0 <= j < |rest| ==> rest[j] == products[j + 1];
      NameByIdFindsNone(rest, id);
    }
  }

  /** A spoken name with a capital letter never matches a product: the names are lower-cased
      before they are compared. */
  lemma CapitalisedNameNeverMatches(products: seq<Json>, name: string, c: nat)
    requires AllListed(products)
    requires c < |name| && 'A' <= name[c] <= 'Z'
    ensures IdByName(products, JStr(name)) == Ok(JNull)
  {
    forall k | 0 <= k < |products|
      ensures JStr(name) != JStr(Lower(NameOf(products[k])))
    {
      LowerHasNoCapital(NameOf(products[k]));
    }
    IdByNameFindsNone(products, JStr(name));
  }

  /** `productName` over documented products returns the name of the first product with the id. */
  lemma {:induction false} NameByIdFindsFirst(products: seq<Json>, k: nat)
    requires AllListed(products) && k < |products|
    requires forall j :: 0 <= j < k ==> IdOf(products[j]) != IdOf(products[k])
    ensures NameById(products, IdOf(products[k])) == Ok(products[k].fields["name"])
  {
    if k > 0 {
      var rest := products[1..];
      assert forall j :: 0 <= j < k - 1 ==> rest[j] == products[j + 1];
      NameByIdFindsFirst(rest, k - 1);
    }
  }

  /** `productName` undoes `productId`: when product ids are distinct, the id found for a name
      leads back to the name of the product it was found on. */
  lemma NameOfIdFoundByName(products: seq<Json>, name: Json, k: nat)
    requires AllListed(products) && FirstNamed(products, name, k)
    requires forall i, j :: 0 <= i < j < |products| ==> IdOf(products[i]) != IdOf(products[j])
    ensures IdByName(products, name) == Ok(IdOf(products[k]))
    ensures NameById(products, IdOf(products[k])) == Ok(JStr(NameOf(products[k])))
  {
    IdByNameFindsFirst(products, name, k);
    NameByIdFindsFirst(products, k);
  }
}
