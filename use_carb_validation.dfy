/** The pure parts of the client-side hook: reading compliance out of product
    tags, de-duplicating variant ids, building the variant-to-product map and
    the cart from the fetched nodes, and the errors one validation pass ends
    with. The query itself is an input: its outcome is a `FetchOutcome`. */
module CarbHook {
  import opened Carts
  import CarbValidation

  type Product = CarbValidation.Product

  const FetchFailedMessage: string := "Unable to validate CARB compliance. Please try again."

  /** One of the four literal tags that mark a product as compliant. */
  predicate IsComplianceTag(tag: string)
  {
    tag == "EPA:Compliant" || tag == "EPA:N/A" || tag == "California Compliant" || tag == "Non-CARB:Y"
  }

  /** `tags.some(...)`, scanning from the first tag. */
  predicate AnyComplianceTag(tags: seq<string>)
  {
    if tags == [] then false
    else IsComplianceTag(tags[0]) || AnyComplianceTag(tags[1..])
  }

  lemma {:induction false} AnyComplianceTagIff(tags: seq<string>)
    ensures AnyComplianceTag(tags) <==> exists i :: 0 <= i < |tags| && IsComplianceTag(tags[i])
  {
    if tags != [] {
      AnyComplianceTagIff(tags[1..]);
      if exists i :: 0 <= i < |tags| && IsComplianceTag(tags[i]) {
        var i :| 0 <= i < |tags| && IsComplianceTag(tags[i]);
        if i > 0 {
          assert IsComplianceTag(tags[1..][i - 1]);
        }
      }
      if AnyComplianceTag(tags[1..]) {
        var j :| 0 <= j < |tags[1..]| && IsComplianceTag(tags[1..][j]);
        assert IsComplianceTag(tags[j + 1]);
      }
    }
  }

  /** `checkCarbComplianceTags`: absent or non-array tag data (`None`) is not
      compliant; otherwise compliant when any tag is one of the four. */
  function CheckCarbComplianceTags(tags: Option<seq<string>>): (r: bool)
    ensures r <==> tags.Some? && exists i :: 0 <= i < |tags.value| && IsComplianceTag(tags.value[i])
  {
    match tags
    case None => false
    case Some(ts) => AnyComplianceTagIff(ts); AnyComplianceTag(ts)
  }

  /** `indexOf`: the first position of `x` in `s`, or -1. */
  function IndexOf(s: seq<string>, x: string): (r: int)
    ensures -1 <= r < |s|
    ensures r == -1 <==> x !in s
    ensures 0 <= r ==> s[r] == x && forall j :: 0 <= j < r ==> s[j] != x
  {
    if s == [] then -1
    else if s[0] == x then 0
    else
      var k := IndexOf(s[1..], x);
      if k == -1 then -1 else k + 1
  }

  /** The elements of `ids` from position `i` on that sit at their first
      occurrence: an element is kept when the first position of its value is
      its own position. */
  function KeepFirst(ids: seq<string>, i: nat): seq<string>
    requires i <= |ids|
    decreases |ids| - i
  {
    if i == |ids| then []
    else (if IndexOf(ids, ids[i]) == i then [ids[i]] else []) + KeepFirst(ids, i + 1)
  }

  function UniqueVariantIds(variantIds: seq<string>): seq<string>
  {
    KeepFirst(variantIds, 0)
  }

  lemma {:induction false} KeepFirstSpec(ids: seq<string>, i: nat)
    requires i <= |ids|
    ensures var r := KeepFirst(ids, i);
      (forall a :: 0 <= a < |r| ==> r[a] in ids && i <= IndexOf(ids, r[a])) &&
      (forall a, b :: 0 <= a < b < |r| ==> IndexOf(ids, r[a]) < IndexOf(ids, r[b])) &&
      (forall x :: x in ids[i..] && i <= IndexOf(ids, x) ==> x in r)
    decreases |ids| - i
  {
    if i < |ids| {
      KeepFirstSpec(ids, i + 1);
      var rest := KeepFirst(ids, i + 1);
      var r := KeepFirst(ids, i);
      forall x | x in ids[i..] && i <= IndexOf(ids, x) ensures x in r {
        if x == ids[i] {
          assert IndexOf(ids, x) == i;
          assert r[0] == x;
        } else {
          assert x in ids[i + 1..] by {
            var k :| 0 <= k < |ids[i..]| && ids[i..][k] == x;
            assert k > 0 && ids[i + 1..][k - 1] == x;
          }
          assert i + 1 <= IndexOf(ids, x);
          assert x in rest;
        }
      }
    }
  }

  /** The de-duplicated ids hold each id once, every id of the input, and
      in the order of first occurrence. */
  lemma UniqueVariantIdsSpec(variantIds: seq<string>)
    ensures var r := UniqueVariantIds(variantIds);
      (forall a, b :: 0 <= a < b < |r| ==> r[a] != r[b]) &&
      (forall x :: x in r <==> x in variantIds) &&
      (forall a, b :: 0 <= a < b < |r| ==> IndexOf(variantIds, r[a]) < IndexOf(variantIds, r[b]))
  {
    KeepFirstSpec(variantIds, 0);
    assert variantIds[0..] == variantIds;
  }

  function VariantIds(lines: seq<CartLineInput>): (r: seq<string>)
    ensures |r| == |lines|
    ensures forall i :: 0 <= i < |lines| ==> r[i] == lines[i].variantId
  {
    seq(|lines|, i requires 0 <= i < |lines| => lines[i].variantId)
  }

  /** A fetched `ProductVariant` node; `product` is `None` when the node has none. */
  datatype NodeProduct = NodeProduct(title: Option<string>, tags: Option<seq<string>>)
  datatype Node = Node(id: string, product: Option<NodeProduct>)

  /** A node that enters the map: present (not null) and with a product. */
  predicate HasEntry(node: Option<Node>)
  {
    node.Some? && node.value.product.Some?
  }

  function EntryOf(p: NodeProduct): Product
  {
    CarbValidation.Product(p.title, CheckCarbComplianceTags(p.tags))
  }

  /** The map the `forEach` leaves behind: each node with a product, in turn,
      sets the entry under its id, so a later node with the same id wins. */
  function ProductMap(nodes: seq<Option<Node>>): map<string, Product>
  {
    if nodes == [] then map[]
    else
      var m := ProductMap(nodes[..|nodes| - 1]);
      var last := nodes[|nodes| - 1];
      if HasEntry(last) then m[last.value.id := EntryOf(last.value.product.value)] else m
  }

  method BuildVariantProductMap(nodes: seq<Option<Node>>) returns (m: map<string, Product>)
    ensures m == ProductMap(nodes)
  {
    m := map[];
    var i := 0;
    while i < |nodes|
      invariant 0 <= i <= |nodes|
      invariant m == ProductMap(nodes[..i])
    {
      var node := nodes[i];
      assert nodes[..i + 1][..i] == nodes[..i];
      if node.Some? && node.value.product.Some? {
        m := m[node.value.id := CarbValidation.Product(node.value.product.value.title,
                                                       CheckCarbComplianceTags(node.value.product.value.tags))];
      }
      i := i + 1;
    }
    assert nodes[..i] == nodes;
  }

  /** Only nodes with a product enter the map, keyed by their id. */
  lemma {:induction false} ProductMapKeys(nodes: seq<Option<Node>>, id: string)
    ensures id in ProductMap(nodes) <==>
      exists i :: 0 <= i < |nodes| && HasEntry(nodes[i]) && nodes[i].value.id == id
  {
    if nodes != [] {
      var init := nodes[..|nodes| - 1];
      ProductMapKeys(init, id);
      if exists i :: 0 <= i < |nodes| && HasEntry(nodes[i]) && nodes[i].value.id == id {
        var i :| 0 <= i < |nodes| && HasEntry(nodes[i]) && nodes[i].value.id == id;
        if i < |nodes| - 1 {
          assert init[i] == nodes[i];
        }
      }
      if id in ProductMap(init) {
        var i :| 0 <= i < |init| && HasEntry(init[i]) && init[i].value.id == id;
        assert nodes[i] == init[i];
      }
    }
  }

  /** The entry under an id comes from the last node with a product and that id. */
  lemma {:induction false} ProductMapValue(nodes: seq<Option<Node>>, i: nat)
    requires i < |nodes| && HasEntry(nodes[i])
    requires forall j :: i < j < |nodes| && HasEntry(nodes[j]) ==> nodes[j].value.id != nodes[i].value.id
    ensures nodes[i].value.id in ProductMap(nodes)
    ensures ProductMap(nodes)[nodes[i].value.id] == EntryOf(nodes[i].value.product.value)
  {
    var init := nodes[..|nodes| - 1];
    if i < |nodes| - 1 {
      assert init[i] == nodes[i];
      forall j | i < j < |init| && HasEntry(init[j]) ensures init[j].value.id != init[i].value.id {
        assert init[j] == nodes[j];
      }
      ProductMapValue(init, i);
    }
  }

  /** A cart line as the hook sees it: the merchandise id and the quantity. */
  datatype CartLineInput = CartLineInput(quantity: int, variantId: string)
  datatype ShippingAddress = ShippingAddress(countryCode: Option<string>, provinceCode: Option<string>)

  /** What a variant missing from the map is taken to be. */
  const UnknownVariant: Product := CarbValidation.Product(Some(UnknownProduct), false)

  function LineFor(line: CartLineInput, m: map<string, Product>): Line<Product>
  {
    Line(line.quantity, Some(if line.variantId in m then m[line.variantId] else UnknownVariant))
  }

  /** The delivery groups the hook builds from the shipping address. */
  function DeliveryGroupsFor(shipping: Option<ShippingAddress>): seq<DeliveryGroup>
  {
    match shipping
    case None => []
    case Some(a) =>
      [DeliveryGroup(Some(DeliveryAddress(Some(OrDefault(a.countryCode, "US")),
                                          Some(OrDefault(a.provinceCode, "CA")))))]
  }

  /** `cartData`: one line per cart line, in order, with its quantity, and
      at most one delivery group. */
  function BuildCart(lines: seq<CartLineInput>, m: map<string, Product>, shipping: Option<ShippingAddress>)
    : (c: Cart<Product>)
    ensures |c.lines| == |lines|
    ensures forall i :: 0 <= i < |lines| ==> c.lines[i].quantity == lines[i].quantity && c.lines[i].product.Some?
    ensures forall i :: 0 <= i < |lines| && lines[i].variantId in m ==>
      c.lines[i].product.value == m[lines[i].variantId]
    ensures forall i :: 0 <= i < |lines| && lines[i].variantId !in m ==>
      c.lines[i].product.value == UnknownVariant
    ensures shipping.None? ==> c.deliveryGroups == []
    ensures shipping.Some? ==> |c.deliveryGroups| == 1 && c.deliveryGroups[0].deliveryAddress.Some?
    ensures shipping.Some? ==>
      var a := shipping.value;
      var address := c.deliveryGroups[0].deliveryAddress.value;
      (address.countryCode == if a.countryCode in {None, Some("")} then Some("US") else a.countryCode) &&
      (address.provinceCode == if a.provinceCode in {None, Some("")} then Some("CA") else a.provinceCode)
  {
    Cart(seq(|lines|, i requires 0 <= i < |lines| => LineFor(lines[i], m)), DeliveryGroupsFor(shipping))
  }

  /** A missing or empty code defaults towards California: the built cart has
      a California address exactly when there is a shipping address whose
      country is absent, empty or "US" and whose province is absent, empty
      or "CA". */
  lemma CaliforniaAfterDefaults(lines: seq<CartLineInput>, m: map<string, Product>, shipping: Option<ShippingAddress>)
    ensures HasCaliforniaDeliveryAddress(BuildCart(lines, m, shipping).deliveryGroups) <==>
      shipping.Some? &&
      shipping.value.countryCode in {None, Some(""), Some("US")} &&
      shipping.value.provinceCode in {None, Some(""), Some("CA")}
  {
  }

  /** A cart line whose variant has no product node is reported, under
      "Unknown Product", once the address is Californian. */
  lemma UnknownVariantReported(lines: seq<CartLineInput>, m: map<string, Product>,
                               shipping: Option<ShippingAddress>, k: nat)
    requires k < |lines| && lines[k].variantId !in m
    requires HasCaliforniaDeliveryAddress(BuildCart(lines, m, shipping).deliveryGroups)
    ensures var cart := BuildCart(lines, m, shipping);
      UnknownProduct in CarbValidation.NonCompliantTitles(cart.lines) &&
      CarbValidation.CarbErrors(cart) != []
  {
    var cart := BuildCart(lines, m, shipping);
    assert CarbValidation.IsFlagged(cart.lines[k]);
    CarbValidation.NonCompliantTitlesAt(cart.lines, k);
    assert CarbValidation.TitleOf(cart.lines[k]) == UnknownProduct;
  }

  /** The outcome of the product-tags query. */
  datatype FetchOutcome =
    | FetchFailed                       // the promise rejected or its handler threw
    | NoData                            // no `data`, or `data` without `nodes`
    | Nodes(nodes: seq<Option<Node>>)   // `data.nodes`, possibly holding nulls

  /** The errors a validation pass leaves in `validationErrors`. `cartLines`
      is `None` when the cart lines are unavailable. */
  function ValidateCart(cartLines: Option<seq<CartLineInput>>, shipping: Option<ShippingAddress>,
                        fetch: FetchOutcome): (r: seq<ValidationError>)
    ensures |r| <= 1
    ensures forall k :: 0 <= k < |r| ==> r[k].target == CartTarget
    ensures cartLines.None? || cartLines.value == [] ==> r == []
    ensures cartLines.Some? && cartLines.value != [] && fetch.FetchFailed? ==>
      r == [ValidationError(FetchFailedMessage, CartTarget)]
    ensures cartLines.Some? && cartLines.value != [] && fetch.NoData? ==> r == []
    ensures cartLines.Some? && cartLines.value != [] && fetch.Nodes? ==>
      r == CarbValidation.CarbErrors(BuildCart(cartLines.value, ProductMap(fetch.nodes), shipping))
  {
    if cartLines.None? || |cartLines.value| == 0 then []
    else
      var lines := cartLines.value;
      var uniqueVariantIds := UniqueVariantIds(VariantIds(lines));
      UniqueVariantIdsSpec(VariantIds(lines));
      assert VariantIds(lines)[0] in uniqueVariantIds;
      if |uniqueVariantIds| == 0 then []
      else
        match fetch
        case FetchFailed => [ValidationError(FetchFailedMessage, CartTarget)]
        case NoData => []
        case Nodes(nodes) => CarbValidation.CarbErrors(BuildCart(lines, ProductMap(nodes), shipping))
  }

  /** `hasErrors` as the hook returns it. */
  predicate HasErrors(errors: seq<ValidationError>)
    ensures HasErrors(errors) <==> errors != []
  {
    |errors| > 0
  }
}
