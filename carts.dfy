/** Shapes shared by the three copies of the CARB check: the cart snapshot the
    checkout platform hands over, the validation error it takes back, the
    California delivery gate and the message text built from product titles. */
module Carts {

  datatype Option<+T> = None | Some(value: T)

  /** The path every CARB error points at. */
  const CartTarget: string := "$.cart"

  /** Stands in for a product title that is absent or empty. */
  const UnknownProduct: string := "Unknown Product"

  const ListPrefix: string :=
    "The following products cannot be shipped to California due to CARB compliance restrictions: "
  const ListSuffix: string :=
    ". Please remove these products or choose a different shipping address."

  datatype ValidationError = ValidationError(message: string, target: string)

  /** One `validationAdd` operation of a function result. */
  datatype Operation = ValidationAdd(errors: seq<ValidationError>)
  datatype RunResult = RunResult(operations: seq<Operation>)

  /** A field the platform may leave undefined or null is `None`. */
  datatype DeliveryAddress = DeliveryAddress(countryCode: Option<string>, provinceCode: Option<string>)
  datatype DeliveryGroup = DeliveryGroup(deliveryAddress: Option<DeliveryAddress>)

  /** A cart line; `product` is `None` for a custom line, whose merchandise
      carries no product. `P` is the product shape of each variant. */
  datatype Line<P> = Line(quantity: int, product: Option<P>)
  datatype Cart<P> = Cart(lines: seq<Line<P>>, deliveryGroups: seq<DeliveryGroup>)

  /** JavaScript's `s || d` on an optional string: undefined, null and "" all
      fall back to `d`. */
  function OrDefault(s: Option<string>, d: string): string
  {
    if s.Some? && s.value != "" then s.value else d
  }

  /** The title a line is reported under: `title || "Unknown Product"`. */
  function DisplayTitle(title: Option<string>): (r: string)
    ensures r != ""
    ensures title.Some? && title.value != "" ==> r == title.value
    ensures (title.None? || title.value == "") ==> r == UnknownProduct
  {
    OrDefault(title, UnknownProduct)
  }

  /** JavaScript's `Array.prototype.join`. */
  function Join(parts: seq<string>, sep: string): string
  {
    if |parts| == 0 then ""
    else if |parts| == 1 then parts[0]
    else parts[0] + sep + Join(parts[1..], sep)
  }

  /** Joining stays empty only for the empty list once every part is non-empty. */
  lemma {:induction false} JoinEmptyIff(parts: seq<string>, sep: string)
    requires forall i :: 0 <= i < |parts| ==> parts[i] != ""
    ensures Join(parts, sep) == "" <==> parts == []
  {
  }

  /** The aggregate message naming every non-compliant product. */
  function ListMessage(titles: seq<string>): string
  {
    ListPrefix + Join(titles, ", ") + ListSuffix
  }

  predicate IsCaliforniaAddress(a: DeliveryAddress)
    ensures IsCaliforniaAddress(a) <==> a == DeliveryAddress(Some("US"), Some("CA"))
  {
    a.countryCode == Some("US") && a.provinceCode == Some("CA")
  }

  /** A delivery group is Californian when it has an address and that address
      is Californian; a group without an address never matches. */
  predicate IsCaliforniaGroup(g: DeliveryGroup)
  {
    g.deliveryAddress.Some? && IsCaliforniaAddress(g.deliveryAddress.value)
  }

  /** `deliveryGroups.some(...)`, scanning from the first group. */
  predicate HasCaliforniaDeliveryAddress(groups: seq<DeliveryGroup>)
  {
    if groups == [] then false
    else IsCaliforniaGroup(groups[0]) || HasCaliforniaDeliveryAddress(groups[1..])
  }

  lemma {:induction false} HasCaliforniaIff(groups: seq<DeliveryGroup>)
    ensures HasCaliforniaDeliveryAddress(groups) <==>
      exists i :: 0 <= i < |groups| && IsCaliforniaGroup(groups[i])
  {
    if groups != [] {
      HasCaliforniaIff(groups[1..]);
      if exists i :: 0 <= i < |groups| && IsCaliforniaGroup(groups[i]) {
        var i :| 0 <= i < |groups| && IsCaliforniaGroup(groups[i]);
        if i > 0 {
          assert IsCaliforniaGroup(groups[1..][i - 1]);
        }
      }
      if HasCaliforniaDeliveryAddress(groups[1..]) {
        var j :| 0 <= j < |groups[1..]| && IsCaliforniaGroup(groups[1..][j]);
        assert IsCaliforniaGroup(groups[j + 1]);
      }
    }
  }
}
