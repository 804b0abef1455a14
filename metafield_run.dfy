/** The checkout validation function that reads a product metafield and reports
    one generic message, with no buyer-journey gate. */
module MetafieldValidation {
  import opened Carts
  import CarbValidation

  const GenericMessage: string :=
    "This product cannot be shipped to California due to CARB compliance restrictions. Please remove the non-compliant product or choose a different shipping address."

  datatype Metafield = Metafield(value: string)
  datatype MetafieldProduct = MetafieldProduct(metafield: Option<Metafield>)
  datatype RunInput = RunInput(cart: Cart<MetafieldProduct>)

  /** A line is non-compliant when it has a product whose metafield is present
      and reads exactly "true"; any other value, or none, is compliant. */
  predicate IsNonCompliantLine(line: Line<MetafieldProduct>)
  {
    line.product.Some? && line.product.value.metafield == Some(Metafield("true"))
  }

  /** `lines.some(...)`, scanning from the first line. */
  predicate HasNonCompliantProducts(lines: seq<Line<MetafieldProduct>>)
  {
    if lines == [] then false
    else IsNonCompliantLine(lines[0]) || HasNonCompliantProducts(lines[1..])
  }

  lemma {:induction false} HasNonCompliantIff(lines: seq<Line<MetafieldProduct>>)
    ensures HasNonCompliantProducts(lines) <==>
      exists i :: 0 <= i < |lines| && IsNonCompliantLine(lines[i])
  {
    if lines != [] {
      HasNonCompliantIff(lines[1..]);
      if exists i :: 0 <= i < |lines| && IsNonCompliantLine(lines[i]) {
        var i :| 0 <= i < |lines| && IsNonCompliantLine(lines[i]);
        if i > 0 {
          assert IsNonCompliantLine(lines[1..][i - 1]);
        }
      }
      if HasNonCompliantProducts(lines[1..]) {
        var j :| 0 <= j < |lines[1..]| && IsNonCompliantLine(lines[1..][j]);
        assert IsNonCompliantLine(lines[j + 1]);
      }
    }
  }

  /** What `checkCarbCompliance` returns: nothing, or the one generic error. */
  function CarbErrors(cart: Cart<MetafieldProduct>): (r: seq<ValidationError>)
    ensures r == [] || r == [ValidationError(GenericMessage, CartTarget)]
    ensures r != [] <==>
      (HasCaliforniaDeliveryAddress(cart.deliveryGroups) &&
       exists i :: 0 <= i < |cart.lines| && IsNonCompliantLine(cart.lines[i]))
  {
    HasNonCompliantIff(cart.lines);
    if HasCaliforniaDeliveryAddress(cart.deliveryGroups) && HasNonCompliantProducts(cart.lines)
    then [ValidationError(GenericMessage, CartTarget)]
    else []
  }

  /** `checkCarbCompliance`: two `some` tests, then at most one pushed error. */
  method CheckCarbCompliance(input: RunInput) returns (errors: seq<ValidationError>)
    ensures errors == CarbErrors(input.cart)
  {
    errors := [];
    var hasCaliforniaAddress := HasCaliforniaDeliveryAddress(input.cart.deliveryGroups);
    if !hasCaliforniaAddress {
      return;
    }
    var hasNonCompliantProducts := HasNonCompliantProducts(input.cart.lines);
    if hasNonCompliantProducts {
      errors := errors + [ValidationError(GenericMessage, CartTarget)];
    }
  }

  /** `cartValidationsGenerateRun`: always exactly one `validationAdd`. */
  method CartValidationsGenerateRun(input: RunInput) returns (result: RunResult)
    ensures result.operations == [ValidationAdd(CarbErrors(input.cart))]
  {
    var errors: seq<ValidationError> := [];
    var carbErrors := CheckCarbCompliance(input);
    errors := errors + carbErrors;
    assert errors == carbErrors;
    result := RunResult([ValidationAdd(errors)]);
  }

  /** The message does not depend on how many lines are flagged: two carts with
      the same delivery groups and at least one flagged line each get the
      same errors. */
  lemma CountIndependent(a: Cart<MetafieldProduct>, b: Cart<MetafieldProduct>, i: nat, j: nat)
    requires a.deliveryGroups == b.deliveryGroups
    requires i < |a.lines| && IsNonCompliantLine(a.lines[i])
    requires j < |b.lines| && IsNonCompliantLine(b.lines[j])
    ensures CarbErrors(a) == CarbErrors(b)
  {
  }

  /** A metafield line as the client would type it: non-compliant exactly when
      the metafield reads `"true"`. The metafield carries no title. */
  function ToTaggedLines(lines: seq<Line<MetafieldProduct>>): (r: seq<Line<CarbValidation.Product>>)
    ensures |r| == |lines|
  {
    if lines == [] then []
    else
      var l := lines[0];
      var p := if l.product.Some?
        then Some(CarbValidation.Product(None, l.product.value.metafield != Some(Metafield("true"))))
        else None;
      [Line(l.quantity, p)] + ToTaggedLines(lines[1..])
  }

  lemma {:induction false} NonCompliantMatchesClient(lines: seq<Line<MetafieldProduct>>)
    ensures HasNonCompliantProducts(lines) <==>
      CarbValidation.NonCompliantTitles(ToTaggedLines(lines)) != []
  {
    if lines != [] {
      NonCompliantMatchesClient(lines[1..]);
      assert ToTaggedLines(lines)[1..] == ToTaggedLines(lines[1..]);
    }
  }

  /** The metafield variant and the client variant fire on the same carts once
      the signal is translated; only the wording of the one error differs. */
  lemma AgreesWithClientOnWhenToReport(cart: Cart<MetafieldProduct>)
    ensures CarbErrors(cart) != [] <==>
      CarbValidation.CarbErrors(Cart(ToTaggedLines(cart.lines), cart.deliveryGroups)) != []
  {
    NonCompliantMatchesClient(cart.lines);
    HasNonCompliantIff(cart.lines);
  }

  /** The scenarios of the function's test file. */
  function TestCart(value: Option<string>, province: string): Cart<MetafieldProduct>
  {
    var metafield := if value.Some? then Some(Metafield(value.value)) else None;
    Cart([Line(1, Some(MetafieldProduct(metafield)))],
         [DeliveryGroup(Some(DeliveryAddress(Some("US"), Some(province))))])
  }

  lemma TestScenarios()
    ensures CarbErrors(TestCart(Some("true"), "NY")) == []
    ensures CarbErrors(TestCart(Some("true"), "CA")) == [ValidationError(GenericMessage, CartTarget)]
    ensures CarbErrors(TestCart(Some("false"), "CA")) == []
    ensures CarbErrors(TestCart(None, "CA")) == []
    ensures CarbErrors(TestCart(Some("no"), "CA")) == []
  {
  }
}
