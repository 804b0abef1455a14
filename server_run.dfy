/** The server-side checkout validation function whose products carry a
    `hasAnyTag` field that may be missing, behind a buyer-journey gate. */
module ServerValidation {
  import opened Carts
  import CarbValidation

  datatype ServerProduct = ServerProduct(title: Option<string>, hasAnyTag: Option<bool>)

  datatype BuyerJourneyStep = CartInteraction | CheckoutInteraction | CheckoutCompletion
  datatype BuyerJourney = BuyerJourney(step: BuyerJourneyStep)
  datatype RunInput = RunInput(cart: Cart<ServerProduct>, buyerJourney: BuyerJourney)

  /** `!hasAnyTag` on a present product: a missing flag reads as non-compliant. */
  predicate IsFlagged(line: Line<ServerProduct>)
  {
    line.product.Some? && line.product.value.hasAnyTag != Some(true)
  }

  function TitleOf(line: Line<ServerProduct>): string
    requires line.product.Some?
  {
    DisplayTitle(line.product.value.title)
  }

  /** The titles the `forEach` pushes, one per flagged line, in line order. */
  function FlaggedTitles(lines: seq<Line<ServerProduct>>): (r: seq<string>)
    ensures |r| <= |lines|
  {
    if lines == [] then []
    else (if IsFlagged(lines[0]) then [TitleOf(lines[0])] else []) + FlaggedTitles(lines[1..])
  }

  lemma {:induction false} FlaggedTitlesAppend(a: seq<Line<ServerProduct>>, b: seq<Line<ServerProduct>>)
    ensures FlaggedTitles(a + b) == FlaggedTitles(a) + FlaggedTitles(b)
  {
    if a != [] {
      assert (a + b)[1..] == a[1..] + b;
      FlaggedTitlesAppend(a[1..], b);
    } else {
      assert a + b == b;
    }
  }

  /** Lines without a product are never reported; a line with a product is
      reported when its flag is false or missing. */
  lemma {:induction false} FlaggedTitlesEmptyIff(lines: seq<Line<ServerProduct>>)
    ensures FlaggedTitles(lines) == [] <==>
      forall i :: 0 <= i < |lines| ==> lines[i].product.None? || lines[i].product.value.hasAnyTag == Some(true)
  {
    if lines != [] {
      FlaggedTitlesEmptyIff(lines[1..]);
      if FlaggedTitles(lines[1..]) == [] {
        if !IsFlagged(lines[0]) {
          forall i | 0 <= i < |lines|
            ensures lines[i].product.None? || lines[i].product.value.hasAnyTag == Some(true)
          {
            if i > 0 { assert lines[i] == lines[1..][i - 1]; }
          }
        }
      } else {
        var j :| 0 <= j < |lines[1..]| && IsFlagged(lines[1..][j]);
        assert IsFlagged(lines[j + 1]);
      }
    }
  }

  /** What `checkCarbCompliance` returns for a cart. */
  function CarbErrors(cart: Cart<ServerProduct>): (r: seq<ValidationError>)
    ensures |r| <= 1
    ensures forall k :: 0 <= k < |r| ==> r[k].target == CartTarget
    ensures !HasCaliforniaDeliveryAddress(cart.deliveryGroups) ==> r == []
    ensures r != [] <==> HasCaliforniaDeliveryAddress(cart.deliveryGroups) && FlaggedTitles(cart.lines) != []
    ensures r != [] ==> r[0].message == ListMessage(FlaggedTitles(cart.lines))
  {
    if !HasCaliforniaDeliveryAddress(cart.deliveryGroups) then []
    else
      var titles := FlaggedTitles(cart.lines);
      if |titles| > 0 then [ValidationError(ListMessage(titles), CartTarget)] else []
  }

  /** `checkCarbCompliance`: the gate, a `forEach` pushing titles, and at most
      one pushed error. */
  method CheckCarbCompliance(input: RunInput) returns (errors: seq<ValidationError>)
    ensures errors == CarbErrors(input.cart)
  {
    errors := [];
    if !HasCaliforniaDeliveryAddress(input.cart.deliveryGroups) {
      return;
    }
    var lines := input.cart.lines;
    var nonCompliantProducts := [];
    var i := 0;
    while i < |lines|
      invariant 0 <= i <= |lines|
      invariant nonCompliantProducts == FlaggedTitles(lines[..i])
    {
      var line := lines[i];
      assert lines[..i + 1] == lines[..i] + [line];
      FlaggedTitlesAppend(lines[..i], [line]);
      if line.product.Some? {
        var isCompliant := line.product.value.hasAnyTag;
        if isCompliant != Some(true) {
          nonCompliantProducts := nonCompliantProducts + [DisplayTitle(line.product.value.title)];
        }
      }
      i := i + 1;
    }
    assert lines[..i] == lines;
    if |nonCompliantProducts| > 0 {
      errors := errors + [ValidationError(ListMessage(nonCompliantProducts), CartTarget)];
    }
  }

  /** `cartValidationsGenerateRun`: outside `CheckoutInteraction` no operation
      at all, otherwise exactly one `validationAdd`, even with no errors. */
  method CartValidationsGenerateRun(input: RunInput) returns (result: RunResult)
    ensures input.buyerJourney.step != CheckoutInteraction ==> result.operations == []
    ensures input.buyerJourney.step == CheckoutInteraction ==>
      result.operations == [ValidationAdd(CarbErrors(input.cart))]
  {
    var errors: seq<ValidationError> := [];
    if input.buyerJourney.step != CheckoutInteraction {
      return RunResult([]);
    }
    var carbErrors := CheckCarbCompliance(input);
    errors := errors + carbErrors;
    assert errors == carbErrors;
    result := RunResult([ValidationAdd(errors)]);
  }

  /** A client cart seen by the server: every flag is present. */
  function FromTaggedLines(lines: seq<Line<CarbValidation.Product>>): (r: seq<Line<ServerProduct>>)
    ensures |r| == |lines|
  {
    if lines == [] then []
    else
      var l := lines[0];
      var p := if l.product.Some?
        then Some(ServerProduct(l.product.value.title, Some(l.product.value.hasAnyTag)))
        else None;
      [Line(l.quantity, p)] + FromTaggedLines(lines[1..])
  }

  /** A server cart as the client types it: a missing flag becomes `false`. */
  function ToTaggedLines(lines: seq<Line<ServerProduct>>): (r: seq<Line<CarbValidation.Product>>)
    ensures |r| == |lines|
  {
    if lines == [] then []
    else
      var l := lines[0];
      var p := if l.product.Some?
        then Some(CarbValidation.Product(l.product.value.title, l.product.value.hasAnyTag == Some(true)))
        else None;
      [Line(l.quantity, p)] + ToTaggedLines(lines[1..])
  }

  lemma {:induction false} FlaggedTitlesMatchClient(lines: seq<Line<ServerProduct>>)
    ensures FlaggedTitles(lines) == CarbValidation.NonCompliantTitles(ToTaggedLines(lines))
  {
    if lines != [] {
      FlaggedTitlesMatchClient(lines[1..]);
      assert ToTaggedLines(lines)[1..] == ToTaggedLines(lines[1..]);
    }
  }

  lemma {:induction false} FromTaggedRoundTrip(lines: seq<Line<CarbValidation.Product>>)
    ensures ToTaggedLines(FromTaggedLines(lines)) == lines
  {
    if lines != [] {
      FromTaggedRoundTrip(lines[1..]);
      assert FromTaggedLines(lines)[1..] == FromTaggedLines(lines[1..]);
    }
  }

  /** The server check treats a missing `hasAnyTag` exactly as the client
      treats `hasAnyTag: false`. */
  lemma MissingFlagIsNonCompliant(cart: Cart<ServerProduct>)
    ensures CarbErrors(cart) ==
      CarbValidation.CarbErrors(Cart(ToTaggedLines(cart.lines), cart.deliveryGroups))
  {
    FlaggedTitlesMatchClient(cart.lines);
  }

  /** On a cart whose every flag is present, the server check and the client
      check produce the same errors, as the client's doc comment says. */
  lemma MirrorsClientValidation(cart: Cart<CarbValidation.Product>)
    ensures CarbErrors(Cart(FromTaggedLines(cart.lines), cart.deliveryGroups)) ==
      CarbValidation.CarbErrors(cart)
  {
    MissingFlagIsNonCompliant(Cart(FromTaggedLines(cart.lines), cart.deliveryGroups));
    FromTaggedRoundTrip(cart.lines);
  }
}
