/** The client-side copy of the CARB check: a cart whose products carry a
    precomputed `hasAnyTag` flag, and the helpers exported beside it. */
module CarbValidation {
  import opened Carts

  /** `hasAnyTag`: the product carries one of the compliance tags. */
  datatype Product = Product(title: Option<string>, hasAnyTag: bool)

  predicate IsProductCarbCompliant(p: Product)
  {
    p.hasAnyTag
  }

  /** A line is reported when it has a product that is not compliant. */
  predicate IsFlagged(line: Line<Product>)
  {
    line.product.Some? && !IsProductCarbCompliant(line.product.value)
  }

  function TitleOf(line: Line<Product>): string
    requires line.product.Some?
  {
    DisplayTitle(line.product.value.title)
  }

  /** The titles `getNonCompliantProducts` collects, one per flagged line, in
      line order. */
  function NonCompliantTitles(lines: seq<Line<Product>>): (r: seq<string>)
    ensures |r| <= |lines|
    ensures forall k :: 0 <= k < |r| ==> r[k] != ""
  {
    if lines == [] then []
    else
      (if IsFlagged(lines[0]) then [TitleOf(lines[0])] else []) + NonCompliantTitles(lines[1..])
  }

  lemma {:induction false} NonCompliantTitlesAppend(a: seq<Line<Product>>, b: seq<Line<Product>>)
    ensures NonCompliantTitles(a + b) == NonCompliantTitles(a) + NonCompliantTitles(b)
  {
    if a != [] {
      assert (a + b)[1..] == a[1..] + b;
      NonCompliantTitlesAppend(a[1..], b);
    } else {
      assert a + b == b;
    }
  }

  /** Every flagged line contributes its own title at its own place, so
      duplicate titles are kept once per line. */
  lemma {:induction false} NonCompliantTitlesAt(lines: seq<Line<Product>>, k: nat)
    requires k < |lines| && IsFlagged(lines[k])
    ensures NonCompliantTitles(lines) ==
      NonCompliantTitles(lines[..k]) + [TitleOf(lines[k])] + NonCompliantTitles(lines[k + 1..])
  {
    var before, line, after := lines[..k], lines[k], lines[k + 1..];
    assert lines == before + [line] + after;
    NonCompliantTitlesAppend(before + [line], after);
    NonCompliantTitlesAppend(before, [line]);
    assert NonCompliantTitles([line]) == [TitleOf(line)] by {
      assert [line][1..] == [];
    }
  }

  /** Nothing is reported exactly when no line is flagged; custom lines are
      never flagged. */
  lemma {:induction false} NonCompliantTitlesEmptyIff(lines: seq<Line<Product>>)
    ensures NonCompliantTitles(lines) == [] <==> forall i :: 0 <= i < |lines| ==> !IsFlagged(lines[i])
  {
    if lines != [] {
      NonCompliantTitlesEmptyIff(lines[1..]);
      if forall i :: 0 <= i < |lines[1..]| ==> !IsFlagged(lines[1..][i]) {
        if !IsFlagged(lines[0]) {
          forall i | 0 <= i < |lines| ensures !IsFlagged(lines[i]) {
            if i > 0 { assert lines[i] == lines[1..][i - 1]; }
          }
        }
      } else {
        var j :| 0 <= j < |lines[1..]| && IsFlagged(lines[1..][j]);
        assert IsFlagged(lines[j + 1]);
      }
    }
  }

  /** Every reported title belongs to a flagged line. */
  lemma {:induction false} NonCompliantTitlesSound(lines: seq<Line<Product>>, t: string)
    requires t in NonCompliantTitles(lines)
    ensures exists i :: 0 <= i < |lines| && IsFlagged(lines[i]) && TitleOf(lines[i]) == t
  {
    if !(IsFlagged(lines[0]) && t == TitleOf(lines[0])) {
      NonCompliantTitlesSound(lines[1..], t);
      var i :| 0 <= i < |lines[1..]| && IsFlagged(lines[1..][i]) && TitleOf(lines[1..][i]) == t;
      assert lines[i + 1] == lines[1..][i];
    }
  }

  /** What `validateCarbCompliance` returns for a cart. */
  function CarbErrors(cart: Cart<Product>): (r: seq<ValidationError>)
    ensures |r| <= 1
    ensures forall k :: 0 <= k < |r| ==> r[k].target == CartTarget
    ensures !HasCaliforniaDeliveryAddress(cart.deliveryGroups) ==> r == []
    ensures r != [] <==>
      HasCaliforniaDeliveryAddress(cart.deliveryGroups) && NonCompliantTitles(cart.lines) != []
    ensures r != [] ==> r[0].message == ListMessage(NonCompliantTitles(cart.lines))
  {
    if !HasCaliforniaDeliveryAddress(cart.deliveryGroups) then []
    else
      var titles := NonCompliantTitles(cart.lines);
      if |titles| > 0 then [ValidationError(ListMessage(titles), CartTarget)] else []
  }

  /** `getNonCompliantProducts`: a `forEach` over the lines pushing titles. */
  method GetNonCompliantProducts(cart: Cart<Product>) returns (titles: seq<string>)
    ensures titles == NonCompliantTitles(cart.lines)
  {
    titles := [];
    var i := 0;
    while i < |cart.lines|
      invariant 0 <= i <= |cart.lines|
      invariant titles == NonCompliantTitles(cart.lines[..i])
    {
      var line := cart.lines[i];
      assert cart.lines[..i + 1] == cart.lines[..i] + [line];
      NonCompliantTitlesAppend(cart.lines[..i], [line]);
      if line.product.Some? && !IsProductCarbCompliant(line.product.value) {
        titles := titles + [DisplayTitle(line.product.value.title)];
      }
      i := i + 1;
    }
    assert cart.lines[..i] == cart.lines;
  }

  /** `validateCarbCompliance`: the California gate, then the same loop inlined,
      then at most one error pushed. */
  method ValidateCarbCompliance(cart: Cart<Product>) returns (errors: seq<ValidationError>)
    ensures errors == CarbErrors(cart)
  {
    errors := [];
    if !HasCaliforniaDeliveryAddress(cart.deliveryGroups) {
      return;
    }
    var nonCompliantProducts := [];
    var i := 0;
    while i < |cart.lines|
      invariant 0 <= i <= |cart.lines|
      invariant nonCompliantProducts == NonCompliantTitles(cart.lines[..i])
    {
      var line := cart.lines[i];
      assert cart.lines[..i + 1] == cart.lines[..i] + [line];
      NonCompliantTitlesAppend(cart.lines[..i], [line]);
      if line.product.Some? {
        var isCompliant := line.product.value.hasAnyTag;
        if !isCompliant {
          nonCompliantProducts := nonCompliantProducts + [DisplayTitle(line.product.value.title)];
        }
      }
      i := i + 1;
    }
    assert cart.lines[..i] == cart.lines;
    if |nonCompliantProducts| > 0 {
      errors := errors + [ValidationError(ListMessage(nonCompliantProducts), CartTarget)];
    }
  }
}
