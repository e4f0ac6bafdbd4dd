/** The quick-order endpoint (Controller/QuickOrder/AddToCart.php): a
    best-effort batch that adds each requested SKU to the cart. */
module QuickOrder {
  import opened Php

  /** One posted `{sku, qty}` entry; either key may be missing. */
  datatype RequestItem = RequestItem(sku: Option<string>, qty: Option<string>)

  /** What looking the SKU up and adding it to the cart does: the product has
      no id, or an exception with this message is raised, or the line is added. */
  datatype AddOutcome = Added | NotFound | Failed(message: string)

  datatype CartLine = CartLine(sku: string, qty: string)

  /** The JSON response; the keys `added_count` and `errors` are absent on the
      login and crash paths. */
  datatype Response = Response(success: bool, message: string, addedCount: Option<nat>, errors: Option<seq<string>>)

  const LoginMessage := "Please log in to use Quick Order."

  const LoginRequired := Response(false, LoginMessage, None, None)

  const CrashPrefix := "An error occurred: "
  const AddedSuffix := " product(s) added to cart."

  class Cart {
    var lines: seq<CartLine>
    var saveCount: nat

    constructor ()
      ensures lines == [] && saveCount == 0
    {
      lines := [];
      saveCount := 0;
    }

    method AddProduct(sku: string, qty: string)
      modifies this
      ensures lines == old(lines) + [CartLine(sku, qty)] && saveCount == old(saveCount)
    {
      lines := lines + [CartLine(sku, qty)];
    }

    method Save()
      modifies this
      ensures lines == old(lines) && saveCount == old(saveCount) + 1
    {
      saveCount := saveCount + 1;
    }
  }

  /** An entry without a truthy SKU is passed over. */
  predicate Skipped(item: RequestItem)
  {
    !Truthy(item.sku)
  }

  /** A missing quantity is 1. */
  function QtyOf(item: RequestItem): string
  {
    if item.qty.Some? then item.qty.value else "1"
  }

  function NotFoundError(sku: string): string
  {
    "Product with SKU \"" + sku + "\" not found."
  }

  function AddError(sku: string, message: string): string
  {
    "Error adding SKU \"" + sku + "\": " + message
  }

  /** What one entry contributes to the batch: the cart lines it adds and the
      errors it reports. */
  function ItemLines(item: RequestItem, attempt: (string, string) -> AddOutcome): seq<CartLine>
  {
    if Skipped(item) then []
    else if attempt(item.sku.value, QtyOf(item)).Added? then [CartLine(item.sku.value, QtyOf(item))]
    else []
  }

  function ItemErrors(item: RequestItem, attempt: (string, string) -> AddOutcome): seq<string>
  {
    if Skipped(item) then []
    else
      match attempt(item.sku.value, QtyOf(item))
      case Added => []
      case NotFound => [NotFoundError(item.sku.value)]
      case Failed(m) => [AddError(item.sku.value, m)]
  }

  /** The batch's effect, entry by entry in input order. */
  function AddedLines(items: seq<RequestItem>, attempt: (string, string) -> AddOutcome): seq<CartLine>
  {
    if items == [] then [] else ItemLines(items[0], attempt) + AddedLines(items[1..], attempt)
  }

  function Errors(items: seq<RequestItem>, attempt: (string, string) -> AddOutcome): seq<string>
  {
    if items == [] then [] else ItemErrors(items[0], attempt) + Errors(items[1..], attempt)
  }

  function SkippedCount(items: seq<RequestItem>): nat
  {
    if items == [] then 0 else (if Skipped(items[0]) then 1 else 0) + SkippedCount(items[1..])
  }

  predicate IsAdded(item: RequestItem, attempt: (string, string) -> AddOutcome)
  {
    !Skipped(item) && attempt(item.sku.value, QtyOf(item)).Added?
  }

  /** The batch splits over concatenation of the request, so each entry's
      contribution follows the contributions of the entries before it. */
  lemma {:induction false} AddedLinesSplit(a: seq<RequestItem>, b: seq<RequestItem>, attempt: (string, string) -> AddOutcome)
    ensures AddedLines(a + b, attempt) == AddedLines(a, attempt) + AddedLines(b, attempt)
  {
    if a == [] {
      assert a + b == b;
    } else {
      assert (a + b)[1..] == a[1..] + b;
      AddedLinesSplit(a[1..], b, attempt);
      AppendAssoc(ItemLines(a[0], attempt), AddedLines(a[1..], attempt), AddedLines(b, attempt));
    }
  }

  lemma {:induction false} ErrorsSplit(a: seq<RequestItem>, b: seq<RequestItem>, attempt: (string, string) -> AddOutcome)
    ensures Errors(a + b, attempt) == Errors(a, attempt) + Errors(b, attempt)
  {
    if a == [] {
      assert a + b == b;
    } else {
      assert (a + b)[1..] == a[1..] + b;
      ErrorsSplit(a[1..], b, attempt);
      AppendAssoc(ItemErrors(a[0], attempt), Errors(a[1..], attempt), Errors(b, attempt));
    }
  }

  lemma AppendAssoc<T>(a: seq<T>, b: seq<T>, c: seq<T>)
    ensures a + (b + c) == (a + b) + c
  {
  }

  /** The batch over a prefix and one more entry. */
  lemma BatchStep(items: seq<RequestItem>, i: nat, attempt: (string, string) -> AddOutcome)
    requires i < |items|
    ensures AddedLines(items[..i + 1], attempt) == AddedLines(items[..i], attempt) + ItemLines(items[i], attempt)
    ensures Errors(items[..i + 1], attempt) == Errors(items[..i], attempt) + ItemErrors(items[i], attempt)
  {
    assert items[..i + 1] == items[..i] + [items[i]];
    AddedLinesSplit(items[..i], [items[i]], attempt);
    ErrorsSplit(items[..i], [items[i]], attempt);
    assert [items[i]][1..] == [];
    assert AddedLines([items[i]], attempt) == ItemLines(items[i], attempt) + [];
    assert Errors([items[i]], attempt) == ItemErrors(items[i], attempt) + [];
  }

  /** Every entry is exactly one of: added, reported once, skipped. */
  lemma {:induction false} BatchAccounting(items: seq<RequestItem>, attempt: (string, string) -> AddOutcome)
    ensures |AddedLines(items, attempt)| + |Errors(items, attempt)| + SkippedCount(items) == |items|
  {
    if items != [] {
      BatchAccounting(items[1..], attempt);
    }
  }

  /** Something is added exactly when some entry is added. */
  lemma {:induction false} AddedIffSomeItemAdded(items: seq<RequestItem>, attempt: (string, string) -> AddOutcome)
    ensures |AddedLines(items, attempt)| > 0 <==> exists i :: 0 <= i < |items| && IsAdded(items[i], attempt)
  {
    if items != [] {
      AddedIffSomeItemAdded(items[1..], attempt);
      if exists i :: 0 <= i < |items| && IsAdded(items[i], attempt) {
        var i :| 0 <= i < |items| && IsAdded(items[i], attempt);
        if i > 0 {
          assert IsAdded(items[1..][i - 1], attempt);
        }
      }
      if exists i :: 0 <= i < |items[1..]| && IsAdded(items[1..][i], attempt) {
        var i :| 0 <= i < |items[1..]| && IsAdded(items[1..][i], attempt);
        assert IsAdded(items[i + 1], attempt);
      }
    }
  }

  /** "N product(s) added to cart.", then a space and the errors joined by
      spaces when there are any. */
  function SummaryMessage(count: nat, errors: seq<string>): string
  {
    DecimalString(count) + AddedSuffix + (if errors == [] then "" else " " + Join(errors, " "))
  }

  /** The response of a batch that reached the end: success means at least one
      line was added, however many errors there were. */
  function BatchResponse(count: nat, errors: seq<string>): (r: Response)
    ensures r.success <==> count > 0
    ensures r.addedCount == Some(count) && r.errors == Some(errors)
  {
    Response(count > 0, SummaryMessage(count, errors), Some(count), Some(errors))
  }

  /** `execute`: a guest gets the login response and nothing else happens.
      Otherwise every entry is processed in order, the cart is saved once after
      the loop, and the response reports the count and the errors; an exception
      from the save gives the crash response instead. */
  method Execute(loggedIn: bool, items: seq<RequestItem>, attempt: (string, string) -> AddOutcome,
                 saveFailure: Option<string>, cart: Cart)
    returns (response: Response)
    modifies cart
    ensures !loggedIn ==> response == LoginRequired && cart.lines == old(cart.lines) && cart.saveCount == old(cart.saveCount)
    ensures loggedIn ==>
              cart.lines == old(cart.lines) + AddedLines(items, attempt) && cart.saveCount == old(cart.saveCount) + 1
    ensures loggedIn && saveFailure.Some? ==>
              response == Response(false, CrashPrefix + saveFailure.value, None, None)
    ensures loggedIn && saveFailure.None? ==>
              response == BatchResponse(|AddedLines(items, attempt)|, Errors(items, attempt))
  {
    if !loggedIn {
      return LoginRequired;
    }
    var addedCount := 0;
    var errors: seq<string> := [];
    for i := 0 to |items|
      invariant cart.lines == old(cart.lines) + AddedLines(items[..i], attempt)
      invariant cart.saveCount == old(cart.saveCount)
      invariant addedCount == |AddedLines(items[..i], attempt)|
      invariant errors == Errors(items[..i], attempt)
    {
      var item := items[i];
      BatchStep(items, i, attempt);
      if !Truthy(item.sku) {
        assert AddedLines(items[..i + 1], attempt) == AddedLines(items[..i], attempt);
        continue;
      }
      var sku := item.sku.value;
      var qty := QtyOf(item);
      var outcome := attempt(sku, qty);
      match outcome {
        case NotFound =>
          errors := errors + [NotFoundError(sku)];
        case Failed(m) =>
          errors := errors + [AddError(sku, m)];
        case Added =>
          AppendAssoc(old(cart.lines), AddedLines(items[..i], attempt), [CartLine(sku, qty)]);
          cart.AddProduct(sku, qty);
          addedCount := addedCount + 1;
      }
    }
    assert items[..|items|] == items;
    cart.Save();
    if saveFailure.Some? {
      return Response(false, CrashPrefix + saveFailure.value, None, None);
    }
    return BatchResponse(addedCount, errors);
  }
}
