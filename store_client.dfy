/**
 * The store page of client/src/App.jsx: its `checkAdmin` probe, its catalog fetch, and the
 * cart the page keeps in component state (`addToCart`, `changeQty`, `cartTotal`,
 * `submitOrder`).
 */
module StoreClient {
  import opened JsRuntime
  import opened Seqs
  import opened Slug
  import opened Catalog

  // ---------------------------------------------------------------------------
  // Requests
  // ---------------------------------------------------------------------------

  /** `checkAdmin(userId)`: never throws; every failure reads as "not an administrator",
      and no request is made for an empty user id. */
  function CheckAdmin(userId: string, fetched: Fetched): (r: Value)
    ensures userId == "" ==> r == NotAdminReply
    ensures r != NotAdminReply ==>
      fetched.Received? && StatusOk(fetched.reply.status) && fetched.reply.json == Ok(r)
    ensures userId != "" && fetched.Received? && StatusOk(fetched.reply.status) && fetched.reply.json.Ok? ==>
      r == fetched.reply.json.value
  {
    if userId == "" then NotAdminReply
    else match fetched
      case NetworkError(_) => NotAdminReply
      case Received(reply) =>
        if !StatusOk(reply.status) then NotAdminReply
        else match reply.json
          case Ok(j) => j
          case Err(_) => NotAdminReply
  }

  /** Without a user id the reply is never consulted. */
  lemma CheckAdminWithoutUser(a: Fetched, b: Fetched)
    ensures CheckAdmin("", a) == CheckAdmin("", b)
  {
  }

  /** The message `apiJson` throws for a response that is not ok. */
  function HttpErrorMessage(reply: Reply): string {
    "HTTP " + IntToString(reply.status) + ": " + (if |reply.text| <= 200 then reply.text else reply.text[..200])
  }

  /** `apiJson(path)`: the parsed body of an ok response. A response that is not ok always
      fails with the status and the first 200 characters of its body: the error thrown
      with the server's own `error` field inside the `try` is caught by its own `catch`. */
  function ApiJson(fetched: Fetched): (r: Result<Value>)
    ensures fetched.NetworkError? ==> r == Err(fetched.message)
    ensures fetched.Received? && !StatusOk(fetched.reply.status) ==> r == Err(HttpErrorMessage(fetched.reply))
    ensures fetched.Received? && StatusOk(fetched.reply.status) ==> r == fetched.reply.json
    ensures r.Ok? ==> fetched.Received? && StatusOk(fetched.reply.status) && fetched.reply.json == r
  {
    match fetched
    case NetworkError(m) => Err(m)
    case Received(reply) =>
      if !StatusOk(reply.status) then Err(HttpErrorMessage(reply))
      else reply.json
  }

  /** The server's `error` text never reaches the caller of `apiJson`. */
  lemma ApiJsonIgnoresServerError(status: int, text: string, body: map<string, Value>)
    requires !StatusOk(status)
    ensures ApiJson(Received(Reply(status, text, Ok(Obj(body))))) ==
            ApiJson(Received(Reply(status, text, Ok(Obj(body["error" := Str("server said no")])))))
  {
  }

  /** `Array.isArray(j?.items) ? j.items : Array.isArray(j) ? j : []` */
  function CatalogInput(j: Value): (raw: Value)
    ensures raw.Arr?
    ensures Prop(j, "items").Arr? ==> raw == Prop(j, "items")
    ensures !Prop(j, "items").Arr? && j.Arr? ==> raw == j
    ensures !Prop(j, "items").Arr? && !j.Arr? ==> raw == Arr([])
  {
    if Prop(j, "items").Arr? then Prop(j, "items") else if j.Arr? then j else Arr([])
  }

  /** `fetchCategories()`: the items of `{ items: [...] }` or of a bare array, normalised. */
  function FetchCategories(fetched: Fetched, now: EpochMs): (r: Result<seq<CatalogItem>>)
    ensures ApiJson(fetched).Err? ==> r == Err(ApiJson(fetched).message)
    ensures ApiJson(fetched).Ok? ==> r == NormalizeCategories(CatalogInput(ApiJson(fetched).value), now)
    ensures r.Ok? ==> fetched.Received? && StatusOk(fetched.reply.status) && fetched.reply.json.Ok?
    ensures r.Ok? ==> forall k :: 0 <= k < |r.value| ==> r.value[k].name != ""
  {
    var j :- ApiJson(fetched);
    NormalizeCategories(CatalogInput(j), now)
  }

  /** A bare array and the same array under `items` give the same catalog. */
  lemma FetchCategoriesShapes(status: int, text: string, text2: string, rows: seq<Value>, now: EpochMs)
    requires StatusOk(status)
    ensures FetchCategories(Received(Reply(status, text, Ok(Arr(rows)))), now) ==
            FetchCategories(Received(Reply(status, text2, Ok(Obj(map["ok" := Bool(true), "items" := Arr(rows)])))), now)
  {
  }

  // ---------------------------------------------------------------------------
  // The cart
  // ---------------------------------------------------------------------------

  datatype CartLine = CartLine(id: string, name: string, price: int, qty: int)

  /** The body `submitOrder` posts to `/api/order`. */
  datatype OrderBody = OrderBody(liffUserId: string, items: seq<CartLine>, note: string)

  ghost predicate DistinctIds(lines: seq<CartLine>) {
    forall i, j :: 0 <= i < j < |lines| ==> lines[i].id != lines[j].id
  }

  /** What every reachable cart satisfies: one line per id, each with a positive quantity. */
  ghost predicate WellFormed(lines: seq<CartLine>) {
    DistinctIds(lines) && AllPositive(lines)
  }

  /** `prev.findIndex(p => p.id === id)` */
  function IndexOf(lines: seq<CartLine>, id: string): (i: int)
    ensures -1 <= i < |lines|
    ensures i >= 0 ==> lines[i].id == id && forall j :: 0 <= j < i ==> lines[j].id != id
    ensures i < 0 ==> forall j :: 0 <= j < |lines| ==> lines[j].id != id
  {
    if lines == [] then -1
    else if lines[0].id == id then 0
    else
      var k := IndexOf(lines[1..], id);
      if k < 0 then -1 else k + 1
  }

  /** The same search, as the loop `findIndex` runs. */
  method FindIndex(lines: seq<CartLine>, id: string) returns (i: int)
    ensures i == IndexOf(lines, id)
  {
    i := 0;
    while i < |lines|
      invariant 0 <= i <= |lines|
      invariant forall j :: 0 <= j < i ==> lines[j].id != id
    {
      if lines[i].id == id {
        return;
      }
      i := i + 1;
    }
    i := -1;
  }

  /** The cart after `addToCart(item)`. */
  function AddLine(lines: seq<CartLine>, item: CatalogItem): (r: seq<CartLine>)
    ensures IndexOf(lines, item.id) >= 0 ==>
      var i := IndexOf(lines, item.id);
      |r| == |lines| && r[i] == lines[i].(qty := lines[i].qty + 1) &&
      forall j :: 0 <= j < |lines| && j != i ==> r[j] == lines[j]
    ensures IndexOf(lines, item.id) < 0 ==>
      r == lines + [CartLine(item.id, item.name, item.price, 1)]
  {
    var i := IndexOf(lines, item.id);
    if i >= 0 then lines[i := lines[i].(qty := lines[i].qty + 1)]
    else lines + [CartLine(item.id, item.name, item.price, 1)]
  }

  /** `.map(it => it.id === id ? { ...it, qty: it.qty + delta } : it)` */
  function Bump(lines: seq<CartLine>, id: string, delta: int): (r: seq<CartLine>)
    ensures |r| == |lines|
  {
    seq(|lines|, i requires 0 <= i < |lines| =>
      if lines[i].id == id then lines[i].(qty := lines[i].qty + delta) else lines[i])
  }

  predicate HasPositiveQty(line: CartLine) { line.qty > 0 }

  predicate AllPositive(lines: seq<CartLine>) {
    forall k :: 0 <= k < |lines| ==> HasPositiveQty(lines[k])
  }

  /** The cart after `changeQty(id, delta)`. */
  function ChangeLines(lines: seq<CartLine>, id: string, delta: int): (r: seq<CartLine>)
    ensures AllPositive(r)
    ensures |r| <= |lines|
    ensures IsSubsequence(r, Bump(lines, id, delta))
  {
    FilterIsSubsequence(Bump(lines, id, delta), HasPositiveQty);
    Filter(Bump(lines, id, delta), HasPositiveQty)
  }

  /** `price * qty` of one line. */
  function Subtotal(line: CartLine): int { line.price * line.qty }

  /** No line has a negative price or quantity. */
  predicate NonNegativeLines(lines: seq<CartLine>) {
    forall i :: 0 <= i < |lines| ==> lines[i].price >= 0 && lines[i].qty >= 0
  }

  /** `cart.reduce((s, it) => s + price * qty, 0)`, folding from the left. */
  function CartTotal(lines: seq<CartLine>): (t: int)
    ensures lines == [] ==> t == 0
    ensures NonNegativeLines(lines) ==> t >= 0
  {
    if lines == [] then 0 else CartTotal(lines[..|lines| - 1]) + Subtotal(lines[|lines| - 1])
  }

  /** The left fold is the sum taken from the front too. */
  lemma {:induction false} CartTotalCons(line: CartLine, rest: seq<CartLine>)
    ensures CartTotal([line] + rest) == Subtotal(line) + CartTotal(rest)
    decreases |rest|
  {
    if rest != [] {
      var init := rest[..|rest| - 1];
      assert ([line] + rest)[..|rest|] == [line] + init;
      CartTotalCons(line, init);
    }
  }

  /** The total is additive over concatenation. */
  lemma {:induction false} CartTotalAppend(a: seq<CartLine>, b: seq<CartLine>)
    ensures CartTotal(a + b) == CartTotal(a) + CartTotal(b)
    decreases |b|
  {
    if b == [] {
      assert a + b == a;
    } else {
      assert (a + b)[..|a + b| - 1] == a + b[..|b| - 1];
      CartTotalAppend(a, b[..|b| - 1]);
    }
  }

  /** Appending a line adds its subtotal. */
  lemma CartTotalPush(lines: seq<CartLine>, line: CartLine)
    ensures CartTotal(lines + [line]) == CartTotal(lines) + Subtotal(line)
  {
    assert (lines + [line])[..|lines|] == lines;
  }

  /** Replacing one line changes the total by the difference of the two subtotals. */
  lemma CartTotalUpdate(lines: seq<CartLine>, i: nat, line: CartLine)
    requires i < |lines|
    ensures CartTotal(lines[i := line]) == CartTotal(lines) - Subtotal(lines[i]) + Subtotal(line)
  {
    var pre, x, post := lines[..i], lines[i], lines[i + 1..];
    var tail, tail2 := [x] + post, [line] + post;
    assert lines == pre + tail;
    assert lines[i := line] == pre + tail2;
    CartTotalCons(x, post);
    CartTotalCons(line, post);
    CartTotalAppend(pre, tail);
    CartTotalAppend(pre, tail2);
  }

  /** Two carts with the same ids in the same places have the same search results. */
  lemma {:induction false} IndexOfSameIds(a: seq<CartLine>, b: seq<CartLine>, id: string)
    requires |a| == |b| && forall k :: 0 <= k < |a| ==> a[k].id == b[k].id
    ensures IndexOf(a, id) == IndexOf(b, id)
  {
    if a != [] {
      IndexOfSameIds(a[1..], b[1..], id);
    }
  }

  /** Appending a line finds it only when no earlier line has its id. */
  lemma {:induction false} IndexOfAppend(lines: seq<CartLine>, line: CartLine, id: string)
    ensures IndexOf(lines + [line], id) ==
      if IndexOf(lines, id) >= 0 then IndexOf(lines, id) else if line.id == id then |lines| else -1
  {
    if lines != [] {
      assert (lines + [line])[1..] == lines[1..] + [line];
      IndexOfAppend(lines[1..], line, id);
    }
  }

  /** In a cart of distinct ids, the `map` of `changeQty` rewrites exactly the line of `id`. */
  lemma BumpAt(lines: seq<CartLine>, id: string, delta: int)
    requires DistinctIds(lines) && IndexOf(lines, id) >= 0
    ensures var i := IndexOf(lines, id);
      Bump(lines, id, delta) == lines[i := lines[i].(qty := lines[i].qty + delta)]
  {
  }

  /** The same, split around the rewritten line. */
  lemma BumpSplit(lines: seq<CartLine>, id: string, delta: int)
    requires DistinctIds(lines) && IndexOf(lines, id) >= 0
    ensures var i := IndexOf(lines, id);
      Bump(lines, id, delta) == lines[..i] + [lines[i].(qty := lines[i].qty + delta)] + lines[i + 1..]
  {
    var i := IndexOf(lines, id);
    BumpAt(lines, id, delta);
    assert lines[i := lines[i].(qty := lines[i].qty + delta)] ==
           lines[..i] + [lines[i].(qty := lines[i].qty + delta)] + lines[i + 1..];
  }

  /** The lines before and after any one line of a well-formed cart have positive quantities. */
  lemma PositiveAround(lines: seq<CartLine>, i: nat)
    requires WellFormed(lines) && i < |lines|
    ensures AllPositive(lines[..i]) && AllPositive(lines[i + 1..])
  {
  }

  /** The quantity of `id` in the cart, 0 when it has no line. */
  function QtyOf(lines: seq<CartLine>, id: string): int {
    var i := IndexOf(lines, id);
    if i >= 0 then lines[i].qty else 0
  }

  /** `addToCart` keeps a well-formed cart well formed. */
  lemma AddLineWellFormed(lines: seq<CartLine>, item: CatalogItem)
    requires WellFormed(lines)
    ensures WellFormed(AddLine(lines, item))
  {
  }

  /** `addToCart` raises the quantity of the item's id by one and leaves every other
      quantity alone. */
  lemma AddLineQty(lines: seq<CartLine>, item: CatalogItem)
    ensures QtyOf(AddLine(lines, item), item.id) == QtyOf(lines, item.id) + 1
    ensures forall id :: id != item.id ==> QtyOf(AddLine(lines, item), id) == QtyOf(lines, id)
  {
    var r := AddLine(lines, item);
    var i := IndexOf(lines, item.id);
    if i >= 0 {
      forall id ensures IndexOf(r, id) == IndexOf(lines, id) {
        IndexOfSameIds(r, lines, id);
      }
    } else {
      var line := CartLine(item.id, item.name, item.price, 1);
      forall id ensures IndexOf(r, id) == if id == item.id then |lines| else IndexOf(lines, id) {
        IndexOfAppend(lines, line, id);
      }
    }
  }

  /** `addToCart` adds one unit's price to the total: the price on the cart line when the
      item was already there, the item's own price otherwise. */
  lemma AddLineTotal(lines: seq<CartLine>, item: CatalogItem)
    ensures CartTotal(AddLine(lines, item)) == CartTotal(lines) +
      (if IndexOf(lines, item.id) >= 0 then lines[IndexOf(lines, item.id)].price else item.price)
  {
    var i := IndexOf(lines, item.id);
    if i >= 0 {
      assert AddLine(lines, item) == lines[i := lines[i].(qty := lines[i].qty + 1)];
      CartTotalBump(lines, i, 1);
    } else {
      assert AddLine(lines, item) == lines + [CartLine(item.id, item.name, item.price, 1)];
      CartTotalPush(lines, CartLine(item.id, item.name, item.price, 1));
    }
  }

  /** `changeQty` keeps a well-formed cart well formed. */
  lemma ChangeLinesWellFormed(lines: seq<CartLine>, id: string, delta: int)
    requires WellFormed(lines)
    ensures WellFormed(ChangeLines(lines, id, delta))
  {
    var b := Bump(lines, id, delta);
    var r := ChangeLines(lines, id, delta);
    assert forall i, j :: 0 <= i < j < |b| ==> b[i].id != b[j].id by {
      assert forall k :: 0 <= k < |b| ==> b[k].id == lines[k].id;
    }
    SubsequenceKeepsPairwise(r, b, (x: CartLine, y: CartLine) => x.id != y.id);
  }

  /** `changeQty` touches only the line of `id`: every other line survives unchanged, in
      its place relative to the others, and no line appears that was not there. */
  lemma ChangeLinesOthers(lines: seq<CartLine>, id: string, delta: int)
    requires WellFormed(lines)
    ensures forall k :: 0 <= k < |lines| && lines[k].id != id ==> lines[k] in ChangeLines(lines, id, delta)
    ensures forall line :: line in ChangeLines(lines, id, delta) && line.id != id ==> line in lines
  {
    var b := Bump(lines, id, delta);
    FilterMembers(b, HasPositiveQty);
    forall k | 0 <= k < |lines| && lines[k].id != id ensures lines[k] in ChangeLines(lines, id, delta) {
      assert b[k] == lines[k];
    }
    forall line | line in ChangeLines(lines, id, delta) && line.id != id ensures line in lines {
      var k :| 0 <= k < |b| && b[k] == line;
      assert lines[k] == line;
    }
  }

  /** Removing one line takes its subtotal off the total. */
  lemma CartTotalRemove(lines: seq<CartLine>, i: nat)
    requires i < |lines|
    ensures CartTotal(lines[..i] + lines[i + 1..]) == CartTotal(lines) - Subtotal(lines[i])
  {
    var pre, x, post := lines[..i], lines[i], lines[i + 1..];
    var tail := [x] + post;
    assert lines == pre + tail;
    CartTotalCons(x, post);
    CartTotalAppend(pre, tail);
    CartTotalAppend(pre, post);
  }

  /** Changing one line's quantity by `delta` moves the total by `delta` units of its price. */
  lemma CartTotalBump(lines: seq<CartLine>, i: nat, delta: int)
    requires i < |lines|
    ensures CartTotal(lines[i := lines[i].(qty := lines[i].qty + delta)]) == CartTotal(lines) + delta * lines[i].price
  {
    var line := lines[i].(qty := lines[i].qty + delta);
    CartTotalUpdate(lines, i, line);
    assert Subtotal(line) == Subtotal(lines[i]) + delta * lines[i].price by {
      assert lines[i].price * (lines[i].qty + delta) == lines[i].price * lines[i].qty + delta * lines[i].price;
    }
  }

  /** Raising the line of `id` to a positive quantity replaces that line in place. */
  lemma ChangeLinesRaised(lines: seq<CartLine>, id: string, delta: int)
    requires WellFormed(lines) && IndexOf(lines, id) >= 0
    requires lines[IndexOf(lines, id)].qty + delta > 0
    ensures var i := IndexOf(lines, id);
      ChangeLines(lines, id, delta) == lines[i := lines[i].(qty := lines[i].qty + delta)]
  {
    var i := IndexOf(lines, id);
    BumpAt(lines, id, delta);
    FilterAllKept(lines[i := lines[i].(qty := lines[i].qty + delta)], HasPositiveQty);
  }

  /** Taking the line of `id` to zero or below removes exactly that line. */
  lemma ChangeLinesRemoved(lines: seq<CartLine>, id: string, delta: int)
    requires WellFormed(lines) && IndexOf(lines, id) >= 0
    requires lines[IndexOf(lines, id)].qty + delta <= 0
    ensures var i := IndexOf(lines, id);
      ChangeLines(lines, id, delta) == lines[..i] + lines[i + 1..]
  {
    var i := IndexOf(lines, id);
    var pre, x, post := lines[..i], lines[i].(qty := lines[i].qty + delta), lines[i + 1..];
    BumpSplit(lines, id, delta);
    PositiveAround(lines, i);
    assert !HasPositiveQty(x);
    FilterDropsOne(pre, x, post, HasPositiveQty);
  }

  /** `changeQty` moves the total by `delta` units of the line's price, or takes the whole
      line's subtotal off when its quantity drops to zero or below. */
  lemma ChangeLinesTotal(lines: seq<CartLine>, id: string, delta: int)
    requires WellFormed(lines) && IndexOf(lines, id) >= 0
    ensures var i := IndexOf(lines, id);
      CartTotal(ChangeLines(lines, id, delta)) == CartTotal(lines) +
        (if lines[i].qty + delta > 0 then delta * lines[i].price else -Subtotal(lines[i]))
  {
    var i := IndexOf(lines, id);
    if lines[i].qty + delta > 0 {
      ChangeLinesRaised(lines, id, delta);
      CartTotalBump(lines, i, delta);
    } else {
      ChangeLinesRemoved(lines, id, delta);
      CartTotalRemove(lines, i);
    }
  }

  /** `changeQty` on an id the cart does not hold changes nothing. */
  lemma ChangeLinesAbsent(lines: seq<CartLine>, id: string, delta: int)
    requires WellFormed(lines) && IndexOf(lines, id) < 0
    ensures ChangeLines(lines, id, delta) == lines
  {
    assert Bump(lines, id, delta) == lines;
    FilterAllKept(lines, HasPositiveQty);
  }

  /** The order body, or none when the cart is empty. */
  function OrderRequest(user: Option<User>, lines: seq<CartLine>): (r: Option<OrderBody>)
    ensures r.None? <==> lines == []
    ensures r.Some? ==> r.value.items == lines && r.value.note == ""
    ensures r.Some? ==> r.value.liffUserId == (if user.Some? then user.value.userId else "")
  {
    if lines == [] then None
    else Some(OrderBody(if user.Some? then user.value.userId else "", lines, ""))
  }

  /** `r.ok && j?.ok === true` */
  predicate OrderAccepted(fetched: Fetched) {
    fetched.Received? && StatusOk(fetched.reply.status) && fetched.reply.json.Ok? &&
    Prop(fetched.reply.json.value, "ok") == Bool(true)
  }

  /** The cart after `submitOrder`: emptied only when an order was sent and accepted. */
  function CartAfterSubmit(lines: seq<CartLine>, fetched: Fetched): (r: seq<CartLine>)
    ensures r == [] || r == lines
    ensures r != lines <==> lines != [] && OrderAccepted(fetched)
  {
    if lines != [] && OrderAccepted(fetched) then [] else lines
  }

  /** The page's cart state. */
  class Cart {
    var lines: seq<CartLine>
    var submitting: bool

    ghost predicate Valid()
      reads this
    {
      WellFormed(lines)
    }

    constructor ()
      ensures Valid() && lines == [] && !submitting
    {
      lines := [];
      submitting := false;
    }

    /** `addToCart(item)` */
    method AddToCart(item: CatalogItem)
      requires Valid()
      modifies this
      ensures Valid()
      ensures lines == AddLine(old(lines), item)
      ensures submitting == old(submitting)
      ensures QtyOf(lines, item.id) == QtyOf(old(lines), item.id) + 1
      ensures forall id :: id != item.id ==> QtyOf(lines, id) == QtyOf(old(lines), id)
      ensures CartTotal(lines) == CartTotal(old(lines)) +
        (if IndexOf(old(lines), item.id) >= 0 then old(lines)[IndexOf(old(lines), item.id)].price else item.price)
    {
      var i := FindIndex(lines, item.id);
      if i >= 0 {
        lines := lines[i := lines[i].(qty := lines[i].qty + 1)];
      } else {
        lines := lines + [CartLine(item.id, item.name, item.price, 1)];
      }
      AddLineWellFormed(old(lines), item);
      AddLineQty(old(lines), item);
      AddLineTotal(old(lines), item);
    }

    /** `changeQty(id, delta)` */
    method ChangeQty(id: string, delta: int)
      requires Valid()
      modifies this
      ensures Valid()
      ensures lines == ChangeLines(old(lines), id, delta)
      ensures submitting == old(submitting)
      ensures IndexOf(old(lines), id) < 0 ==> lines == old(lines)
      ensures var i := IndexOf(old(lines), id);
        i >= 0 && old(lines)[i].qty + delta > 0 ==>
          lines == old(lines)[i := old(lines)[i].(qty := old(lines)[i].qty + delta)]
      ensures var i := IndexOf(old(lines), id);
        i >= 0 && old(lines)[i].qty + delta <= 0 ==> lines == old(lines)[..i] + old(lines)[i + 1..]
    {
      ChangeLinesWellFormed(lines, id, delta);
      var i := IndexOf(lines, id);
      if i < 0 {
        ChangeLinesAbsent(lines, id, delta);
      } else if lines[i].qty + delta > 0 {
        ChangeLinesRaised(lines, id, delta);
      } else {
        ChangeLinesRemoved(lines, id, delta);
      }
      lines := ChangeLines(lines, id, delta);
    }

    /** `submitOrder()`: `fetched` is what the POST to `/api/order` produced. Returns the
        body that was posted, if any. */
    method SubmitOrder(user: Option<User>, fetched: Fetched) returns (sent: Option<OrderBody>)
      requires Valid()
      modifies this
      ensures Valid()
      ensures sent == OrderRequest(user, old(lines))
      ensures lines == CartAfterSubmit(old(lines), fetched)
      ensures submitting == (old(submitting) && old(lines) == [])
    {
      if |lines| == 0 {
        return None;
      }
      submitting := true;
      sent := Some(OrderBody(if user.Some? then user.value.userId else "", lines, ""));
      if OrderAccepted(fetched) {
        lines := [];
      }
      submitting := false;
    }
  }
}
