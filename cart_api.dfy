/**
 * The cart handler: a user's cart is the `carts` record stored under the
 * email of the session's token, a list of `{item_id, quantity}` entries.
 */
module CartApi {
  import opened Wrappers
  import opened Text
  import opened JsValues
  import opened Records
  import opened Http
  import opened Store
  import opened Helpers
  import opened ApiCommon
  import Config

  /*------------------------------------------------------------------------
   * Item-list operations
   *------------------------------------------------------------------------*/

  /** The sum of the quantities of the entries for `id`. */
  function MatchingTotal(items: seq<CartItem>, id: string): real {
    if items == [] then 0.0
    else
      var last := items[|items| - 1];
      MatchingTotal(items[..|items| - 1], id) + (if last.itemId == id then last.quantity else 0.0)
  }

  /** The loop of `post`: the requested quantity plus the quantity of every entry already there for the item. */
  method SumMatching(items: seq<CartItem>, id: string, quantity: real) returns (total: real)
    ensures total == quantity + MatchingTotal(items, id)
  {
    total := quantity;
    var i := 0;
    while i < |items|
      invariant 0 <= i <= |items|
      invariant total == quantity + MatchingTotal(items[..i], id)
    {
      if items[i].itemId == id {
        total := total + items[i].quantity;
      }
      assert items[..i + 1][..i] == items[..i];
      i := i + 1;
    }
    assert items[..|items|] == items;
  }

  /** The item list after `post` on an existing cart: one more entry, carrying the summed quantity. */
  function AppendSummed(items: seq<CartItem>, id: string, quantity: real): seq<CartItem> {
    items + [CartItem(id, quantity + MatchingTotal(items, id))]
  }

  /** Appending an entry adds its quantity to the total of its item and leaves other items' totals alone. */
  lemma MatchingTotalSnoc(items: seq<CartItem>, x: CartItem, id: string)
    ensures MatchingTotal(items + [x], id) == MatchingTotal(items, id) + (if x.itemId == id then x.quantity else 0.0)
  {
    assert (items + [x])[..|items|] == items;
  }

  /**
   * `post` keeps every earlier entry and appends one, so the item's old
   * entries are counted twice: its total becomes twice the old total plus the
   * requested quantity, and every other item's total is unchanged.
   */
  lemma AppendSummedTotals(items: seq<CartItem>, id: string, quantity: real, other: string)
    ensures |AppendSummed(items, id, quantity)| == |items| + 1
    ensures AppendSummed(items, id, quantity)[..|items|] == items
    ensures MatchingTotal(AppendSummed(items, id, quantity), id) == 2.0 * MatchingTotal(items, id) + quantity
    ensures other != id ==> MatchingTotal(AppendSummed(items, id, quantity), other) == MatchingTotal(items, other)
  {
    var x := CartItem(id, quantity + MatchingTotal(items, id));
    MatchingTotalSnoc(items, x, id);
    MatchingTotalSnoc(items, x, other);
  }

  /** The item list after `put`: every entry for `id` gets the new quantity. */
  function SetAll(items: seq<CartItem>, id: string, quantity: real): (r: seq<CartItem>)
    ensures |r| == |items|
  {
    seq(|items|, k requires 0 <= k < |items| => if items[k].itemId == id then items[k].(quantity := quantity) else items[k])
  }

  predicate HasItem(items: seq<CartItem>, id: string) {
    exists k :: 0 <= k < |items| && items[k].itemId == id
  }

  /** The loop of `put`, in place: sets the quantity of every matching entry and reports whether there was one. */
  method SetQuantity(a: array<CartItem>, id: string, quantity: real) returns (updated: bool)
    modifies a
    ensures a[..] == SetAll(old(a[..]), id, quantity)
    ensures updated <==> HasItem(old(a[..]), id)
  {
    ghost var before := a[..];
    updated := false;
    var i := 0;
    while i < a.Length
      invariant 0 <= i <= a.Length
      invariant forall k :: 0 <= k < i ==> a[k] == SetAll(before, id, quantity)[k]
      invariant forall k :: i <= k < a.Length ==> a[k] == before[k]
      invariant updated <==> exists k :: 0 <= k < i && before[k].itemId == id
    {
      if a[i].itemId == id {
        a[i] := a[i].(quantity := quantity);
        updated := true;
      }
      i := i + 1;
    }
  }

  /**
   * `put` keeps the list's length and item order; the entries for `id` end
   * up with the new quantity, every other entry is unchanged, and a second
   * identical `put` changes nothing.
   */
  lemma SetAllEffect(items: seq<CartItem>, id: string, quantity: real)
    ensures forall k :: 0 <= k < |items| ==> SetAll(items, id, quantity)[k].itemId == items[k].itemId
    ensures forall k :: 0 <= k < |items| && items[k].itemId == id ==> SetAll(items, id, quantity)[k].quantity == quantity
    ensures forall k :: 0 <= k < |items| && items[k].itemId != id ==> SetAll(items, id, quantity)[k] == items[k]
    ensures SetAll(SetAll(items, id, quantity), id, quantity) == SetAll(items, id, quantity)
    ensures HasItem(SetAll(items, id, quantity), id) <==> HasItem(items, id)
  {
    var r := SetAll(items, id, quantity);
    if HasItem(items, id) {
      var k :| 0 <= k < |items| && items[k].itemId == id;
      assert r[k].itemId == id;
    }
  }

  /**
   * The list after the `delete` loop, which walks indices with `splice(i, 1)`
   * inside `for...of`: removing an entry shifts the next one into the current
   * index, which the walk then steps past without examining it.
   */
  function SpliceWalk(items: seq<CartItem>, id: string): (r: seq<CartItem>)
    ensures |r| <= |items|
  {
    if items == [] then []
    else if items[0].itemId == id then
      if |items| == 1 then [] else [items[1]] + SpliceWalk(items[2..], id)
    else [items[0]] + SpliceWalk(items[1..], id)
  }

  /**
   * The walk's result as seen from the middle of the loop: the entries before
   * index `i` are kept as they are and the walk goes on from `i`. An index one
   * past the end (left by a `splice` of the last entry) means the walk is over.
   */
  function Walked(rest: seq<CartItem>, i: nat, id: string): seq<CartItem> {
    if i <= |rest| then rest[..i] + SpliceWalk(rest[i..], id) else rest
  }

  /** Whether an entry for `id` is still ahead of the walk. */
  predicate Ahead(rest: seq<CartItem>, i: nat, id: string) {
    i <= |rest| && HasItem(rest[i..], id)
  }

  /** The loop of `delete`: removes entries for `id` with the index walk above and reports whether it removed one. */
  method SpliceMatches(items: seq<CartItem>, id: string) returns (rest: seq<CartItem>, deleted: bool)
    ensures rest == SpliceWalk(items, id)
    ensures deleted <==> HasItem(items, id)
  {
    rest := items;
    deleted := false;
    var i := 0;
    assert rest[..0] + SpliceWalk(rest[0..], id) == SpliceWalk(items, id) by { assert rest[0..] == items; }
    while i < |rest|
      invariant i <= |rest| + 1
      invariant SpliceWalk(items, id) == Walked(rest, i, id)
      invariant HasItem(items, id) <==> deleted || Ahead(rest, i, id)
      decreases |rest| + 1 - i
    {
      if rest[i].itemId == id {
        DropStep(rest, i, id);
        rest := rest[..i] + rest[i + 1..];
        deleted := true;
      } else {
        KeepStep(rest, i, id);
      }
      i := i + 1;
    }
    if i == |rest| {
      assert rest[..i] == rest && rest[i..] == [];
    }
  }

  /** A turn of the walk past an entry not for `id`: the entry joins the kept prefix. */
  lemma KeepStep(rest: seq<CartItem>, i: nat, id: string)
    requires i < |rest| && rest[i].itemId != id
    ensures Walked(rest, i + 1, id) == Walked(rest, i, id)
    ensures Ahead(rest, i + 1, id) <==> Ahead(rest, i, id)
  {
    var left := rest[i..];
    assert left[1..] == rest[i + 1..];
    assert SpliceWalk(left, id) == [left[0]] + SpliceWalk(left[1..], id);
    assert rest[..i + 1] == rest[..i] + [left[0]];
    ConsAssoc(rest[..i], left[0], SpliceWalk(left[1..], id));
    HasItemStep(left, id);
  }

  /**
   * A turn of the walk at an entry for `id`: after `splice` the next entry
   * sits at the current index, which the walk then steps past.
   */
  lemma DropStep(rest: seq<CartItem>, i: nat, id: string)
    requires i < |rest| && rest[i].itemId == id
    ensures Ahead(rest, i, id)
    ensures Walked(rest[..i] + rest[i + 1..], i + 1, id) == Walked(rest, i, id)
  {
    var left := rest[i..];
    assert left[0] == rest[i];
    var spliced := rest[..i] + rest[i + 1..];
    if i + 1 == |rest| {
      assert SpliceWalk(left, id) == [];
      assert rest[i + 1..] == [];
      assert rest[..i] == spliced;
    } else {
      assert left[1..][1..] == left[2..];
      assert SpliceWalk(left, id) == [left[1]] + SpliceWalk(left[2..], id);
      assert spliced[..i + 1] == rest[..i] + [left[1]];
      assert spliced[i + 1..] == left[2..];
      ConsAssoc(rest[..i], left[1], SpliceWalk(left[2..], id));
    }
  }

  /** An entry for `id` is either the first one or among the others. */
  lemma HasItemStep(items: seq<CartItem>, id: string)
    requires items != []
    ensures HasItem(items, id) <==> items[0].itemId == id || HasItem(items[1..], id)
  {
    if HasItem(items, id) && items[0].itemId != id {
      var k :| 0 <= k < |items| && items[k].itemId == id;
      assert items[1..][k - 1].itemId == id;
    }
    if HasItem(items[1..], id) {
      var k :| 0 <= k < |items[1..]| && items[1..][k].itemId == id;
      assert items[k + 1].itemId == id;
    }
  }

  /** Moving one element across a concatenation. */
  lemma ConsAssoc<T>(p: seq<T>, x: T, q: seq<T>)
    ensures p + ([x] + q) == (p + [x]) + q
  {
  }

  /** The entries that are not for `id`, in order. */
  function Others(items: seq<CartItem>, id: string): seq<CartItem> {
    if items == [] then []
    else (if items[0].itemId == id then [] else [items[0]]) + Others(items[1..], id)
  }

  /** The walk removes only entries for `id`: the other entries survive, in their order. */
  lemma {:induction false} SpliceWalkKeepsOthers(items: seq<CartItem>, id: string)
    ensures Others(SpliceWalk(items, id), id) == Others(items, id)
  {
    if items != [] {
      if items[0].itemId == id {
        if |items| > 1 {
          SpliceWalkKeepsOthers(items[2..], id);
          assert items[1..][1..] == items[2..];
          assert ([items[1]] + SpliceWalk(items[2..], id))[1..] == SpliceWalk(items[2..], id);
        }
      } else {
        SpliceWalkKeepsOthers(items[1..], id);
        assert ([items[0]] + SpliceWalk(items[1..], id))[1..] == SpliceWalk(items[1..], id);
      }
    }
  }

  /** No entry for `id` directly follows another one. */
  predicate NoAdjacentMatches(items: seq<CartItem>, id: string) {
    forall k :: 0 <= k < |items| - 1 && items[k].itemId == id ==> items[k + 1].itemId != id
  }

  /** When no two entries for `id` are adjacent, the walk removes every one of them. */
  lemma {:induction false} SpliceWalkComplete(items: seq<CartItem>, id: string)
    requires NoAdjacentMatches(items, id)
    ensures SpliceWalk(items, id) == Others(items, id)
  {
    if items != [] {
      if items[0].itemId == id {
        if |items| > 1 {
          assert items[1].itemId != id;
          assert NoAdjacentMatches(items[2..], id) by {
            assert forall k :: 0 <= k < |items[2..]| ==> items[2..][k] == items[k + 2];
          }
          SpliceWalkComplete(items[2..], id);
          assert items[1..][1..] == items[2..];
        }
      } else {
        assert NoAdjacentMatches(items[1..], id) by {
          assert forall k :: 0 <= k < |items[1..]| ==> items[1..][k] == items[k + 1];
        }
        SpliceWalkComplete(items[1..], id);
      }
    }
  }

  /** Two adjacent entries for the same item: the walk removes the first and leaves the second in the cart. */
  lemma SpliceWalkSkipsSecond(x: CartItem)
    ensures SpliceWalk([x, x], x.itemId) == [x]
  {
    assert [x, x][2..] == [];
  }

  /*------------------------------------------------------------------------
   * Handlers
   *------------------------------------------------------------------------*/

  /** `{integer: true, min: 1}`. */
  const QuantityOptions: Options := Defaults.(min := 1.0, integer := true)

  const NoCartFound := Json(500, Message("Internal", "Could not get the cart."))
  const SaveFailed := Json(500, Message("Internal", "Could not save the item to cart."))
  const CreateFailed := Json(500, Message("Internal", "Could not create the cart."))
  const NoCartToUpdate := Json(400, Message("Bad Request", "You don't have any cart to update."))
  const InvalidItemId := Json(400, Message("Bad Request", "Invalid /:item_id."))
  const UpdateFailed := Json(500, Message("Internal", "Could not update the cart."))
  const NoCartToRemoveFrom := Json(400, Message("Bad Request", "You do not have a cart to remove an item from it."))
  const DeleteFailed := Json(500, Message("Internal", "Could not delete the item."))

  function BodyItemId(req: Request): Input { Validate(Field(req, "item_id"), TokenType, ItemIdOptions) }
  function QuantityOf(req: Request): Input { Validate(Field(req, "quantity"), NumberType, QuantityOptions) }

  /** `get`: the stored cart, an empty one when there is none; without a session the read throws and the answer is 500. */
  method Get(db: Db, req: Request) returns (o: Outcome)
    ensures req.token.None? ==> o == Returned(NoCartFound)
    ensures req.token.Some? && Owner(req) in db.carts.records ==>
      o == Returned(Json(200, CartBody(db.carts.records[Owner(req)])))
    ensures req.token.Some? && Owner(req) !in db.carts.records ==> o == Returned(Json(200, CartBody(Cart([]))))
  {
    if req.token.None? {
      return Returned(NoCartFound);
    }
    var cart := db.carts.Read(req.token.value.Email(), None);
    if cart.Ok? {
      o := Returned(Json(200, CartBody(cart.value)));
    } else if cart.error.code == Some("ENOENT") {
      o := Returned(Json(200, CartBody(Cart([]))));
    } else {
      o := Returned(NoCartFound);
    }
  }

  /**
   * `post`: appends an entry for a menu item. An invalid field reaches the
   * unbound name `helpers` and throws; an item missing from the menu throws
   * its 400 object; an existing cart gets the entry with the summed quantity
   * appended; a missing cart is created with the one entry.
   */
  method Post(db: Db, req: Request) returns (o: Outcome)
    modifies db.carts
    ensures !Truthy(BodyItemId(req)) || !Truthy(QuantityOf(req)) ==>
      o == Threw(RuntimeError("ReferenceError")) && db.carts.records == old(db.carts.records)
    ensures Truthy(BodyItemId(req)) && Truthy(QuantityOf(req)) && BodyItemId(req).s !in db.menu.records ==>
      o == Threw(ItemMissing) && db.carts.records == old(db.carts.records)
    ensures Truthy(BodyItemId(req)) && Truthy(QuantityOf(req)) && BodyItemId(req).s in db.menu.records ==>
      if req.token.None? then
        o == Threw(RuntimeError("TypeError")) && db.carts.records == old(db.carts.records)
      else
        var cart :=
          if Owner(req) in old(db.carts.records)
          then Cart(AppendSummed(old(db.carts.records)[Owner(req)].items, BodyItemId(req).s, QuantityOf(req).n))
          else Cart([CartItem(BodyItemId(req).s, QuantityOf(req).n)]);
        o == Returned(Json(201, CartBody(cart))) && db.carts.records == old(db.carts.records)[Owner(req) := cart]
  {
    var itemId := BodyItemId(req);
    var quantity := QuantityOf(req);
    if !Truthy(itemId) || !Truthy(quantity) {
      return Threw(RuntimeError("ReferenceError"));
    }
    var item := db.menu.Read(itemId.s, Some(ItemMissing));
    if item.Err? {
      return Threw(item.error);
    }
    if req.token.None? {
      // `request.token.email` throws in the try block and again in the catch block.
      return Threw(RuntimeError("TypeError"));
    }
    o := AddToCart(db, req.token.value.Email(), itemId.s, quantity.n);
  }

  /** The saving part of `post`: the owner's cart with the entry appended, or a new cart holding only it. */
  method AddToCart(db: Db, email: string, id: string, quantity: real) returns (o: Outcome)
    modifies db.carts
    ensures var cart :=
        if email in old(db.carts.records)
        then Cart(AppendSummed(old(db.carts.records)[email].items, id, quantity))
        else Cart([CartItem(id, quantity)]);
      o == Returned(Json(201, CartBody(cart))) && db.carts.records == old(db.carts.records)[email := cart]
  {
    var cart := db.carts.Read(email, None);
    if cart.Ok? {
      var total := SumMatching(cart.value.items, id, quantity);
      var updated := Cart(cart.value.items + [CartItem(id, total)]);
      var saved := db.carts.Update(email, updated, Some(SaveFailed));
      if saved.Ok? {
        return Returned(Json(201, CartBody(updated)));
      }
    }
    var newCart := Cart([CartItem(id, quantity)]);
    var created := db.carts.Create(email, newCart, Some(CreateFailed));
    match created
    case Ok(_) => o := Returned(Json(201, CartBody(newCart)));
    case Err(e) => o := Threw(e);
  }

  /**
   * `put /:item_id`: sets the quantity of every entry for the item. The slug
   * is checked before the quantity, and the cart must exist and hold the item.
   */
  method Put(db: Db, req: Request) returns (o: Outcome)
    modifies db.carts
    ensures !Truthy(SlugItemId(req)) ==> o == Returned(MissingItemId) && db.carts.records == old(db.carts.records)
    ensures Truthy(SlugItemId(req)) && !Truthy(QuantityOf(req)) ==>
      o == Returned(MissingFields(["quantity"])) && db.carts.records == old(db.carts.records)
    ensures Truthy(SlugItemId(req)) && Truthy(QuantityOf(req)) ==>
      if req.token.None? then
        o == Threw(RuntimeError("TypeError")) && db.carts.records == old(db.carts.records)
      else if Owner(req) !in old(db.carts.records) then
        o == Threw(NoCartToUpdate) && db.carts.records == old(db.carts.records)
      else
        var items := old(db.carts.records)[Owner(req)].items;
        if !HasItem(items, SlugItemId(req).s) then
          o == Returned(InvalidItemId) && db.carts.records == old(db.carts.records)
        else
          var cart := Cart(SetAll(items, SlugItemId(req).s, QuantityOf(req).n));
          o == Returned(Json(200, CartBody(cart))) && db.carts.records == old(db.carts.records)[Owner(req) := cart]
  {
    var itemId := SlugItemId(req);
    var quantity := QuantityOf(req);
    if !Truthy(itemId) || !Truthy(quantity) {
      if !Truthy(itemId) {
        return Returned(MissingItemId);
      }
      var invalid := InvalidFields([("item_id", itemId), ("quantity", quantity)]);
      FalsyKeysTwo("item_id", itemId, "quantity", quantity);
      return Returned(MissingFields(invalid));
    }
    if req.token.None? {
      return Threw(RuntimeError("TypeError"));
    }
    o := SetInCart(db, req.token.value.Email(), itemId.s, quantity.n);
  }

  /** The cart part of `put`: the owner's cart must exist and hold the item; every entry for it gets the quantity. */
  method SetInCart(db: Db, email: string, id: string, quantity: real) returns (o: Outcome)
    modifies db.carts
    ensures email !in old(db.carts.records) ==> o == Threw(NoCartToUpdate) && db.carts.records == old(db.carts.records)
    ensures email in old(db.carts.records) ==>
      var items := old(db.carts.records)[email].items;
      if !HasItem(items, id) then
        o == Returned(InvalidItemId) && db.carts.records == old(db.carts.records)
      else
        var cart := Cart(SetAll(items, id, quantity));
        o == Returned(Json(200, CartBody(cart))) && db.carts.records == old(db.carts.records)[email := cart]
  {
    var cart := db.carts.Read(email, Some(NoCartToUpdate));
    if cart.Err? {
      return Threw(cart.error);
    }
    var items := cart.value.items;
    var a := new CartItem[|items|](k requires 0 <= k < |items| => items[k]);
    assert a[..] == items;
    var updated := SetQuantity(a, id, quantity);
    if !updated {
      return Returned(InvalidItemId);
    }
    var saved := db.carts.Update(email, Cart(a[..]), Some(UpdateFailed));
    match saved
    case Ok(_) => o := Returned(Json(200, CartBody(Cart(a[..]))));
    case Err(e) => o := Threw(e);
  }

  /**
   * `delete /:item_id`: removes the item's entries with the splice walk; the
   * answer is 204 with an empty body and no content type.
   */
  method Delete(db: Db, req: Request) returns (o: Outcome)
    modifies db.carts
    ensures !Truthy(SlugItemId(req)) ==> o == Returned(MissingItemId) && db.carts.records == old(db.carts.records)
    ensures Truthy(SlugItemId(req)) ==>
      if req.token.None? then
        o == Threw(RuntimeError("TypeError")) && db.carts.records == old(db.carts.records)
      else if Owner(req) !in old(db.carts.records) then
        o == Threw(NoCartToRemoveFrom) && db.carts.records == old(db.carts.records)
      else
        var items := old(db.carts.records)[Owner(req)].items;
        if !HasItem(items, SlugItemId(req).s) then
          o == Returned(InvalidItemId) && db.carts.records == old(db.carts.records)
        else
          o == Returned(Bare(204, Empty))
          && db.carts.records == old(db.carts.records)[Owner(req) := Cart(SpliceWalk(items, SlugItemId(req).s))]
  {
    var itemId := SlugItemId(req);
    if !Truthy(itemId) {
      return Returned(MissingItemId);
    }
    if req.token.None? {
      return Threw(RuntimeError("TypeError"));
    }
    var email := req.token.value.Email();
    var cart := db.carts.Read(email, Some(NoCartToRemoveFrom));
    if cart.Err? {
      return Threw(cart.error);
    }
    var rest, deleted := SpliceMatches(cart.value.items, itemId.s);
    if !deleted {
      return Returned(InvalidItemId);
    }
    var saved := db.carts.Update(email, Cart(rest), Some(DeleteFailed));
    match saved
    case Ok(_) => o := Returned(Bare(204, Empty));
    case Err(e) => o := Threw(e);
  }
}
