/** The cart store: rows (user, product, quantity) kept by CartService. Adding a
    product that is already in the user's cart raises that row's quantity, so a
    user never holds two rows for one product; checkout relies on this. */
module Cart {
  import opened Common

  datatype CartItem = CartItem(id: Id, userId: UserId, productId: Id, quantity: int)

  /** The (user, product) pair a row is unique on. */
  function PairOf(item: CartItem): (UserId, Id)
  {
    (item.userId, item.productId)
  }

  predicate DifferentPair(a: CartItem, b: CartItem)
  {
    PairOf(a) != PairOf(b)
  }

  predicate DifferentId(a: CartItem, b: CartItem)
  {
    a.id != b.id
  }

  /** The rows of one user. */
  function RowsOf(rows: seq<CartItem>, userId: UserId): seq<CartItem>
  {
    Filter(rows, (x: CartItem) => x.userId == userId)
  }

  /** The table after `delete(id)`. */
  function WithoutRow(rows: seq<CartItem>, id: Id): seq<CartItem>
  {
    Filter(rows, (x: CartItem) => x.id != id)
  }

  /** The table after `delete({ userId })`. */
  function WithoutUser(rows: seq<CartItem>, userId: UserId): seq<CartItem>
  {
    Filter(rows, (x: CartItem) => x.userId != userId)
  }

  /** The row `findOne({ where: { userId, productId } })` returns. */
  function FindPair(rows: seq<CartItem>, userId: UserId, productId: Id): Option<nat>
  {
    FirstIndex(rows, (x: CartItem) => PairOf(x) == (userId, productId))
  }

  /** The table after `addItem`: the existing row of the pair gets `quantity`
      more, otherwise a row with a fresh id is appended. */
  function Added(rows: seq<CartItem>, freshId: Id, userId: UserId, productId: Id, quantity: int): seq<CartItem>
  {
    match FindPair(rows, userId, productId)
    case Some(i) => rows[i := rows[i].(quantity := rows[i].quantity + quantity)]
    case None => rows + [CartItem(freshId, userId, productId, quantity)]
  }

  /** How many units of `productId` the user has in the cart, over all its rows. */
  function QuantityOf(rows: seq<CartItem>, userId: UserId, productId: Id): int
  {
    if rows == [] then 0
    else (if PairOf(rows[0]) == (userId, productId) then rows[0].quantity else 0)
         + QuantityOf(rows[1..], userId, productId)
  }

  lemma {:induction false} QuantityOfAppend(rows: seq<CartItem>, x: CartItem, userId: UserId, productId: Id)
    ensures QuantityOf(rows + [x], userId, productId)
         == QuantityOf(rows, userId, productId) + (if PairOf(x) == (userId, productId) then x.quantity else 0)
  {
    if rows == [] {
      assert rows + [x] == [x];
    } else {
      assert (rows + [x])[0] == rows[0] && (rows + [x])[1..] == rows[1..] + [x];
      QuantityOfAppend(rows[1..], x, userId, productId);
    }
  }

  lemma {:induction false} QuantityOfBump(rows: seq<CartItem>, i: nat, more: int, userId: UserId, productId: Id)
    requires i < |rows|
    ensures QuantityOf(rows[i := rows[i].(quantity := rows[i].quantity + more)], userId, productId)
         == QuantityOf(rows, userId, productId) + (if PairOf(rows[i]) == (userId, productId) then more else 0)
  {
    var bumped := rows[i := rows[i].(quantity := rows[i].quantity + more)];
    if i > 0 {
      assert bumped[0] == rows[0];
      assert bumped[1..] == rows[1..][i - 1 := rows[1..][i - 1].(quantity := rows[1..][i - 1].quantity + more)];
      QuantityOfBump(rows[1..], i - 1, more, userId, productId);
    } else {
      assert bumped[1..] == rows[1..];
    }
  }

  /** addItem adds exactly `quantity` units to the pair it names and leaves the
      quantity of every other pair alone: a repeat add accumulates. */
  lemma {:induction false} AddItemAccumulates(rows: seq<CartItem>, freshId: Id, userId: UserId, productId: Id, quantity: int, u: UserId, p: Id)
    ensures QuantityOf(Added(rows, freshId, userId, productId, quantity), u, p)
         == QuantityOf(rows, u, p) + (if (u, p) == (userId, productId) then quantity else 0)
  {
    match FindPair(rows, userId, productId)
    case Some(i) => QuantityOfBump(rows, i, quantity, u, p);
    case None => QuantityOfAppend(rows, CartItem(freshId, userId, productId, quantity), u, p);
  }

  /** The invariant of the cart table: row ids are distinct and below the next
      fresh id, and no (user, product) pair has two rows. */
  ghost predicate WellFormed(rows: seq<CartItem>, nextId: Id)
  {
    && Pairwise(rows, DifferentPair)
    && Pairwise(rows, DifferentId)
    && forall x :: x in rows ==> x.id < nextId
  }

  /** addItem keeps one row per (user, product) pair: it merges into the pair's
      row when there is one and inserts only when there is none. */
  lemma {:induction false} AddItemKeepsOneRowPerPair(rows: seq<CartItem>, nextId: Id, userId: UserId, productId: Id, quantity: int)
    requires WellFormed(rows, nextId)
    ensures WellFormed(Added(rows, nextId, userId, productId, quantity),
                       if FindPair(rows, userId, productId).Some? then nextId else nextId + 1)
  {
    var r := Added(rows, nextId, userId, productId, quantity);
    match FindPair(rows, userId, productId)
    case Some(i) =>
      forall a, b | 0 <= a < b < |r| ensures DifferentPair(r[a], r[b]) && DifferentId(r[a], r[b]) {
        assert PairOf(r[a]) == PairOf(rows[a]) && PairOf(r[b]) == PairOf(rows[b]);
        assert r[a].id == rows[a].id && r[b].id == rows[b].id;
      }
      forall x | x in r ensures x.id < nextId {
        var k :| 0 <= k < |r| && r[k] == x;
        assert x.id == rows[k].id;
      }
    case None =>
      var inserted := CartItem(nextId, userId, productId, quantity);
      forall a, b | 0 <= a < b < |r| ensures DifferentPair(r[a], r[b]) && DifferentId(r[a], r[b]) {
        if b == |rows| {
          assert r[a] in rows && r[b] == inserted;
        }
      }
  }

  /** Deleting rows keeps the table well formed. */
  lemma {:induction false} FilterKeepsWellFormed(rows: seq<CartItem>, nextId: Id, keep: CartItem -> bool)
    requires WellFormed(rows, nextId)
    ensures WellFormed(Filter(rows, keep), nextId)
  {
    FilterKeepsPairwise(rows, keep, DifferentPair);
    FilterKeepsPairwise(rows, keep, DifferentId);
  }

  /** clearCart empties the cart of that user and no other. */
  lemma {:induction false} ClearCartOnlyThatUser(rows: seq<CartItem>, userId: UserId, other: UserId)
    ensures RowsOf(WithoutUser(rows, userId), userId) == []
    ensures other != userId ==> RowsOf(WithoutUser(rows, userId), other) == RowsOf(rows, other)
  {
    if rows != [] {
      ClearCartOnlyThatUser(rows[1..], userId, other);
      var head := if rows[0].userId != userId then [rows[0]] else [];
      assert WithoutUser(rows, userId) == head + WithoutUser(rows[1..], userId);
      FilterAppend(head, WithoutUser(rows[1..], userId), (x: CartItem) => x.userId == userId);
      FilterAppend(head, WithoutUser(rows[1..], userId), (x: CartItem) => x.userId == other);
    }
  }

  /** In one user's rows, no product appears twice. */
  lemma {:induction false} OneRowPerProduct(rows: seq<CartItem>, userId: UserId)
    requires Pairwise(rows, DifferentPair)
    ensures forall i, j :: 0 <= i < j < |RowsOf(rows, userId)| ==>
              RowsOf(rows, userId)[i].productId != RowsOf(rows, userId)[j].productId
  {
    var mine := RowsOf(rows, userId);
    FilterKeepsPairwise(rows, (x: CartItem) => x.userId == userId, DifferentPair);
    forall i, j | 0 <= i < j < |mine| ensures mine[i].productId != mine[j].productId {
      assert mine[i] in mine && mine[j] in mine;
      assert DifferentPair(mine[i], mine[j]);
    }
  }

  class CartService {
    var rows: seq<CartItem>
    var nextId: Id

    ghost predicate Valid()
      reads this
    {
      WellFormed(rows, nextId)
    }

    constructor ()
      ensures Valid() && rows == []
    {
      rows, nextId := [], 0;
    }

    /** The user's cart rows, in table order. */
    function FindByUser(userId: UserId): (r: seq<CartItem>)
      reads this
      ensures forall x :: x in r <==> x in rows && x.userId == userId
    {
      RowsOf(rows, userId)
    }

    /** Add `quantity` units of a product to the user's cart: merge into the
        existing row of the pair or insert a new one. */
    method AddItem(userId: UserId, productId: Id, quantity: int) returns (saved: CartItem)
      requires Valid()
      modifies this
      ensures Valid()
      ensures rows == Added(old(rows), old(nextId), userId, productId, quantity)
      ensures nextId == if FindPair(old(rows), userId, productId).Some? then old(nextId) else old(nextId) + 1
      ensures saved in rows && PairOf(saved) == (userId, productId)
      ensures FindPair(old(rows), userId, productId).Some? ==>
                |rows| == old(|rows|) && saved.quantity == QuantityOf(old(rows), userId, productId) + quantity
      ensures FindPair(old(rows), userId, productId).None? ==>
                rows == old(rows) + [saved] && saved.quantity == quantity
      ensures forall u: UserId, p: Id :: QuantityOf(rows, u, p)
                == old(QuantityOf(rows, u, p)) + (if (u, p) == (userId, productId) then quantity else 0)
    {
      ghost var before := rows;
      AddItemKeepsOneRowPerPair(rows, nextId, userId, productId, quantity);
      forall u: UserId, p: Id ensures QuantityOf(Added(before, nextId, userId, productId, quantity), u, p)
                       == QuantityOf(before, u, p) + (if (u, p) == (userId, productId) then quantity else 0) {
        AddItemAccumulates(before, nextId, userId, productId, quantity, u, p);
      }
      match FindPair(rows, userId, productId) {
        case Some(i) =>
          OnlyRowOfPair(rows, i, userId, productId);
          saved := rows[i].(quantity := rows[i].quantity + quantity);
          rows := rows[i := saved];
          assert rows[i] == saved;
        case None =>
          saved := CartItem(nextId, userId, productId, quantity);
          rows := rows + [saved];
          nextId := nextId + 1;
      }
    }

    /** Delete the row with that id, whoever owns it. */
    method RemoveItem(id: Id)
      requires Valid()
      modifies this
      ensures Valid() && nextId == old(nextId)
      ensures rows == WithoutRow(old(rows), id)
      ensures forall x :: x in rows <==> x in old(rows) && x.id != id
    {
      FilterKeepsWellFormed(rows, nextId, (x: CartItem) => x.id != id);
      rows := WithoutRow(rows, id);
    }

    /** Delete every row of the user. */
    method ClearCart(userId: UserId)
      requires Valid()
      modifies this
      ensures Valid() && nextId == old(nextId)
      ensures rows == WithoutUser(old(rows), userId)
      ensures FindByUser(userId) == []
      ensures forall u :: u != userId ==> FindByUser(u) == old(FindByUser(u))
    {
      FilterKeepsWellFormed(rows, nextId, (x: CartItem) => x.userId != userId);
      forall u ensures RowsOf(WithoutUser(rows, userId), userId) == []
                    && (u != userId ==> RowsOf(WithoutUser(rows, userId), u) == RowsOf(rows, u)) {
        ClearCartOnlyThatUser(rows, userId, u);
      }
      rows := WithoutUser(rows, userId);
    }
  }

  /** When the pair's row exists, it holds all the pair's units. */
  lemma {:induction false} OnlyRowOfPair(rows: seq<CartItem>, i: nat, userId: UserId, productId: Id)
    requires Pairwise(rows, DifferentPair)
    requires i < |rows| && PairOf(rows[i]) == (userId, productId)
    ensures QuantityOf(rows, userId, productId) == rows[i].quantity
  {
    if i == 0 {
      NoRowOfPair(rows[1..], userId, productId);
    } else {
      assert DifferentPair(rows[0], rows[i]);
      assert Pairwise(rows[1..], DifferentPair) by {
        forall a, b | 0 <= a < b < |rows| - 1 ensures DifferentPair(rows[1..][a], rows[1..][b]) {
          assert DifferentPair(rows[a + 1], rows[b + 1]);
        }
      }
      OnlyRowOfPair(rows[1..], i - 1, userId, productId);
    }
  }

  lemma {:induction false} NoRowOfPair(rows: seq<CartItem>, userId: UserId, productId: Id)
    requires forall x :: x in rows ==> PairOf(x) != (userId, productId)
    ensures QuantityOf(rows, userId, productId) == 0
  {
    if rows != [] {
      NoRowOfPair(rows[1..], userId, productId);
    }
  }
}
