/** The cart provider of src/hooks/use-cart.tsx: an ordered list of line items,
    at most one per listing, persisted wholesale in the browser's local storage. */
module Cart {
  import opened Common
  import opened Seqs

  /** One cart line; price, title and images are a snapshot taken when the
      listing was first added. */
  datatype CartItem = CartItem(id: string, adId: string, quantity: int, price: int, title: string, images: seq<string>)

  /** The columns `addToCart` reads from `ads`: id, title, price, images. */
  datatype AdSnapshot = AdSnapshot(id: string, title: string, price: Option<int>, images: Option<seq<string>>)

  /** The single local-storage key the cart is read from and written to. */
  const CartKey := "cart"

  /** `items.reduce((sum, item) => sum + item.quantity, 0)`. */
  function TotalItems(items: seq<CartItem>): int {
    if items == [] then 0 else items[0].quantity + TotalItems(items[1..])
  }

  /** `items.reduce((sum, item) => sum + item.price * item.quantity, 0)`. */
  function TotalPrice(items: seq<CartItem>): int {
    if items == [] then 0 else items[0].price * items[0].quantity + TotalPrice(items[1..])
  }

  function AdIds(items: seq<CartItem>): (ids: seq<string>)
    ensures |ids| == |items|
    ensures forall i :: 0 <= i < |items| ==> ids[i] == items[i].adId
  {
    if items == [] then [] else [items[0].adId] + AdIds(items[1..])
  }

  predicate HasLine(items: seq<CartItem>, adId: string) {
    exists i :: 0 <= i < |items| && items[i].adId == adId
  }

  /** The cart invariant: one line per listing, every quantity at least 1. */
  predicate WellFormed(items: seq<CartItem>) {
    && (forall i, j :: 0 <= i < j < |items| ==> items[i].adId != items[j].adId)
    && (forall i :: 0 <= i < |items| ==> items[i].quantity >= 1)
  }

  /** `prev.map(item => item.ad_id === adId ? { ...item, quantity: item.quantity + 1 } : item)`. */
  function Incremented(items: seq<CartItem>, adId: string): seq<CartItem> {
    seq(|items|, i requires 0 <= i < |items| =>
      if items[i].adId == adId then items[i].(quantity := items[i].quantity + 1) else items[i])
  }

  /** The line `addToCart` appends for a listing not yet in the cart. */
  function NewLine(adId: string, ad: AdSnapshot, freshId: string): CartItem {
    CartItem(freshId, adId, 1, ad.price.GetOr(0), ad.title, ad.images.GetOr([]))
  }

  /** The items after a successful `addToCart(adId)` that read `ad`. */
  function Added(items: seq<CartItem>, adId: string, ad: AdSnapshot, freshId: string): seq<CartItem> {
    if HasLine(items, adId) then Incremented(items, adId) else items + [NewLine(adId, ad, freshId)]
  }

  /** `prev.filter(item => item.ad_id !== adId)`. */
  function Without(items: seq<CartItem>, adId: string): seq<CartItem> {
    Filter(items, (l: CartItem) => l.adId != adId)
  }

  /** The items after `updateQuantity(adId, quantity)`. */
  function WithQuantity(items: seq<CartItem>, adId: string, quantity: int): seq<CartItem> {
    if quantity <= 0 then
      Without(items, adId)
    else
      seq(|items|, i requires 0 <= i < |items| =>
        if items[i].adId == adId then items[i].(quantity := quantity) else items[i])
  }

  /** Both totals add up over concatenated carts. */
  lemma {:induction false} TotalsAppend(a: seq<CartItem>, b: seq<CartItem>)
    ensures TotalItems(a + b) == TotalItems(a) + TotalItems(b)
    ensures TotalPrice(a + b) == TotalPrice(a) + TotalPrice(b)
  {
    if a == [] {
      assert a + b == b;
    } else {
      assert (a + b)[1..] == a[1..] + b;
      TotalsAppend(a[1..], b);
    }
  }

  /** In a well-formed cart every line counts at least once, so the item
      count is at least the number of lines, and zero only for an empty cart. */
  lemma {:induction false} TotalItemsCountsLines(items: seq<CartItem>)
    requires forall i :: 0 <= i < |items| ==> items[i].quantity >= 1
    ensures TotalItems(items) >= |items|
    ensures TotalItems(items) == 0 <==> items == []
  {
    if items != [] {
      assert forall i :: 0 <= i < |items[1..]| ==> items[1..][i] == items[i + 1];
      TotalItemsCountsLines(items[1..]);
    }
  }

  /** Incrementing a listing that has no line changes nothing. */
  lemma IncrementedAbsent(items: seq<CartItem>, adId: string)
    requires !HasLine(items, adId)
    ensures Incremented(items, adId) == items
  {
  }

  /** Adding a listing that already has a line (at index k) raises exactly that
      line's quantity by one, keeps every other line and the order, adds one to
      the item count and one unit price to the total. */
  lemma {:induction false} AddExisting(items: seq<CartItem>, adId: string, ad: AdSnapshot, freshId: string, k: nat)
    requires WellFormed(items)
    requires k < |items| && items[k].adId == adId
    ensures var r := Added(items, adId, ad, freshId);
      && |r| == |items|
      && r[k] == items[k].(quantity := items[k].quantity + 1)
      && (forall i :: 0 <= i < |items| && i != k ==> r[i] == items[i])
      && TotalItems(r) == TotalItems(items) + 1
      && TotalPrice(r) == TotalPrice(items) + items[k].price
      && WellFormed(r)
  {
    var r := Incremented(items, adId);
    assert HasLine(items, adId);
    assert r[1..] == Incremented(items[1..], adId);
    if k == 0 {
      IncrementedAbsent(items[1..], adId);
    } else {
      AddExisting(items[1..], adId, ad, freshId, k - 1);
    }
  }

  /** Adding a listing that has no line appends exactly one line with quantity 1,
      the listing's price (0 when it has none) and its images ([] when none). */
  lemma AddNew(items: seq<CartItem>, adId: string, ad: AdSnapshot, freshId: string)
    requires !HasLine(items, adId)
    ensures var r := Added(items, adId, ad, freshId);
      && r == items + [CartItem(freshId, adId, 1, if ad.price.Some? then ad.price.value else 0, ad.title, if ad.images.Some? then ad.images.value else [])]
      && TotalItems(r) == TotalItems(items) + 1
      && TotalPrice(r) == TotalPrice(items) + (if ad.price.Some? then ad.price.value else 0)
      && (WellFormed(items) ==> WellFormed(r))
  {
    var line := NewLine(adId, ad, freshId);
    TotalsAppend(items, [line]);
  }

  /** Removing deletes every line of the listing, keeps the others in their
      order, and is a no-op when the listing has no line. */
  lemma {:induction false} RemoveSpec(items: seq<CartItem>, adId: string)
    ensures !HasLine(Without(items, adId), adId)
    ensures forall l :: l in Without(items, adId) <==> l in items && l.adId != adId
    ensures IsSubsequence(Without(items, adId), items)
    ensures !HasLine(items, adId) ==> Without(items, adId) == items
    ensures WellFormed(items) ==> WellFormed(Without(items, adId))
  {
    var r := Without(items, adId);
    assert forall i :: 0 <= i < |r| ==> r[i] in r;
    FilterIsSubsequence(items, (l: CartItem) => l.adId != adId);
    if !HasLine(items, adId) {
      FilterKeepsAll(items, (l: CartItem) => l.adId != adId);
    }
    if WellFormed(items) {
      SubsequenceKeepsDistinct(r, items);
    }
  }

  /** A subsequence of a well-formed cart is well formed. */
  lemma {:induction false} SubsequenceKeepsDistinct(a: seq<CartItem>, b: seq<CartItem>)
    requires IsSubsequence(a, b) && WellFormed(b)
    ensures WellFormed(a)
    decreases |b|
  {
    if a != [] && b != [] {
      assert WellFormed(b[1..]) by {
        forall i, j | 0 <= i < j < |b[1..]| ensures b[1..][i].adId != b[1..][j].adId {
          assert b[1..][i] == b[i + 1] && b[1..][j] == b[j + 1];
        }
      }
      if a[0] == b[0] {
        SubsequenceKeepsDistinct(a[1..], b[1..]);
        SubsequenceIn(a[1..], b[1..]);
        forall j | 0 < j < |a| ensures a[0].adId != a[j].adId {
          assert a[j] == a[1..][j - 1];
          assert a[j] in b[1..];
          var m :| 0 <= m < |b[1..]| && b[1..][m] == a[j];
          assert b[m + 1] == a[j];
        }
        forall i | 0 <= i < |a| ensures a[i].quantity >= 1 {
          if i > 0 {
            assert a[i] == a[1..][i - 1];
          }
        }
      } else {
        SubsequenceKeepsDistinct(a, b[1..]);
      }
    }
  }

  /** Every element of a subsequence is an element of the whole. */
  lemma {:induction false} SubsequenceIn(a: seq<CartItem>, b: seq<CartItem>)
    requires IsSubsequence(a, b)
    ensures forall x :: x in a ==> x in b
    decreases |b|
  {
    if a != [] && b != [] {
      if a[0] == b[0] {
        SubsequenceIn(a[1..], b[1..]);
        assert forall x :: x in a ==> x == a[0] || x in a[1..];
      } else {
        SubsequenceIn(a, b[1..]);
      }
    }
  }

  /** A positive quantity is written only into the listing's own line: the
      listings, their order and every other line stay as they were, and no line
      is created. A quantity of 0 or less removes the listing. */
  lemma SetQuantitySpec(items: seq<CartItem>, adId: string, quantity: int)
    ensures quantity <= 0 ==> WithQuantity(items, adId, quantity) == Without(items, adId)
    ensures quantity > 0 ==> var r := WithQuantity(items, adId, quantity);
      && AdIds(r) == AdIds(items)
      && (forall i :: 0 <= i < |r| ==> r[i].quantity == (if items[i].adId == adId then quantity else items[i].quantity))
      && (forall i :: 0 <= i < |r| && items[i].adId != adId ==> r[i] == items[i])
      && (HasLine(r, adId) <==> HasLine(items, adId))
      && (WellFormed(items) ==> WellFormed(r))
  {
    if quantity > 0 {
      var r := WithQuantity(items, adId, quantity);
      assert forall i :: 0 <= i < |r| ==> r[i].adId == items[i].adId;
    }
  }

  /** Two successive additions of the same listing to an empty cart give one
      line of quantity 2 whose total is twice the unit price. */
  lemma AddTwiceFromEmpty(adId: string, ad: AdSnapshot, id1: string, id2: string)
    ensures var r := Added(Added([], adId, ad, id1), adId, ad, id2);
      && r == [NewLine(adId, ad, id1).(quantity := 2)]
      && TotalItems(r) == 2
      && TotalPrice(r) == 2 * ad.price.GetOr(0)
  {
    var once := Added([], adId, ad, id1);
    assert once == [NewLine(adId, ad, id1)];
    assert HasLine(once, adId) by { assert once[0].adId == adId; }
  }

  /** The cart provider's state. `saved` is the browser's local storage, with
      JSON serialisation taken as the identity. */
  class CartStore {
    var items: seq<CartItem>
    var isLoading: bool
    var saved: map<string, seq<CartItem>>

    /** A fresh provider starts empty, before the stored cart is loaded. */
    constructor (storage: map<string, seq<CartItem>>)
      ensures items == [] && !isLoading && saved == storage
    {
      items := [];
      isLoading := false;
      saved := storage;
    }

    /** The stored cart is the one in memory. */
    predicate Synced()
      reads this
    {
      CartKey in saved && saved[CartKey] == items
    }

    /** The load effect run when the signed-in user changes. Both branches read
        the same key, so the user plays no part in what is loaded. */
    method Load(user: Option<string>)
      modifies this`items
      ensures items == if CartKey in saved then saved[CartKey] else old(items)
      ensures old(Synced()) ==> items == old(items) && Synced()
    {
      if user.Some? {
        if CartKey in saved {
          items := saved[CartKey];
        }
      } else {
        if CartKey in saved {
          items := saved[CartKey];
        }
      }
    }

    /** The save effect that follows every change of `items`: the whole list is
        written under the one key. */
    method Save()
      modifies this`saved
      ensures saved == old(saved)[CartKey := items]
      ensures Synced()
    {
      saved := saved[CartKey := items];
    }

    /** `addToCart(adId)`; `fetched` is the listing read (None when the read
        failed) and `freshId` the identifier a new line would receive. */
    method AddToCart(adId: string, fetched: Option<AdSnapshot>, freshId: string)
      modifies this
      ensures fetched.None? ==> items == old(items) && saved == old(saved)
      ensures fetched.Some? ==> items == Added(old(items), adId, fetched.value, freshId) && saved == old(saved)[CartKey := items]
      ensures fetched.Some? ==> Synced()
      ensures !isLoading
      ensures WellFormed(old(items)) ==> WellFormed(items)
    {
      isLoading := true;
      if fetched.Some? {
        var ad := fetched.value;
        if HasLine(items, adId) {
          ghost var k :| 0 <= k < |items| && items[k].adId == adId;
          if WellFormed(items) {
            AddExisting(items, adId, ad, freshId, k);
          }
          items := Incremented(items, adId);
        } else {
          AddNew(items, adId, ad, freshId);
          items := items + [NewLine(adId, ad, freshId)];
        }
        Save();
      }
      isLoading := false;
    }

    /** `removeFromCart(adId)`. */
    method RemoveFromCart(adId: string)
      modifies this`items, this`saved
      ensures items == Without(old(items), adId)
      ensures saved == old(saved)[CartKey := items]
      ensures Synced()
      ensures WellFormed(old(items)) ==> WellFormed(items)
    {
      RemoveSpec(items, adId);
      items := Without(items, adId);
      Save();
    }

    /** `updateQuantity(adId, quantity)`. */
    method UpdateQuantity(adId: string, quantity: int)
      modifies this`items, this`saved
      ensures items == WithQuantity(old(items), adId, quantity)
      ensures saved == old(saved)[CartKey := items]
      ensures Synced()
      ensures WellFormed(old(items)) ==> WellFormed(items)
    {
      SetQuantitySpec(items, adId, quantity);
      if quantity <= 0 {
        RemoveFromCart(adId);
        return;
      }
      items := WithQuantity(items, adId, quantity);
      Save();
    }

    /** `clearCart()`. */
    method ClearCart()
      modifies this`items, this`saved
      ensures items == [] && saved == old(saved)[CartKey := []]
      ensures Synced()
    {
      items := [];
      Save();
    }
  }
}
