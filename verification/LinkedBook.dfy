/**
  The stored form of a book side: a doubly linked list threaded through one order map. Linking
  and unlinking are the storage writes of the precompile; the lemmas say which sequence the
  list stands for afterwards.
 */
module LinkedBook {
  import opened Prelude
  import opened OrderBook

  datatype Order = Order(orderId: nat, maker: Address, bookKey: BookKey, isBid: bool, price: u128, quantity: u128,
                         next: nat, prev: nat)

  datatype BookMeta = BookMeta(base: Address, quote: Address, bestBid: nat, bestAsk: nat)

  type Orders = map<nat, Order>
  type Metas = map<BookKey, BookMeta>

  /** An absent storage slot reads as zero. */
  const NO_ORDER: Order := Order(0, ZERO_ADDRESS, BookKey(ZERO_ADDRESS, ZERO_ADDRESS), false, 0, 0, 0, 0)
  const NO_BOOK: BookMeta := BookMeta(ZERO_ADDRESS, ZERO_ADDRESS, 0, 0)

  function ReadOrder(orders: Orders, id: nat): Order {
    if id in orders then orders[id] else NO_ORDER
  }

  function ReadBook(metas: Metas, k: BookKey): BookMeta {
    if k in metas then metas[k] else NO_BOOK
  }

  function Head(meta: BookMeta, isBid: bool): nat {
    if isBid then meta.bestBid else meta.bestAsk
  }

  function WithHead(meta: BookMeta, isBid: bool, id: nat): BookMeta {
    if isBid then meta.(bestBid := id) else meta.(bestAsk := id)
  }

  // ---- storage writes --------------------------------------------------------------------

  /** The neighbours of an order point past it, and its slot is cleared. */
  function Unlink(orders: Orders, o: Order): Orders {
    var o1 := if o.prev == 0 then orders else orders[o.prev := ReadOrder(orders, o.prev).(next := o.next)];
    var o2 := if o.next == 0 then o1 else o1[o.next := ReadOrder(o1, o.next).(prev := o.prev)];
    o2 - {o.orderId}
  }

  /** An order is written, and the neighbours it names point to it. */
  function Link(orders: Orders, o: Order): Orders {
    var o1 := orders[o.orderId := o];
    var o2 := if o.prev == 0 then o1 else o1[o.prev := ReadOrder(o1, o.prev).(next := o.orderId)];
    if o.next == 0 then o2 else o2[o.next := ReadOrder(o2, o.next).(prev := o.orderId)]
  }

  // ---- what the list stands for ----------------------------------------------------------

  function IdAt(side: seq<Resting>, i: int): nat {
    if 0 <= i < |side| then side[i].id else 0
  }

  /** The stored node of the order at position `i`. */
  function NodeOf(k: BookKey, isBid: bool, side: seq<Resting>, i: nat): Order
    requires i < |side|
  {
    Order(side[i].id, side[i].maker, k, isBid, side[i].price, side[i].qty, IdAt(side, i + 1), IdAt(side, i - 1))
  }

  predicate On(o: Order, k: BookKey, isBid: bool) {
    o.bookKey == k && o.isBid == isBid
  }

  ghost predicate HasId(side: seq<Resting>, id: nat) {
    exists i :: 0 <= i < |side| && side[i].id == id
  }

  ghost predicate DistinctIds(side: seq<Resting>) {
    && (forall i :: 0 <= i < |side| ==> side[i].id != 0)
    && (forall i, j :: 0 <= i < j < |side| ==> side[i].id != side[j].id)
  }

  /** The list starting at `head` is exactly the sequence, and holds every stored order of its side. */
  ghost predicate SideRep(orders: Orders, head: nat, k: BookKey, isBid: bool, side: seq<Resting>) {
    && head == IdAt(side, 0)
    && DistinctIds(side)
    && (forall i :: 0 <= i < |side| ==> side[i].id in orders && orders[side[i].id] == NodeOf(k, isBid, side, i))
    && (forall id :: id in orders && On(orders[id], k, isBid) ==> HasId(side, id))
  }

  ghost predicate BookRep(orders: Orders, meta: BookMeta, k: BookKey, b: Book) {
    && k.base != ZERO_ADDRESS && meta.base == k.base && meta.quote == k.quote
    && SideRep(orders, meta.bestBid, k, true, b.bids)
    && SideRep(orders, meta.bestAsk, k, false, b.asks)
  }

  ghost predicate ListsRep(orders: Orders, metas: Metas, books: map<BookKey, Book>) {
    && 0 !in orders && metas.Keys == books.Keys
    && (forall k :: k in books ==> BookRep(orders, metas[k], k, books[k]))
    && (forall id :: id in orders ==> orders[id].bookKey in books)
  }

  // ---- frames ----------------------------------------------------------------------------

  /** Orders of other sides are stored as before. */
  ghost predicate OnlySide(orders: Orders, orders': Orders, k: BookKey, isBid: bool) {
    && (forall id :: id in orders && !On(orders[id], k, isBid) ==> id in orders' && orders'[id] == orders[id])
    && (forall id :: id in orders' && !On(orders'[id], k, isBid) ==> id in orders && orders'[id] == orders[id])
  }

  lemma OtherSideKept(orders: Orders, orders': Orders, k: BookKey, isBid: bool, head: nat, k': BookKey, isBid': bool,
                      side: seq<Resting>)
    requires OnlySide(orders, orders', k, isBid) && (k' != k || isBid' != isBid)
    requires SideRep(orders, head, k', isBid', side)
    ensures SideRep(orders', head, k', isBid', side)
  {
  }

  lemma BookUpdate(orders: Orders, orders': Orders, meta: BookMeta, b: Book, k: BookKey, isBid: bool, head: nat,
                   side: seq<Resting>)
    requires BookRep(orders, meta, k, b) && OnlySide(orders, orders', k, isBid)
             && SideRep(orders', head, k, isBid, side)
    ensures BookRep(orders', WithHead(meta, isBid, head), k, SetSide(b, isBid, side))
  {
    hide SideRep, OnlySide;
    if isBid {
      OtherSideKept(orders, orders', k, isBid, meta.bestAsk, k, false, b.asks);
    } else {
      OtherSideKept(orders, orders', k, isBid, meta.bestBid, k, true, b.bids);
    }
  }

  lemma OtherBookKept(orders: Orders, orders': Orders, k: BookKey, isBid: bool, meta: BookMeta, k': BookKey, b: Book)
    requires BookRep(orders, meta, k', b) && OnlySide(orders, orders', k, isBid) && k' != k
    ensures BookRep(orders', meta, k', b)
  {
    hide SideRep, OnlySide;
    OtherSideKept(orders, orders', k, isBid, meta.bestBid, k', true, b.bids);
    OtherSideKept(orders, orders', k, isBid, meta.bestAsk, k', false, b.asks);
  }

  /** A change confined to one side of one book keeps all the other lists. */
  lemma ListsUpdate(orders: Orders, orders': Orders, metas: Metas, books: map<BookKey, Book>, k: BookKey, isBid: bool,
                    head: nat, side: seq<Resting>)
    requires ListsRep(orders, metas, books) && k in books
    requires OnlySide(orders, orders', k, isBid) && SideRep(orders', head, k, isBid, side)
    ensures ListsRep(orders', metas[k := WithHead(metas[k], isBid, head)], books[k := SetSide(books[k], isBid, side)])
  {
    hide SideRep, OnlySide, BookRep, WithHead, SetSide;
    BookUpdate(orders, orders', metas[k], books[k], k, isBid, head, side);
    forall k' | k' in books && k' != k ensures BookRep(orders', metas[k'], k', books[k']) {
      OtherBookKept(orders, orders', k, isBid, metas[k'], k', books[k']);
    }
    KeysKept(orders, orders', k, isBid, head, side, books);
  }

  lemma KeysKept(orders: Orders, orders': Orders, k: BookKey, isBid: bool, head: nat, side: seq<Resting>,
                 books: map<BookKey, Book>)
    requires OnlySide(orders, orders', k, isBid) && k in books && SideRep(orders', head, k, isBid, side) && 0 !in orders
    requires forall id :: id in orders ==> orders[id].bookKey in books
    ensures 0 !in orders' && forall id :: id in orders' ==> orders'[id].bookKey in books
  {
  }

  // ---- the three changes of a side -------------------------------------------------------

  /** A stored order whose neighbour `o` was unlinked. */
  function Bypassed(x: Order, id: nat, o: Order): Order {
    var x1 := if id == o.prev then x.(next := o.next) else x;
    if id == o.next then x1.(prev := o.prev) else x1
  }

  lemma UnlinkAt(orders: Orders, o: Order, id: nat)
    requires id != 0 && (o.prev != 0 ==> o.prev in orders) && (o.next != 0 ==> o.next in orders)
    ensures id in Unlink(orders, o) <==> id in orders && id != o.orderId
    ensures id in Unlink(orders, o) ==> Unlink(orders, o)[id] == Bypassed(orders[id], id, o)
  {
  }

  lemma RemovedNode(k: BookKey, isBid: bool, side: seq<Resting>, n: nat, i: nat)
    requires DistinctIds(side) && n < |side| && i < |side| && i != n
    ensures var j := if i < n then i else i - 1;
            NodeOf(k, isBid, RemoveAt(side, n), j)
              == Bypassed(NodeOf(k, isBid, side, i), side[i].id, NodeOf(k, isBid, side, n))
  {
  }

  /** The node at a position and its neighbours are stored, on the same side. */
  lemma Neighbours(orders: Orders, head: nat, k: BookKey, isBid: bool, side: seq<Resting>, n: nat)
    requires SideRep(orders, head, k, isBid, side) && n < |side|
    ensures var o := NodeOf(k, isBid, side, n);
            && o.orderId in orders && orders[o.orderId] == o
            && (o.prev != 0 ==> o.prev in orders && On(orders[o.prev], k, isBid))
            && (o.next != 0 ==> o.next in orders && On(orders[o.next], k, isBid))
  {
    assert 0 < n ==> orders[side[n - 1].id] == NodeOf(k, isBid, side, n - 1);
    assert n + 1 < |side| ==> orders[side[n + 1].id] == NodeOf(k, isBid, side, n + 1);
  }

  lemma UnlinkFrame(orders: Orders, head: nat, k: BookKey, isBid: bool, side: seq<Resting>, n: nat)
    requires SideRep(orders, head, k, isBid, side) && n < |side| && 0 !in orders
    ensures OnlySide(orders, Unlink(orders, NodeOf(k, isBid, side, n)), k, isBid)
  {
    hide SideRep, Unlink;
    var o := NodeOf(k, isBid, side, n);
    Neighbours(orders, head, k, isBid, side, n);
    UnlinkZero(orders, o);
    forall id | id != 0 ensures id in Unlink(orders, o) <==> id in orders && id != o.orderId
                        ensures id in Unlink(orders, o) ==> Unlink(orders, o)[id] == Bypassed(orders[id], id, o) {
      UnlinkAt(orders, o, id);
    }
  }

  lemma UnlinkZero(orders: Orders, o: Order)
    requires 0 !in orders
    ensures 0 !in Unlink(orders, o)
  {
  }

  lemma RemoveDistinct(side: seq<Resting>, n: nat)
    requires DistinctIds(side) && n < |side|
    ensures DistinctIds(RemoveAt(side, n))
  {
    assert forall i :: 0 <= i < |side| - 1 ==> RemoveAt(side, n)[i] == side[if i < n then i else i + 1];
  }

  lemma UnlinkNodes(orders: Orders, head: nat, k: BookKey, isBid: bool, side: seq<Resting>, n: nat, i: nat)
    requires SideRep(orders, head, k, isBid, side) && n < |side| && i < |side| - 1
    ensures var orders', side' := Unlink(orders, NodeOf(k, isBid, side, n)), RemoveAt(side, n);
            side'[i].id in orders' && orders'[side'[i].id] == NodeOf(k, isBid, side', i)
  {
    hide Unlink, Bypassed, NodeOf;
    var j := if i < n then i else i + 1;
    Neighbours(orders, head, k, isBid, side, n);
    RemovedNode(k, isBid, side, n, j);
    assert side[j].id != side[n].id;
    NodeIsNamed(k, isBid, side, n);
    UnlinkAt(orders, NodeOf(k, isBid, side, n), side[j].id);
  }

  lemma NodeIsNamed(k: BookKey, isBid: bool, side: seq<Resting>, n: nat)
    requires n < |side|
    ensures NodeOf(k, isBid, side, n).orderId == side[n].id
  {
  }

  lemma RemoveKeepsOthers(side: seq<Resting>, n: nat, id: nat)
    requires n < |side| && HasId(side, id) && id != side[n].id
    ensures HasId(RemoveAt(side, n), id)
  {
    var j :| 0 <= j < |side| && side[j].id == id;
    assert RemoveAt(side, n)[if j < n then j else j - 1].id == id;
  }

  lemma UnlinkCovers(orders: Orders, head: nat, k: BookKey, isBid: bool, side: seq<Resting>, n: nat, id: nat)
    requires SideRep(orders, head, k, isBid, side) && n < |side| && 0 !in orders
    requires id in Unlink(orders, NodeOf(k, isBid, side, n))
             && On(Unlink(orders, NodeOf(k, isBid, side, n))[id], k, isBid)
    ensures HasId(RemoveAt(side, n), id)
  {
    hide Unlink, DistinctIds, HasId, RemoveAt;
    Neighbours(orders, head, k, isBid, side, n);
    UnlinkZero(orders, NodeOf(k, isBid, side, n));
    UnlinkAt(orders, NodeOf(k, isBid, side, n), id);
    RemoveKeepsOthers(side, n, id);
  }

  /** Unlinking the node at a position removes that position from the sequence. */
  lemma UnlinkRep(orders: Orders, head: nat, k: BookKey, isBid: bool, side: seq<Resting>, n: nat)
    requires SideRep(orders, head, k, isBid, side) && n < |side| && 0 !in orders
    ensures var o := NodeOf(k, isBid, side, n);
            SideRep(Unlink(orders, o), if o.prev == 0 then o.next else head, k, isBid, RemoveAt(side, n))
  {
    hide Unlink, HasId, DistinctIds;
    var orders', side' := Unlink(orders, NodeOf(k, isBid, side, n)), RemoveAt(side, n);
    RemoveDistinct(side, n);
    NonzeroAt(side, n);
    forall i | 0 <= i < |side'| ensures side'[i].id in orders' && orders'[side'[i].id] == NodeOf(k, isBid, side', i) {
      UnlinkNodes(orders, head, k, isBid, side, n, i);
    }
    forall id | id in orders' && On(orders'[id], k, isBid) ensures HasId(side', id) {
      UnlinkCovers(orders, head, k, isBid, side, n, id);
    }
  }

  lemma NonzeroAt(side: seq<Resting>, n: nat)
    requires DistinctIds(side)
    ensures 0 < n <= |side| ==> IdAt(side, n - 1) != 0
  {
  }

  // linking

  /** A stored order that became a neighbour of the new order `o`. */
  function Joined(x: Order, id: nat, o: Order): Order {
    var x1 := if id == o.prev then x.(next := o.orderId) else x;
    if id == o.next then x1.(prev := o.orderId) else x1
  }

  lemma LinkAt(orders: Orders, o: Order, id: nat)
    requires id != 0 && o.orderId !in orders && o.orderId != 0
    requires (o.prev != 0 ==> o.prev in orders) && (o.next != 0 ==> o.next in orders)
    ensures id in Link(orders, o) <==> id in orders || id == o.orderId
    ensures id in Link(orders, o) ==> Link(orders, o)[id] == if id == o.orderId then o else Joined(orders[id], id, o)
  {
  }

  lemma InsertedNode(k: BookKey, isBid: bool, side: seq<Resting>, n: nat, o: Resting, i: nat)
    requires DistinctIds(side) && n <= |side| && i < |side|
    ensures var j := if i < n then i else i + 1;
            NodeOf(k, isBid, InsertAt(side, n, o), j)
              == Joined(NodeOf(k, isBid, side, i), side[i].id, NodeOf(k, isBid, InsertAt(side, n, o), n))
  {
  }

  /** The new node names its neighbours, which are stored on the same side. */
  lemma NewNeighbours(orders: Orders, head: nat, k: BookKey, isBid: bool, side: seq<Resting>, n: nat, o: Resting)
    requires SideRep(orders, head, k, isBid, side) && n <= |side|
    ensures var x := NodeOf(k, isBid, InsertAt(side, n, o), n);
            && x.orderId == o.id && On(x, k, isBid)
            && (x.prev != 0 ==> x.prev in orders && On(orders[x.prev], k, isBid))
            && (x.next != 0 ==> x.next in orders && On(orders[x.next], k, isBid))
  {
    assert 0 < n ==> orders[side[n - 1].id] == NodeOf(k, isBid, side, n - 1);
    assert n < |side| ==> orders[side[n].id] == NodeOf(k, isBid, side, n);
  }

  lemma LinkFrame(orders: Orders, head: nat, k: BookKey, isBid: bool, side: seq<Resting>, n: nat, o: Resting)
    requires SideRep(orders, head, k, isBid, side) && n <= |side| && o.id != 0 && o.id !in orders && 0 !in orders
    ensures OnlySide(orders, Link(orders, NodeOf(k, isBid, InsertAt(side, n, o), n)), k, isBid)
  {
    hide SideRep, NodeOf, Link;
    var x := NodeOf(k, isBid, InsertAt(side, n, o), n);
    NewNeighbours(orders, head, k, isBid, side, n, o);
    LinkZero(orders, x);
    forall id | id != 0 ensures id in Link(orders, x) <==> id in orders || id == x.orderId
                        ensures id in Link(orders, x)
                                ==> Link(orders, x)[id] == if id == x.orderId then x else Joined(orders[id], id, x) {
      LinkAt(orders, x, id);
    }
  }

  lemma LinkZero(orders: Orders, o: Order)
    requires 0 !in orders && o.orderId != 0
    ensures 0 !in Link(orders, o)
  {
  }

  lemma InsertDistinct(side: seq<Resting>, n: nat, o: Resting)
    requires DistinctIds(side) && n <= |side| && o.id != 0 && !HasId(side, o.id)
    ensures DistinctIds(InsertAt(side, n, o))
  {
    var s := InsertAt(side, n, o);
    assert forall i :: 0 <= i < n ==> s[i] == side[i];
    assert s[n] == o;
    assert forall i :: n < i < |s| ==> s[i] == side[i - 1];
    assert forall i :: 0 <= i < |side| ==> side[i].id != o.id;
  }

  lemma LinkNodes(orders: Orders, head: nat, k: BookKey, isBid: bool, side: seq<Resting>, n: nat, o: Resting, i: nat)
    requires SideRep(orders, head, k, isBid, side) && n <= |side| && o.id != 0 && o.id !in orders && i <= |side|
    ensures var side' := InsertAt(side, n, o);
            var orders' := Link(orders, NodeOf(k, isBid, side', n));
            side'[i].id in orders' && orders'[side'[i].id] == NodeOf(k, isBid, side', i)
  {
    hide Link, Joined, NodeOf;
    NewNeighbours(orders, head, k, isBid, side, n, o);
    var x := NodeOf(k, isBid, InsertAt(side, n, o), n);
    if i == n {
      LinkAt(orders, x, o.id);
    } else {
      var j := if i < n then i else i - 1;
      InsertedNode(k, isBid, side, n, o, j);
      assert side[j].id in orders && orders[side[j].id] == NodeOf(k, isBid, side, j);
      LinkAt(orders, x, side[j].id);
    }
  }

  lemma InsertKeepsAll(side: seq<Resting>, n: nat, o: Resting, id: nat)
    requires n <= |side| && (id == o.id || HasId(side, id))
    ensures HasId(InsertAt(side, n, o), id)
  {
    var s := InsertAt(side, n, o);
    if id == o.id {
      assert s[n].id == id;
    } else {
      var j :| 0 <= j < |side| && side[j].id == id;
      assert s[if j < n then j else j + 1].id == id;
    }
  }

  lemma LinkCovers(orders: Orders, head: nat, k: BookKey, isBid: bool, side: seq<Resting>, n: nat, o: Resting, id: nat)
    requires SideRep(orders, head, k, isBid, side) && n <= |side| && o.id != 0 && o.id !in orders && 0 !in orders
    requires var orders' := Link(orders, NodeOf(k, isBid, InsertAt(side, n, o), n));
             id in orders' && On(orders'[id], k, isBid)
    ensures HasId(InsertAt(side, n, o), id)
  {
    hide Link, DistinctIds, HasId, NodeOf;
    var x := NodeOf(k, isBid, InsertAt(side, n, o), n);
    NewNeighbours(orders, head, k, isBid, side, n, o);
    LinkZero(orders, x);
    LinkAt(orders, x, id);
    InsertKeepsAll(side, n, o, id);
  }

  /** Linking a new node at a position inserts it there. */
  lemma LinkRep(orders: Orders, head: nat, k: BookKey, isBid: bool, side: seq<Resting>, n: nat, o: Resting)
    requires SideRep(orders, head, k, isBid, side) && n <= |side| && o.id != 0 && o.id !in orders && 0 !in orders
    ensures var side' := InsertAt(side, n, o);
            SideRep(Link(orders, NodeOf(k, isBid, side', n)), if n == 0 then o.id else head, k, isBid, side')
  {
    assert !HasId(side, o.id);
    InsertDistinct(side, n, o);
    hide Link, HasId, DistinctIds;
    var side' := InsertAt(side, n, o);
    var orders' := Link(orders, NodeOf(k, isBid, side', n));
    forall i | 0 <= i < |side'| ensures side'[i].id in orders' && orders'[side'[i].id] == NodeOf(k, isBid, side', i) {
      LinkNodes(orders, head, k, isBid, side, n, o, i);
    }
    forall id | id in orders' && On(orders'[id], k, isBid) ensures HasId(side', id) {
      LinkCovers(orders, head, k, isBid, side, n, o, id);
    }
  }

  /** Writing a smaller quantity into the best order reduces it in the sequence. */
  lemma ReduceRep(orders: Orders, head: nat, k: BookKey, isBid: bool, side: seq<Resting>, fill: u128)
    requires SideRep(orders, head, k, isBid, side) && side != [] && fill < side[0].qty
    ensures var orders' := orders[head := orders[head].(quantity := side[0].qty - fill)];
            && SideRep(orders', head, k, isBid, AfterFill(side, fill))
            && OnlySide(orders, orders', k, isBid)
  {
    var orders' := orders[head := orders[head].(quantity := side[0].qty - fill)];
    var side' := AfterFill(side, fill);
    forall i | 0 <= i < |side'| ensures side'[i].id in orders' && orders'[side'[i].id] == NodeOf(k, isBid, side', i) {
      assert orders[side[i].id] == NodeOf(k, isBid, side, i);
    }
    forall id | id in orders' && On(orders'[id], k, isBid) ensures HasId(side', id) {
      var j :| 0 <= j < |side| && side[j].id == id;
      assert side'[j].id == id;
    }
  }

  // ---- whole books -----------------------------------------------------------------------

  lemma SideOfBook(orders: Orders, metas: Metas, books: map<BookKey, Book>, k: BookKey, isBid: bool)
    requires ListsRep(orders, metas, books) && k in books
    ensures k in metas && 0 !in orders && SideRep(orders, Head(metas[k], isBid), k, isBid, SideOf(books[k], isBid))
  {
    hide SideRep;
    assert BookRep(orders, metas[k], k, books[k]);
  }

  lemma BestNode(orders: Orders, head: nat, k: BookKey, isBid: bool, side: seq<Resting>)
    requires SideRep(orders, head, k, isBid, side)
    ensures head == 0 <==> side == []
    ensures side != [] ==> head in orders && orders[head] == NodeOf(k, isBid, side, 0)
  {
  }

  lemma SameHead(metas: Metas, k: BookKey, isBid: bool)
    requires k in metas
    ensures metas[k := WithHead(metas[k], isBid, Head(metas[k], isBid))] == metas
  {
  }

  /** Removing the order at a position, with the head moved when it was first. */
  lemma ListsRemove(orders: Orders, metas: Metas, m: Market, k: BookKey, isBid: bool, n: nat)
    requires ListsRep(orders, metas, m.books) && k in m.books && n < |SideOf(m.books[k], isBid)|
    ensures var side := SideOf(m.books[k], isBid);
            var o := NodeOf(k, isBid, side, n);
            var metas' := if o.prev != 0 then metas else metas[k := WithHead(metas[k], isBid, o.next)];
            ListsRep(Unlink(orders, o), metas', WithSide(m, k, isBid, RemoveAt(side, n)).books)
  {
    hide ListsRep, SideRep, OnlySide, Unlink, RemoveAt;
    var side := SideOf(m.books[k], isBid);
    var o := NodeOf(k, isBid, side, n);
    SideOfBook(orders, metas, m.books, k, isBid);
    UnlinkRep(orders, Head(metas[k], isBid), k, isBid, side, n);
    UnlinkFrame(orders, Head(metas[k], isBid), k, isBid, side, n);
    SameHead(metas, k, isBid);
    var head := if o.prev == 0 then o.next else Head(metas[k], isBid);
    ListsUpdate(orders, Unlink(orders, o), metas, m.books, k, isBid, head, RemoveAt(side, n));
  }

  lemma ListsInsert(orders: Orders, metas: Metas, m: Market, k: BookKey, isBid: bool, n: nat, o: Resting)
    requires ListsRep(orders, metas, m.books) && k in m.books && n <= |SideOf(m.books[k], isBid)| && o.id != 0
             && o.id !in orders
    ensures var side' := InsertAt(SideOf(m.books[k], isBid), n, o);
            var metas' := if n != 0 then metas else metas[k := WithHead(metas[k], isBid, o.id)];
            ListsRep(Link(orders, NodeOf(k, isBid, side', n)), metas', WithSide(m, k, isBid, side').books)
  {
    hide ListsRep, SideRep, OnlySide, Link, NodeOf;
    var side := SideOf(m.books[k], isBid);
    var side' := InsertAt(side, n, o);
    SideOfBook(orders, metas, m.books, k, isBid);
    LinkRep(orders, Head(metas[k], isBid), k, isBid, side, n, o);
    LinkFrame(orders, Head(metas[k], isBid), k, isBid, side, n, o);
    SameHead(metas, k, isBid);
    var head := if n == 0 then o.id else Head(metas[k], isBid);
    ListsUpdate(orders, Link(orders, NodeOf(k, isBid, side', n)), metas, m.books, k, isBid, head, side');
  }

  lemma ListsReduce(orders: Orders, metas: Metas, m: Market, k: BookKey, isBid: bool, fill: u128)
    requires ListsRep(orders, metas, m.books) && k in m.books
    requires SideOf(m.books[k], isBid) != [] && fill < SideOf(m.books[k], isBid)[0].qty
    ensures var side := SideOf(m.books[k], isBid);
            && k in metas && Head(metas[k], isBid) in orders
            && ListsRep(orders[Head(metas[k], isBid) := orders[Head(metas[k], isBid)].(quantity := side[0].qty - fill)],
              metas,
                        WithSide(m, k, isBid, AfterFill(side, fill)).books)
  {
    hide ListsRep, SideRep, OnlySide, AfterFill;
    var side := SideOf(m.books[k], isBid);
    SideOfBook(orders, metas, m.books, k, isBid);
    var head := Head(metas[k], isBid);
    BestNode(orders, head, k, isBid, side);
    ReduceRep(orders, head, k, isBid, side, fill);
    SameHead(metas, k, isBid);
    ListsUpdate(orders, orders[head := orders[head].(quantity := side[0].qty - fill)], metas, m.books, k, isBid, head,
      AfterFill(side, fill));
  }

  lemma EmptyBook(orders: Orders, k: BookKey)
    requires k.base != ZERO_ADDRESS && forall id :: id in orders ==> orders[id].bookKey != k
    ensures BookRep(orders, BookMeta(k.base, k.quote, 0, 0), k, Book([], []))
  {
  }

  lemma ListsOpen(orders: Orders, metas: Metas, books: map<BookKey, Book>, k: BookKey)
    requires ListsRep(orders, metas, books) && k !in books && k.base != ZERO_ADDRESS
    ensures ListsRep(orders, metas[k := BookMeta(k.base, k.quote, 0, 0)], books[k := Book([], [])])
  {
    hide BookRep;
    EmptyBook(orders, k);
  }
}
