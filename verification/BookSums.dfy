/** How totals over all books and over the event log respond to one change. */
module BookSums {
  import opened Prelude
  import opened OrderBook

  ghost predicate NoDuplicates<T(!new)>(s: seq<T>) {
    forall i, j :: 0 <= i < j < |s| ==> s[i] != s[j]
  }

  ghost predicate KeysListBooks(m: Market) {
    && NoDuplicates(m.keys)
    && forall k :: k in m.books <==> k in m.keys
  }

  lemma {:induction false} SideSumConcat(w: Weight, k: BookKey, isBid: bool, a: seq<Resting>, b: seq<Resting>)
    ensures SideSum(w, k, isBid, a + b) == SideSum(w, k, isBid, a) + SideSum(w, k, isBid, b)
  {
    if a == [] {
      assert a + b == b;
    } else {
      assert (a + b)[1..] == a[1..] + b;
      SideSumConcat(w, k, isBid, a[1..], b);
    }
  }

  lemma SideSumInsert(w: Weight, k: BookKey, isBid: bool, side: seq<Resting>, n: nat, o: Resting)
    requires n <= |side|
    ensures SideSum(w, k, isBid, InsertAt(side, n, o)) == SideSum(w, k, isBid, side) + w(k, isBid, o)
  {
    assert side == side[..n] + side[n..];
    assert InsertAt(side, n, o) == side[..n] + ([o] + side[n..]);
    SideSumConcat(w, k, isBid, side[..n], side[n..]);
    SideSumConcat(w, k, isBid, side[..n], [o] + side[n..]);
    assert ([o] + side[n..])[1..] == side[n..];
  }

  lemma SideSumRemove(w: Weight, k: BookKey, isBid: bool, side: seq<Resting>, n: nat)
    requires n < |side|
    ensures SideSum(w, k, isBid, RemoveAt(side, n)) + w(k, isBid, side[n]) == SideSum(w, k, isBid, side)
  {
    assert side == InsertAt(RemoveAt(side, n), n, side[n]);
    SideSumInsert(w, k, isBid, RemoveAt(side, n), n, side[n]);
  }

  lemma {:induction false} KeysSumFrame(w: Weight, keys: seq<BookKey>, books: map<BookKey, Book>, k: BookKey, b: Book)
    requires k !in keys
    ensures KeysSum(w, keys, books[k := b]) == KeysSum(w, keys, books)
  {
    if keys != [] {
      KeysSumFrame(w, keys[1..], books, k, b);
    }
  }

  lemma {:induction false} KeysSumUpdate(w: Weight, keys: seq<BookKey>, books: map<BookKey, Book>, k: BookKey, b: Book)
    requires NoDuplicates(keys) && k in keys && k in books
    ensures KeysSum(w, keys, books[k := b]) + BookSum(w, k, books[k]) == KeysSum(w, keys, books) + BookSum(w, k, b)
  {
    if keys[0] == k {
      assert k !in keys[1..];
      KeysSumFrame(w, keys[1..], books, k, b);
    } else {
      KeysSumUpdate(w, keys[1..], books, k, b);
    }
  }

  /** Replacing one side changes any total by exactly that side's contribution. */
  lemma TotalWithSide(w: Weight, m: Market, k: BookKey, isBid: bool, side: seq<Resting>)
    requires KeysListBooks(m) && k in m.books
    ensures Total(w, WithSide(m, k, isBid, side)) + SideSum(w, k, isBid, SideOf(m.books[k], isBid))
         == Total(w, m) + SideSum(w, k, isBid, side)
  {
    var b := WithSide(m, k, isBid, side).books[k];
    KeysSumUpdate(w, m.keys, m.books, k, b);
  }

  lemma {:induction false} KeysSumAppend(w: Weight, keys: seq<BookKey>, books: map<BookKey, Book>, k: BookKey)
    requires k !in keys
    ensures KeysSum(w, keys + [k], books[k := Book([], [])]) == KeysSum(w, keys, books)
  {
    if keys == [] {
      assert (keys + [k])[1..] == [];
    } else {
      assert (keys + [k])[1..] == keys[1..] + [k];
      KeysSumAppend(w, keys[1..], books, k);
    }
  }

  /** A filled order's contribution shrinks to that of what is left of it. */
  lemma SideSumAfterFill(w: Weight, k: BookKey, isBid: bool, side: seq<Resting>, fill: u128)
    requires side != [] && fill <= side[0].qty
    ensures SideSum(w, k, isBid, AfterFill(side, fill)) + w(k, isBid, side[0])
         == SideSum(w, k, isBid, side) + (if fill == side[0].qty then 0
           else w(k, isBid, side[0].(qty := side[0].qty - fill)))
  {
    if fill < side[0].qty {
      assert AfterFill(side, fill)[1..] == side[1..];
    }
  }

  // ---- the event log ---------------------------------------------------------------------

  type EventWeight = Event -> int

  ghost function LogSum(w: EventWeight, log: seq<Event>): int {
    if log == [] then 0 else LogSum(w, log[..|log| - 1]) + w(log[|log| - 1])
  }

  lemma LogSumAppend(w: EventWeight, log: seq<Event>, e: Event)
    ensures LogSum(w, log + [e]) == LogSum(w, log) + w(e)
  {
    assert (log + [e])[..|log|] == log;
  }

  lemma {:induction false} LogSumConcat(w: EventWeight, a: seq<Event>, b: seq<Event>)
    ensures LogSum(w, a + b) == LogSum(w, a) + LogSum(w, b)
  {
    if b == [] {
      assert a + b == a;
    } else {
      assert (a + b)[..|a + b| - 1] == a + b[..|b| - 1];
      LogSumConcat(w, a, b[..|b| - 1]);
    }
  }

  lemma {:induction false} LogSumAgree(v: EventWeight, w: EventWeight, log: seq<Event>)
    requires forall e :: e in log ==> v(e) == w(e)
    ensures LogSum(v, log) == LogSum(w, log)
  {
    if log != [] {
      LogSumAgree(v, w, log[..|log| - 1]);
    }
  }
}
