/** The limit order book with price-time priority (project/market/orderbook.py).
    Each side is kept as a sequence in priority order: bids highest price first,
    asks lowest price first, equal prices by arrival stamp. The heap layout of the
    source is not modelled, only the order it yields. */
module OrderBook {
  import opened Wrappers
  import opened Agents

  /** A resting entry: the original order, its arrival stamp and the quantity still open. */
  datatype BookEntry = BookEntry(price: real, timestamp: int, order: Order, remaining: int)

  /** The two quotes handed to traders. */
  datatype Snapshot = Snapshot(bestBid: Option<real>, bestAsk: Option<real>)

  /** Priority on one side: `a` is served before `b`. On the bid side higher prices
      come first, on the ask side lower prices; equal prices go by earlier stamp. */
  predicate Before(bidSide: bool, a: BookEntry, b: BookEntry)
  {
    if bidSide then a.price > b.price || (a.price == b.price && a.timestamp < b.timestamp)
    else a.price < b.price || (a.price == b.price && a.timestamp < b.timestamp)
  }

  predicate Sorted(s: seq<BookEntry>, bidSide: bool)
  {
    forall i, j :: 0 <= i < j < |s| ==> Before(bidSide, s[i], s[j])
  }

  /** Two entries whose order on a side is decided (they differ in price or stamp). */
  predicate Comparable(bidSide: bool, a: BookEntry, b: BookEntry)
  {
    Before(bidSide, a, b) || Before(bidSide, b, a)
  }

  /** A push onto a side: the entry goes in front of the first entry it precedes. */
  function Insert(s: seq<BookEntry>, e: BookEntry, bidSide: bool): (r: seq<BookEntry>)
    ensures |r| == |s| + 1
    ensures multiset(r) == multiset(s) + multiset{e}
    ensures forall x :: x in r <==> x in s || x == e
  {
    if |s| == 0 then [e]
    else if Before(bidSide, e, s[0]) then [e] + s
    else
      assert s == [s[0]] + s[1..];
      [s[0]] + Insert(s[1..], e, bidSide)
  }

  /** Pushing an entry that is comparable with every entry of a sorted side keeps it sorted. */
  lemma {:induction false} InsertKeepsSorted(s: seq<BookEntry>, e: BookEntry, bidSide: bool)
    requires Sorted(s, bidSide)
    requires forall i :: 0 <= i < |s| ==> Comparable(bidSide, s[i], e)
    ensures Sorted(Insert(s, e, bidSide), bidSide)
  {
    if |s| > 0 && !Before(bidSide, e, s[0]) {
      assert Comparable(bidSide, s[0], e);
      InsertKeepsSorted(s[1..], e, bidSide);
      HeadPrecedesInsert(s, e, bidSide);
      assert Insert(s, e, bidSide) == [s[0]] + Insert(s[1..], e, bidSide);
    }
  }

  /** When the pushed entry goes behind the head, the head precedes everything after it. */
  lemma HeadPrecedesInsert(s: seq<BookEntry>, e: BookEntry, bidSide: bool)
    requires Sorted(s, bidSide) && |s| > 0 && Before(bidSide, s[0], e)
    ensures forall x :: x in Insert(s[1..], e, bidSide) ==> Before(bidSide, s[0], x)
  {
    forall x | x in Insert(s[1..], e, bidSide)
      ensures Before(bidSide, s[0], x)
    {
      if x != e {
        var k :| 1 <= k < |s| && s[k] == x;
      }
    }
  }

  /** An entry that precedes the whole side is pushed at the front. */
  lemma InsertAheadOfAll(s: seq<BookEntry>, e: BookEntry, bidSide: bool)
    requires forall i :: 0 <= i < |s| ==> Before(bidSide, e, s[i])
    ensures Insert(s, e, bidSide) == [e] + s
  {
  }

  /** What every resting entry satisfies: a stamp already handed out, open quantity
      and a positive price. */
  predicate Resting(e: BookEntry, counter: int)
  {
    1 <= e.timestamp <= counter && e.remaining > 0 && e.price > 0.0
  }

  /** Every entry of a side rests, and belongs there by direction. */
  predicate AllResting(s: seq<BookEntry>, counter: int, bidSide: bool)
  {
    forall i :: 0 <= i < |s| ==> Resting(s[i], counter) && (s[i].order.direction == 1 <==> bidSide)
  }

  lemma InsertKeepsResting(s: seq<BookEntry>, e: BookEntry, counter: int, bidSide: bool)
    requires AllResting(s, counter, bidSide)
    requires Resting(e, counter) && (e.order.direction == 1 <==> bidSide)
    ensures AllResting(Insert(s, e, bidSide), counter, bidSide)
  {
    var r := Insert(s, e, bidSide);
    forall i | 0 <= i < |r|
      ensures Resting(r[i], counter) && (r[i].order.direction == 1 <==> bidSide)
    {
      assert r[i] in r;
      if r[i] != e {
        var k :| 0 <= k < |s| && s[k] == r[i];
      }
    }
  }

  /** Resting entries stay resting when the counter moves on. */
  lemma RestingUnderLaterCounter(s: seq<BookEntry>, counter: int, later: int, bidSide: bool)
    requires AllResting(s, counter, bidSide) && counter <= later
    ensures AllResting(s, later, bidSide)
  {
  }

  /** The book's contents as a value: both sides and the stamp counter. */
  datatype BookState = BookState(bids: seq<BookEntry>, asks: seq<BookEntry>, counter: int)

  /** The book's invariant: a non-negative counter, both sides in priority order,
      every entry resting, buys only among the bids and everything else among the asks. */
  predicate ValidBook(b: BookState)
  {
    b.counter >= 0 && Sorted(b.bids, true) && Sorted(b.asks, false)
    && AllResting(b.bids, b.counter, true) && AllResting(b.asks, b.counter, false)
  }

  /** `add_limit` on the book's value. Non-positive quantities and prices are ignored
      outright, counter included; otherwise the order rests with the next stamp and its
      full quantity, buys among the bids and any other direction among the asks. */
  function AddLimitSpec(b: BookState, order: Order): (r: BookState)
    ensures order.quantity <= 0 || order.price <= 0.0 ==> r == b
    ensures order.quantity > 0 && order.price > 0.0 ==>
              var e := BookEntry(order.price, b.counter + 1, order, order.quantity);
              r.counter == b.counter + 1 &&
              (order.direction == 1 ==> r.asks == b.asks && multiset(r.bids) == multiset(b.bids) + multiset{e}) &&
              (order.direction != 1 ==> r.bids == b.bids && multiset(r.asks) == multiset(b.asks) + multiset{e})
  {
    if order.quantity <= 0 || order.price <= 0.0 then b
    else
      var e := BookEntry(order.price, b.counter + 1, order, order.quantity);
      if order.direction == 1 then BookState(Insert(b.bids, e, true), b.asks, b.counter + 1)
      else BookState(b.bids, Insert(b.asks, e, false), b.counter + 1)
  }

  /** An accepted order is stamped later than everything resting. */
  lemma AcceptedOrderIsNewest(b: BookState, order: Order)
    requires ValidBook(b) && order.quantity > 0 && order.price > 0.0
    ensures forall i :: 0 <= i < |b.bids| ==> b.bids[i].timestamp < AddLimitSpec(b, order).counter
    ensures forall i :: 0 <= i < |b.asks| ==> b.asks[i].timestamp < AddLimitSpec(b, order).counter
  {
  }

  /** Pushing a new entry, stamped after everything resting, onto a valid side. */
  lemma PushKeepsSideValid(s: seq<BookEntry>, counter: int, e: BookEntry, bidSide: bool)
    requires counter >= 0 && Sorted(s, bidSide) && AllResting(s, counter, bidSide)
    requires e.timestamp == counter + 1 && e.remaining > 0 && e.price > 0.0
    requires e.order.direction == 1 <==> bidSide
    ensures Sorted(Insert(s, e, bidSide), bidSide) && AllResting(Insert(s, e, bidSide), counter + 1, bidSide)
  {
    RestingUnderLaterCounter(s, counter, counter + 1, bidSide);
    assert forall i :: 0 <= i < |s| ==> Comparable(bidSide, s[i], e);
    InsertKeepsSorted(s, e, bidSide);
    InsertKeepsResting(s, e, counter + 1, bidSide);
  }

  /** Hence adding an order keeps the book valid. */
  lemma AddLimitKeepsBookValid(b: BookState, order: Order)
    requires ValidBook(b)
    ensures ValidBook(AddLimitSpec(b, order))
  {
    if order.quantity > 0 && order.price > 0.0 {
      var e := BookEntry(order.price, b.counter + 1, order, order.quantity);
      var r := AddLimitSpec(b, order);
      if order.direction == 1 {
        assert r.bids == Insert(b.bids, e, true) && r.asks == b.asks && r.counter == b.counter + 1;
        PushKeepsSideValid(b.bids, b.counter, e, true);
        RestingUnderLaterCounter(b.asks, b.counter, b.counter + 1, false);
      } else {
        assert r.asks == Insert(b.asks, e, false) && r.bids == b.bids && r.counter == b.counter + 1;
        PushKeepsSideValid(b.asks, b.counter, e, false);
        RestingUnderLaterCounter(b.bids, b.counter, b.counter + 1, true);
      }
    }
  }

  /** After a clear, the next accepted order is stamped 1 and is the only entry. */
  lemma FirstOrderAfterClear(order: Order)
    requires order.quantity > 0 && order.price > 0.0
    ensures var r := AddLimitSpec(BookState([], [], 0), order);
            r.counter == 1 && r.bids + r.asks == [BookEntry(order.price, 1, order, order.quantity)]
  {
  }

  class OrderBook {
    var bids: seq<BookEntry>
    var asks: seq<BookEntry>
    var counter: int

    function Value(): BookState
      reads this
    {
      BookState(bids, asks, counter)
    }

    ghost predicate Valid()
      reads this
    {
      ValidBook(Value())
    }

    /** The side an order of the given direction rests on. */
    function Side(direction: int): seq<BookEntry>
      reads this
    {
      if direction == 1 then bids else asks
    }

    constructor()
      ensures Value() == BookState([], [], 0)
      ensures Valid()
    {
      bids := [];
      asks := [];
      counter := 0;
    }

    method Clear()
      modifies this
      ensures Value() == BookState([], [], 0)
      ensures Valid()
    {
      bids := [];
      asks := [];
      counter := 0;
    }

    method NextTs() returns (ts: int)
      modifies this
      ensures counter == old(counter) + 1 && ts == counter
      ensures bids == old(bids) && asks == old(asks)
    {
      counter := counter + 1;
      ts := counter;
    }

    method AddLimit(order: Order)
      modifies this
      ensures Value() == AddLimitSpec(old(Value()), order)
      ensures old(Valid()) ==> Valid()
    {
      if Valid() {
        AddLimitKeepsBookValid(Value(), order);
      }
      if order.quantity <= 0 {
        return;
      }
      if order.price <= 0.0 {
        return;
      }
      var ts := NextTs();
      var entry := BookEntry(order.price, ts, order, order.quantity);
      if order.direction == 1 {
        bids := Insert(bids, entry, true);
      } else {
        asks := Insert(asks, entry, false);
      }
    }

    /** Whether an entry can go back without breaking the ordering: a stamp already
        handed out, a positive price, and an order decided against every entry of
        its side. */
    ghost predicate Reinsertable(entry: BookEntry)
      reads this
    {
      1 <= entry.timestamp <= counter && entry.price > 0.0
      && var side := Side(entry.order.direction);
         forall i :: 0 <= i < |side| ==> Comparable(entry.order.direction == 1, side[i], entry)
    }

    /** A partially filled entry goes back with its original stamp; the counter
        does not move. Entries with nothing left are dropped. */
    method Reinsert(entry: BookEntry)
      modifies this
      ensures counter == old(counter)
      ensures entry.remaining <= 0 ==> bids == old(bids) && asks == old(asks)
      ensures entry.remaining > 0 ==>
                if entry.order.direction == 1 then bids == Insert(old(bids), entry, true) && asks == old(asks)
                else asks == Insert(old(asks), entry, false) && bids == old(bids)
      ensures old(Valid()) && old(Reinsertable(entry)) ==> Valid()
    {
      if entry.remaining <= 0 {
        return;
      }
      if Valid() && Reinsertable(entry) {
        InsertKeepsSorted(Side(entry.order.direction), entry, entry.order.direction == 1);
        InsertKeepsResting(Side(entry.order.direction), entry, counter, entry.order.direction == 1);
      }
      if entry.order.direction == 1 {
        bids := Insert(bids, entry, true);
      } else {
        asks := Insert(asks, entry, false);
      }
    }

    /** The highest resting bid price; `None` exactly when there are no bids. */
    function BestBid(): (r: Option<real>)
      reads this
      ensures r.None? <==> |bids| == 0
      ensures Valid() && r.Some? ==>
                (forall i :: 0 <= i < |bids| ==> bids[i].price <= r.value) &&
                (exists i :: 0 <= i < |bids| && bids[i].price == r.value)
    {
      if |bids| > 0 then Some(bids[0].price) else None
    }

    /** The lowest resting ask price; `None` exactly when there are no asks. */
    function BestAsk(): (r: Option<real>)
      reads this
      ensures r.None? <==> |asks| == 0
      ensures Valid() && r.Some? ==>
                (forall i :: 0 <= i < |asks| ==> asks[i].price >= r.value) &&
                (exists i :: 0 <= i < |asks| && asks[i].price == r.value)
    {
      if |asks| > 0 then Some(asks[0].price) else None
    }

    /** The bid served first: best price, and among those the earliest stamp. */
    function PeekBestBid(): (r: Option<BookEntry>)
      reads this
      ensures r.None? <==> |bids| == 0
      ensures r.Some? ==> r.value in bids
      ensures Valid() && r.Some? ==>
                forall i :: 0 <= i < |bids| ==>
                  bids[i].price <= r.value.price &&
                  (bids[i].price == r.value.price ==> r.value.timestamp <= bids[i].timestamp)
    {
      if |bids| > 0 then Some(bids[0]) else None
    }

    /** The ask served first: best price, and among those the earliest stamp. */
    function PeekBestAsk(): (r: Option<BookEntry>)
      reads this
      ensures r.None? <==> |asks| == 0
      ensures r.Some? ==> r.value in asks
      ensures Valid() && r.Some? ==>
                forall i :: 0 <= i < |asks| ==>
                  asks[i].price >= r.value.price &&
                  (asks[i].price == r.value.price ==> r.value.timestamp <= asks[i].timestamp)
    {
      if |asks| > 0 then Some(asks[0]) else None
    }

    /** Removes the entry `PeekBestBid` shows and nothing else. */
    method PopBestBid() returns (e: BookEntry)
      requires |bids| > 0
      modifies this
      ensures old(PeekBestBid()) == Some(e)
      ensures multiset(old(bids)) == multiset(bids) + multiset{e}
      ensures bids == old(bids)[1..] && asks == old(asks) && counter == old(counter)
      ensures old(Valid()) ==> Valid()
    {
      e := bids[0];
      assert bids == [e] + bids[1..];
      bids := bids[1..];
    }

    /** Removes the entry `PeekBestAsk` shows and nothing else. */
    method PopBestAsk() returns (e: BookEntry)
      requires |asks| > 0
      modifies this
      ensures old(PeekBestAsk()) == Some(e)
      ensures multiset(old(asks)) == multiset(asks) + multiset{e}
      ensures asks == old(asks)[1..] && bids == old(bids) && counter == old(counter)
      ensures old(Valid()) ==> Valid()
    {
      e := asks[0];
      assert asks == [e] + asks[1..];
      asks := asks[1..];
    }

    function GetSnapshot(): (s: Snapshot)
      reads this
      ensures s.bestBid.None? <==> |bids| == 0
      ensures s.bestAsk.None? <==> |asks| == 0
      ensures s.bestBid == BestBid() && s.bestAsk == BestAsk()
    {
      Snapshot(BestBid(), BestAsk())
    }
  }
}
