/**
 The sealed-bid auction of an assign: one bid a worker, the lowest wins, and the
 winner is paid the second lowest.
 */
module Auction {
  type Key = string

  const AUCTION_BID_CEIL_MULTIPLIER := 10

  datatype Bid = Bid(worker: Key, amount: int)

  /** A worker that bids again keeps its lower bid, in its old place. */
  function WithBid(bids: seq<Bid>, worker: Key, amount: int): (r: seq<Bid>)
    ensures |r| > 0
  {
    if bids == [] then [Bid(worker, amount)]
    else if bids[0].worker == worker then
      if amount < bids[0].amount then [Bid(worker, amount)] + bids[1..] else bids
    else [bids[0]] + WithBid(bids[1..], worker, amount)
  }

  ghost predicate OneBidEach(bids: seq<Bid>) {
    forall i, j :: 0 <= i < j < |bids| ==> bids[i].worker != bids[j].worker
  }

  /** Every other worker's bid stays, and the bidder's is the lower of its two. */
  lemma {:induction false} WithBidKeepsLowest(bids: seq<Bid>, worker: Key, amount: int)
    ensures var r := WithBid(bids, worker, amount);
            && (forall b :: b in r ==> b in bids || b == Bid(worker, amount))
            && (forall b :: b in bids && b.worker != worker ==> b in r)
            && (exists b :: b in r && b.worker == worker && b.amount <= amount)
            && (OneBidEach(bids) ==>
                  && OneBidEach(r)
                  && forall b, c :: b in bids && c in r && b.worker == c.worker == worker ==> c.amount <= b.amount)
  {
    var r := WithBid(bids, worker, amount);
    if bids == [] {
      assert r[0] == Bid(worker, amount);
    } else if bids[0].worker == worker {
      assert r[0].worker == worker && r[0].amount <= amount && r[1..] == bids[1..];
      assert bids == [bids[0]] + bids[1..] && r == [r[0]] + bids[1..];
    } else {
      var rest := bids[1..];
      WithBidKeepsLowest(rest, worker, amount);
      assert bids == [bids[0]] + rest;
      var kept :| kept in WithBid(rest, worker, amount) && kept.worker == worker && kept.amount <= amount;
      assert kept in r;
      if OneBidEach(bids) { LaterBidsDiffer(bids, worker, amount); }
    }
  }

  lemma LaterBidsDiffer(bids: seq<Bid>, worker: Key, amount: int)
    requires bids != [] && OneBidEach(bids) && bids[0].worker != worker
    requires var r := WithBid(bids[1..], worker, amount);
             (forall b :: b in r ==> b in bids[1..] || b == Bid(worker, amount))
                 && (OneBidEach(bids[1..]) ==> OneBidEach(r))
    ensures OneBidEach(bids[1..]) && OneBidEach(WithBid(bids, worker, amount))
  {
    var r := WithBid(bids[1..], worker, amount);
    forall j | 0 <= j < |r| ensures r[j].worker != bids[0].worker {
      assert r[j] in r;
    }
  }

  // ----- The close -----

  /** One step of the insertion sort: the newcomer sinks below every higher bid, and stays above equal ones. */
  function Inserted(sorted: seq<Bid>, b: Bid): (r: seq<Bid>)
    ensures |r| == |sorted| + 1
    decreases |sorted|
  {
    if sorted != [] && b.amount < sorted[|sorted| - 1].amount
    then Inserted(sorted[..|sorted| - 1], b) + [sorted[|sorted| - 1]]
    else sorted + [b]
  }

  /** The first n bids, sorted. */
  function Sorted(bids: seq<Bid>, n: nat): (r: seq<Bid>)
    requires n <= |bids|
    ensures |r| == n
  {
    if n == 0 then [] else Inserted(Sorted(bids, n - 1), bids[n - 1])
  }

  function Winner(bids: seq<Bid>): Bid
    requires bids != []
  {
    Sorted(bids, |bids|)[0]
  }

  function ClearingPrice(bids: seq<Bid>): int
    requires bids != []
  {
    if |bids| >= 2 then Sorted(bids, |bids|)[1].amount else Sorted(bids, |bids|)[0].amount
  }

  ghost predicate Ascending(s: seq<Bid>) {
    forall i, j :: 0 <= i < j < |s| ==> s[i].amount <= s[j].amount
  }

  /** A place with every higher bid above it and no higher bid just below it is where the newcomer ends. */
  lemma {:induction false} InsertedAt(before: seq<Bid>, x: Bid, j: nat)
    requires j <= |before| && (forall k :: j <= k < |before| ==> x.amount < before[k].amount)
    requires j == 0 || before[j - 1].amount <= x.amount
    ensures Inserted(before, x) == before[..j] + [x] + before[j..]
    decreases |before|
  {
    if j < |before| {
      var init, last := before[..|before| - 1], before[|before| - 1];
      InsertedAt(init, x, j);
      assert init[..j] == before[..j] && init[j..] + [last] == before[j..];
    }
  }

  lemma {:induction false} PlaceOf(sorted: seq<Bid>, n: nat, x: Bid) returns (j: nat)
    requires n <= |sorted| && Ascending(sorted) && forall k :: n <= k < |sorted| ==> x.amount < sorted[k].amount
    ensures j <= n && (forall k :: j <= k < |sorted| ==> x.amount < sorted[k].amount)
            && (j == 0 || sorted[j - 1].amount <= x.amount)
  {
    j := n;
    if n > 0 && x.amount < sorted[n - 1].amount { j := PlaceOf(sorted, n - 1, x); }
  }

  lemma JoinIsAscending(low: seq<Bid>, x: Bid, high: seq<Bid>)
    requires Ascending(low) && Ascending(high)
    requires forall i :: 0 <= i < |low| ==> low[i].amount <= x.amount
    requires forall i :: 0 <= i < |high| ==> x.amount <= high[i].amount
    ensures Ascending(low + [x] + high)
  {
  }

  lemma SpliceIsSorted(s: seq<Bid>, x: Bid, j: nat)
    requires Ascending(s) && j <= |s| && (forall k :: j <= k < |s| ==> x.amount < s[k].amount)
             && (j == 0 || s[j - 1].amount <= x.amount)
    ensures Ascending(s[..j] + [x] + s[j..]) && multiset(s[..j] + [x] + s[j..]) == multiset(s) + multiset{x}
  {
    var low, high := s[..j], s[j..];
    assert s == low + high;
    assert forall i :: 0 <= i < j ==> s[i].amount <= s[j - 1].amount;
    JoinIsAscending(low, x, high);
  }

  lemma InsertedIsSorted(sorted: seq<Bid>, x: Bid)
    requires Ascending(sorted)
    ensures Ascending(Inserted(sorted, x)) && multiset(Inserted(sorted, x)) == multiset(sorted) + multiset{x}
  {
    var j := PlaceOf(sorted, |sorted|, x);
    InsertedAt(sorted, x, j);
    SpliceIsSorted(sorted, x, j);
  }

  lemma OneMoreBid(bids: seq<Bid>, n: nat)
    requires 0 < n <= |bids|
    ensures multiset(bids[..n]) == multiset(bids[..n - 1]) + multiset{bids[n - 1]}
  {
    assert bids[..n] == bids[..n - 1] + [bids[n - 1]];
  }

  lemma {:induction false} SortedIsSorted(bids: seq<Bid>, n: nat)
    requires n <= |bids|
    ensures Ascending(Sorted(bids, n)) && multiset(Sorted(bids, n)) == multiset(bids[..n])
  {
    if n > 0 {
      SortedIsSorted(bids, n - 1);
      InsertedIsSorted(Sorted(bids, n - 1), bids[n - 1]);
      OneMoreBid(bids, n);
    }
  }

  /** Nothing is below the head of a sorted list, and nothing but the head is below the next. */
  lemma HeadAndNext(s: seq<Bid>)
    requires s != [] && Ascending(s)
    ensures forall b :: b in s ==> s[0].amount <= b.amount
    ensures multiset(s) - multiset{s[0]} == multiset(s[1..])
    ensures |s| > 1 ==> s[1] in s[1..] && forall b :: b in s[1..] ==> s[1].amount <= b.amount
  {
    assert s == [s[0]] + s[1..];
    if |s| > 1 { assert s[1] == s[1..][0]; }
  }

  /**
   The lowest bid wins; the price is the lowest of the others, so no more than any losing bid asked and no less than
   the winner's.
   */
  lemma LowestWinsAtTheSecondLowest(bids: seq<Bid>)
    requires bids != []
    ensures Winner(bids) in bids && forall b :: b in bids ==> Winner(bids).amount <= b.amount
    ensures Winner(bids).amount <= ClearingPrice(bids)
    ensures exists b :: b in bids && b.amount == ClearingPrice(bids)
    ensures var others := multiset(bids) - multiset{Winner(bids)};
            && (|bids| == 1 ==> ClearingPrice(bids) == Winner(bids).amount)
            && (|bids| > 1 ==>
                  && (exists b :: b in others && b.amount == ClearingPrice(bids))
                  && forall b :: b in others ==> ClearingPrice(bids) <= b.amount)
  {
    var s := Sorted(bids, |bids|);
    SortedIsSorted(bids, |bids|);
    assert bids[..|bids|] == bids;
    HeadAndNext(s);
    assert s[0] in multiset(bids);
    forall b | b in bids ensures b in s {
      assert b in multiset(s);
    }
    if |bids| > 1 {
      assert s[1] in multiset(s[1..]) && s[1] in multiset(bids);
    }
  }

  /** The close's insertion sort, on a copy of the bids. */
  method CloseAuction(bids: seq<Bid>) returns (winner: Bid, price: int)
    requires bids != []
    ensures winner == Winner(bids) && price == ClearingPrice(bids)
  {
    var a := new Bid[|bids|](i requires 0 <= i < |bids| => bids[i]);
    for i := 0 to |bids|
      invariant a[..i] == Sorted(bids, i) && forall k :: i <= k < |bids| ==> a[k] == bids[k]
    {
      Sink(a, i);
    }
    winner := a[0];
    price := if a.Length >= 2 then a[1].amount else a[0].amount;
  }

  /** The inner loop: the bid at i is exchanged down past every higher one. */
  method Sink(a: array<Bid>, i: nat)
    requires i < a.Length
    modifies a
    ensures a[..i + 1] == Inserted(old(a[..i]), old(a[i]))
    ensures forall k :: i < k < a.Length ==> a[k] == old(a[k])
  {
    ghost var before, x := a[..i], a[i];
    var j := i;
    while j > 0 && a[j].amount < a[j - 1].amount
      invariant j <= i && a[j] == x
      invariant forall k :: 0 <= k < j ==> a[k] == before[k]
      invariant forall k :: j <= k < i ==> a[k + 1] == before[k] && x.amount < before[k].amount
      invariant forall k :: i < k < a.Length ==> a[k] == old(a[k])
    {
      a[j], a[j - 1] := a[j - 1], a[j];
      j := j - 1;
    }
    InsertedAt(before, x, j);
  }
}
