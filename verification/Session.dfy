/**
 A buyer's recent settlements: a slice pruned in place over its own backing
 array, then appended to and cut to its last ten.  It stands for the whole
 history of the buyer's settlements seen through a one-hour window.
 */
module Session {
  type Id = string

  const BUYER_SESSION_WINDOW := 3600
  const MAX_BUYER_SESSION := 10

  datatype Settlement = Settlement(entry: Id, at: int)

  /** The settlements strictly after the cutoff among the first n, in order. */
  function AfterUpTo(s: seq<Settlement>, n: nat, cutoff: int): (kept: seq<Settlement>)
    requires n <= |s|
    ensures |kept| <= n
  {
    if n == 0 then []
    else if s[n - 1].at > cutoff then AfterUpTo(s, n - 1, cutoff) + [s[n - 1]]
    else AfterUpTo(s, n - 1, cutoff)
  }

  function After(s: seq<Settlement>, cutoff: int): (kept: seq<Settlement>)
    ensures |kept| <= |s|
  {
    AfterUpTo(s, |s|, cutoff)
  }

  function LastTen(s: seq<Settlement>): seq<Settlement> {
    if |s| > MAX_BUYER_SESSION then s[|s| - MAX_BUYER_SESSION..] else s
  }

  /** recordBuyerSettlement on the list alone. */
  function Recorded(list: seq<Settlement>, e: Settlement): seq<Settlement> {
    LastTen(After(list, e.at - BUYER_SESSION_WINDOW) + [e])
  }

  /** The list after the first n settlements of a history. */
  function Kept(history: seq<Settlement>, n: nat): seq<Settlement>
    requires n <= |history|
  {
    if n == 0 then [] else Recorded(Kept(history, n - 1), history[n - 1])
  }

  /** What the list is for: the last ten of all settlements inside the window that ends with the newest. */
  function Window(history: seq<Settlement>, n: nat): seq<Settlement>
    requires n <= |history|
  {
    if n == 0 then [] else LastTen(AfterUpTo(history, n, history[n - 1].at - BUYER_SESSION_WINDOW))
  }

  /** Settlement times are read one at a time under the list's lock from a clock that never goes back. */
  predicate Monotone(s: seq<Settlement>) {
    forall i, j :: 0 <= i < j < |s| ==> s[i].at <= s[j].at
  }

  // ----- The bounded list refines the full history -----

  /** In time order, the settlements after a cutoff are a tail. */
  lemma {:induction false} TailUpTo(s: seq<Settlement>, n: nat, cutoff: int) returns (k: nat)
    requires Monotone(s) && n <= |s|
    ensures k <= n && AfterUpTo(s, n, cutoff) == s[k..n]
    ensures forall i :: 0 <= i < n ==> (s[i].at > cutoff <==> i >= k)
  {
    if n == 0 {
      k := 0;
    } else {
      k := TailUpTo(s, n - 1, cutoff);
      if s[n - 1].at > cutoff {
        assert s[k..n - 1] + [s[n - 1]] == s[k..n];
      } else {
        k := n;
      }
    }
  }

  lemma AfterIsTail(s: seq<Settlement>, cutoff: int) returns (k: nat)
    requires Monotone(s)
    ensures k <= |s| && After(s, cutoff) == s[k..]
    ensures forall i :: 0 <= i < |s| ==> (s[i].at > cutoff <==> i >= k)
  {
    k := TailUpTo(s, |s|, cutoff);
  }

  function Max(a: nat, b: nat): nat {
    if a >= b then a else b
  }

  /** Pruning a stretch of the history keeps what is past both its start and the cutoff. */
  lemma AfterOfStretch(s: seq<Settlement>, lo: nat, hi: nat, cutoff: int, k: nat)
    requires Monotone(s) && lo <= hi <= |s| && k <= hi && forall i :: 0 <= i < hi ==> (s[i].at > cutoff <==> i >= k)
    ensures After(s[lo..hi], cutoff) == s[Max(lo, k)..hi]
  {
    var part := s[lo..hi];
    var j := AfterIsTail(part, cutoff);
    var from := Max(lo, k) - lo;
    forall i | 0 <= i < |part| ensures part[i].at > cutoff <==> i >= from {
      assert part[i] == s[lo + i];
    }
    CutIsUnique(part, cutoff, j, from);
  }

  lemma CutIsUnique(s: seq<Settlement>, cutoff: int, i: nat, j: nat)
    requires i <= |s| && forall n :: 0 <= n < |s| ==> (s[n].at > cutoff <==> n >= i)
    requires j <= |s| && forall n :: 0 <= n < |s| ==> (s[n].at > cutoff <==> n >= j)
    ensures i == j
  {
    assert i < |s| ==> s[i].at > cutoff;
    assert j < |s| ==> s[j].at > cutoff;
  }

  function TenBefore(n: nat): nat {
    if n > MAX_BUYER_SESSION then n - MAX_BUYER_SESSION else 0
  }

  lemma LastTenOfStretch(s: seq<Settlement>, lo: nat, hi: nat)
    requires lo <= hi <= |s|
    ensures LastTen(s[lo..hi]) == s[Max(lo, TenBefore(hi))..hi]
  {
  }

  /** One settlement later, the stretch kept starts where the newest window does. */
  lemma RecordedStretch(s: seq<Settlement>, lo: nat, n: nat, k: nat)
    requires Monotone(s) && lo <= n < |s| && k <= n
    requires forall i :: 0 <= i < n ==> (s[i].at > s[n].at - BUYER_SESSION_WINDOW <==> i >= k)
    ensures Recorded(s[lo..n], s[n]) == s[Max(Max(lo, k), TenBefore(n + 1))..n + 1]
  {
    var from := Max(lo, k);
    AfterOfStretch(s, lo, n, s[n].at - BUYER_SESSION_WINDOW, k);
    assert s[from..n] + [s[n]] == s[from..n + 1];
    LastTenOfStretch(s, from, n + 1);
  }

  /** Where the window that ends at settlement n - 1 begins in time. */
  ghost predicate InWindowFrom(history: seq<Settlement>, n: nat, k: nat)
    requires 0 < n <= |history|
  {
    k < n && forall i :: 0 <= i < n ==> (history[i].at > history[n - 1].at - BUYER_SESSION_WINDOW <==> i >= k)
  }

  lemma WindowIsStretch(history: seq<Settlement>, n: nat) returns (k: nat)
    requires Monotone(history) && 0 < n <= |history|
    ensures InWindowFrom(history, n, k) && Window(history, n) == history[Max(k, TenBefore(n))..n]
  {
    k := TailUpTo(history, n, history[n - 1].at - BUYER_SESSION_WINDOW);
    LastTenOfStretch(history, k, n);
  }

  lemma NextStretch(history: seq<Settlement>, n: nat, before: nat, k: nat)
    requires Monotone(history) && 2 <= n <= |history| && InWindowFrom(history, n - 1, before)
             && InWindowFrom(history, n, k)
    ensures Recorded(history[Max(before, TenBefore(n - 1))..n - 1], history[n - 1]) == history[Max(k, TenBefore(n))..n]
  {
    assert before <= k by {
      assert k < n - 1 ==> history[k].at > history[n - 2].at - BUYER_SESSION_WINDOW;
    }
    var from := Max(before, TenBefore(n - 1));
    RecordedStretch(history, from, n - 1, k);
    assert Max(Max(from, k), TenBefore(n)) == Max(k, TenBefore(n));
  }

  /** The list and the window are the same stretch of the history. */
  lemma {:induction false} KeptIsStretch(history: seq<Settlement>, n: nat) returns (k: nat)
    requires Monotone(history) && 0 < n <= |history|
    ensures InWindowFrom(history, n, k) && Kept(history, n) == history[Max(k, TenBefore(n))..n] == Window(history, n)
  {
    k := WindowIsStretch(history, n);
    if n == 1 {
      assert Kept(history, 0) == [];
      RecordedFirst(history[0]);
      assert Kept(history, 1) == [history[0]];
    } else {
      var before := KeptIsStretch(history, n - 1);
      NextStretch(history, n, before, k);
      assert Kept(history, n) == Recorded(Kept(history, n - 1), history[n - 1]);
    }
  }

  /** With a clock that never goes back, after every settlement the list is exactly the window on the full history. */
  lemma KeptIsWindow(history: seq<Settlement>, n: nat)
    requires Monotone(history) && n <= |history|
    ensures Kept(history, n) == Window(history, n)
  {
    if n > 0 { var _ := KeptIsStretch(history, n); }
  }

  lemma RecordedFirst(x: Settlement)
    ensures Recorded([], x) == [x]
  {
  }

  // ----- The slice -----

  /** One buyer's recent entries: a view of `length` elements at `offset` into a backing array it owns. */
  class RecentEntries {
    var backing: array<Settlement>
    var offset: nat
    var length: nat

    ghost predicate Valid()
      reads this
    {
      offset + length <= backing.Length
    }

    ghost function View(): seq<Settlement>
      reads this, backing
      requires Valid()
    {
      backing[offset..offset + length]
    }

    constructor ()
      ensures Valid() && fresh(backing) && View() == []
    {
      backing, offset, length := new Settlement[0], 0, 0;
    }

    method Prune(cutoff: int)
      requires Valid()
      modifies `length, backing
      ensures Valid() && View() == After(old(View()), cutoff)
    {
      length := PruneInPlace(backing, offset, length, cutoff);
    }

    /** Append in place while the backing array has room, else move to a larger one. */
    method Append(e: Settlement)
      requires Valid()
      modifies this, backing
      ensures Valid() && View() == old(View()) + [e]
      ensures backing == old(backing) || fresh(backing)
    {
      if offset + length == backing.Length {
        backing := Grown(backing, offset, length, e);
        offset := 0;
      }
      backing[offset + length] := e;
      length := length + 1;
    }

    /** valid = valid[len(valid)-10:] moves the view, not the elements. */
    method Bound()
      requires Valid()
      modifies `offset, `length
      ensures Valid() && View() == LastTen(old(View()))
    {
      if length > MAX_BUYER_SESSION {
        offset, length := offset + (length - MAX_BUYER_SESSION), MAX_BUYER_SESSION;
      }
    }

    method PruneAndPair(entry: Id, cutoff: int) returns (pairs: seq<(Id, Id)>)
      requires Valid()
      modifies `length, backing
      ensures Valid() && View() == After(old(View()), cutoff) && pairs == Paired(View(), entry)
    {
      Prune(cutoff);
      pairs := PairUp(backing, offset, length, entry);
    }

    method AppendBounded(e: Settlement)
      requires Valid()
      modifies this, backing
      ensures Valid() && View() == LastTen(old(View()) + [e])
      ensures backing == old(backing) || fresh(backing)
    {
      Append(e);
      Bound();
    }

    /** recordBuyerSettlement: prune, pair the newcomer with every survivor, append, and keep the last ten. */
    method Record(entry: Id, now: int) returns (pairs: seq<(Id, Id)>)
      requires Valid()
      modifies this, backing
      ensures Valid() && (backing == old(backing) || fresh(backing))
      ensures View() == Recorded(old(View()), Settlement(entry, now))
      ensures pairs == Paired(After(old(View()), now - BUYER_SESSION_WINDOW), entry)
    {
      pairs := PruneAndPair(entry, now - BUYER_SESSION_WINDOW);
      AppendBounded(Settlement(entry, now));
    }
  }

  /** The co-occurrence updates: every survivor with the newcomer. */
  function Paired(survivors: seq<Settlement>, entry: Id): (pairs: seq<(Id, Id)>)
    ensures |pairs| == |survivors| && forall i :: 0 <= i < |pairs| ==> pairs[i] == (survivors[i].entry, entry)
  {
    seq(|survivors|, i requires 0 <= i < |survivors| => (survivors[i].entry, entry))
  }

  method PairUp(a: array<Settlement>, offset: nat, length: nat, entry: Id) returns (pairs: seq<(Id, Id)>)
    requires offset + length <= a.Length
    ensures pairs == Paired(a[offset..offset + length], entry)
  {
    pairs := [];
    for i := 0 to length
      invariant |pairs| == i && forall j :: 0 <= j < i ==> pairs[j] == (a[offset + j].entry, entry)
    {
      pairs := pairs + [(a[offset + i].entry, entry)];
    }
  }

  /** valid := prior[:0], and every survivor appended over elements already read. */
  method PruneInPlace(a: array<Settlement>, offset: nat, length: nat, cutoff: int) returns (kept: nat)
    requires offset + length <= a.Length
    modifies a
    ensures kept <= length && a[offset..offset + kept] == After(old(a[offset..offset + length]), cutoff)
  {
    ghost var prior := a[offset..offset + length];
    kept := 0;
    ghost var survivors: seq<Settlement> := [];
    for i := 0 to length
      invariant kept <= i && a[offset..offset + kept] == survivors
      invariant forall j :: offset + i <= j < offset + length ==> a[j] == prior[j - offset]
      invariant survivors == AfterUpTo(prior, i, cutoff)
    {
      survivors := AfterUpTo(prior, i + 1, cutoff);
      if a[offset + i].at > cutoff {
        Keep(a, offset, kept, i, prior[i]);
        kept := kept + 1;
      }
    }
  }

  /** One survivor moves down to the end of the kept part. */
  method Keep(a: array<Settlement>, offset: nat, kept: nat, i: nat, ghost e: Settlement)
    requires kept <= i && offset + i < a.Length && a[offset + i] == e
    modifies a
    ensures a[offset..offset + kept + 1] == old(a[offset..offset + kept]) + [e]
    ensures forall j :: offset + i < j < a.Length ==> a[j] == old(a[j])
  {
    a[offset + kept] := a[offset + i];
  }

  method Grown(a: array<Settlement>, offset: nat, length: nat, fill: Settlement) returns (b: array<Settlement>)
    requires offset + length <= a.Length
    ensures fresh(b) && b.Length > length && b[..length] == a[offset..offset + length]
  {
    b := new Settlement[2 * length + 1](_ => fill);
    for i := 0 to length
      invariant forall j :: 0 <= j < i ==> b[j] == a[offset + j]
    {
      b[i] := a[offset + i];
    }
  }
}
