/**
 Ranking for a buy: an in-place exchange sort of scored candidates, and the
 merge of semantic hits with the candidates no embedding exists for yet.
 */
module Ranking {
  type Id = string

  datatype Entry = Entry(id: Id, seller: Id, putAt: int)

  // ----- Top candidates by score -----

  datatype Scored = Scored(entry: Entry, score: real)

  ghost predicate Descending(s: seq<Scored>) {
    forall i, j :: 0 <= i < j < |s| ==> s[i].score >= s[j].score
  }

  const SCORE_REP_WEIGHT := 0.6
  const RECENCY_SECONDS := 30.0 * 24.0 * 3600.0
  const NANOS := 1_000_000_000.0

  /** Reputation out of a hundred, and an age that fades to nothing over thirty days. */
  function Score(reputation: int, putAt: int, now: int): real {
    var recency := 1.0 - ((now - putAt) as real / NANOS) / RECENCY_SECONDS;
    (reputation as real / 100.0) * SCORE_REP_WEIGHT
        + (if recency < 0.0 then 0.0 else recency) * (1.0 - SCORE_REP_WEIGHT)
  }

  /**
   A better reputation or a later put never ranks lower, and scores are never
   negative; one is above one only for a put dated in the future, and a put past
   thirty days counts on reputation alone.
   */
  lemma ScoreIsMonotone(low: int, high: int, older: int, newer: int, now: int)
    requires 0 <= low <= high <= 100 && older <= newer
    ensures 0.0 <= Score(low, older, now) <= Score(high, newer, now)
    ensures Score(100, newer, now) <= 1.0 <==> newer <= now
    ensures newer <= now ==> Score(high, newer, now) <= 1.0
    ensures (now - older) as real >= RECENCY_SECONDS * NANOS ==>
              Score(low, older, now) == low as real / 100.0 * SCORE_REP_WEIGHT
  {
  }

  function ScoreAll(candidates: seq<Entry>, reputation: Id -> int, now: int): (scored: seq<Scored>)
    ensures |scored| == |candidates|
    ensures forall i :: 0 <= i < |scored| ==>
            scored[i] == Scored(candidates[i], Score(reputation(candidates[i].seller), candidates[i].putAt, now))
  {
    seq(|candidates|, i requires 0 <= i < |candidates| =>
      Scored(candidates[i], Score(reputation(candidates[i].seller), candidates[i].putAt, now)))
  }

  /** The settled part is sorted, and nothing after it scores above it. */
  ghost predicate Settled(s: seq<Scored>, n: nat) {
    n <= |s| && forall i, j :: 0 <= i < n && i < j < |s| ==> s[i].score >= s[j].score
  }

  method Exchange(a: array<Scored>, i: nat, j: nat)
    requires i < j < a.Length
    modifies a
    ensures multiset(a[..]) == multiset(old(a[..]))
    ensures a[i] == old(a[j]) && a[j] == old(a[i])
    ensures forall k :: 0 <= k < a.Length && k != i && k != j ==> a[k] == old(a[k])
  {
    a[j], a[i] := a[i], a[j];
  }

  /** The inner loop: whatever scores above place i is exchanged into it. */
  method SettlePlace(a: array<Scored>, i: nat)
    requires i < a.Length && Settled(a[..], i)
    modifies a
    ensures multiset(a[..]) == multiset(old(a[..])) && Settled(a[..], i + 1)
  {
    var j := i + 1;
    while j < a.Length
      invariant i < j <= a.Length
      invariant multiset(a[..]) == multiset(old(a[..]))
      invariant forall p, q :: 0 <= p < i && p < q < a.Length ==> a[p].score >= a[q].score
      invariant forall q :: i < q < j ==> a[i].score >= a[q].score
    {
      if a[j].score > a[i].score {
        Exchange(a, i, j);
      }
      j := j + 1;
    }
  }

  method SortDescending(a: array<Scored>)
    modifies a
    ensures multiset(a[..]) == multiset(old(a[..])) && Descending(a[..])
  {
    var i := 0;
    while i < a.Length
      invariant i <= a.Length && Settled(a[..], i)
      invariant multiset(a[..]) == multiset(old(a[..]))
    {
      SettlePlace(a, i);
      i := i + 1;
    }
  }

  /** The best of a scored list: the head of some descending rearrangement of it. */
  ghost predicate IsTop(scored: seq<Scored>, sorted: seq<Scored>, k: nat, top: seq<Scored>) {
    && multiset(sorted) == multiset(scored) && Descending(sorted)
    && top == sorted[..if k < |sorted| then k else |sorted|]
  }

  /** Nothing left out scores above anything kept, and as many are kept as were asked for. */
  lemma TopOmitsNothingBetter(scored: seq<Scored>, sorted: seq<Scored>, k: nat, top: seq<Scored>, kept: Scored,
        omitted: Scored)
    requires IsTop(scored, sorted, k, top)
    ensures |top| == (if k < |scored| then k else |scored|) && multiset(top) <= multiset(scored) && Descending(top)
    ensures kept in top && multiset(top)[omitted] < multiset(scored)[omitted] ==> kept.score >= omitted.score
  {
    var rest := sorted[|top|..];
    assert sorted == top + rest;
    assert |scored| == |multiset(scored)| == |multiset(sorted)| == |sorted|;
    if kept in top && multiset(top)[omitted] < multiset(scored)[omitted] {
      assert omitted in multiset(rest);
      HeadBeatsRest(sorted, |top|, kept, omitted);
    }
  }

  lemma HeadBeatsRest(sorted: seq<Scored>, k: nat, kept: Scored, omitted: Scored)
    requires Descending(sorted) && k <= |sorted| && kept in sorted[..k] && omitted in sorted[k..]
    ensures kept.score >= omitted.score
  {
  }

  /** The entries of some top of a scored list. */
  ghost predicate Best(scored: seq<Scored>, k: nat, entries: seq<Entry>) {
    exists sorted, top :: IsTop(scored, sorted, k, top) && entries == Entries(top)
  }

  method RankResults(candidates: seq<Entry>, reputation: Id -> int, now: int, max: nat) returns (ranked: seq<Entry>)
    ensures Best(ScoreAll(candidates, reputation, now), max, ranked)
  {
    var a := new Scored[|candidates|](i requires 0 <= i < |candidates| =>
      Scored(candidates[i], Score(reputation(candidates[i].seller), candidates[i].putAt, now)));
    assert a[..] == ScoreAll(candidates, reputation, now);
    SortDescending(a);
    ghost var sorted := a[..];
    var k := if max < a.Length then max else a.Length;
    ranked := [];
    for i := 0 to k
      invariant ranked == Entries(sorted[..i])
      invariant a[..] == sorted
    {
      assert sorted[..i + 1] == sorted[..i] + [a[i]];
      ranked := ranked + [a[i].entry];
    }
    assert IsTop(ScoreAll(candidates, reputation, now), sorted, max, sorted[..k]);
  }

  function Entries(s: seq<Scored>): (entries: seq<Entry>)
    ensures |entries| == |s| && forall i :: 0 <= i < |s| ==> entries[i] == s[i].entry
  {
    seq(|s|, i requires 0 <= i < |s| => s[i].entry)
  }

  // ----- Semantic hits first, then entries no embedding exists for -----

  datatype Hit = Hit(id: Id, confidence: real, similarity: real, partial: bool)

  datatype Ranked = Ranked(entry: Entry, confidence: real, similarity: real, partial: bool, semantic: bool)

  const PARTIAL_MATCH_THRESHOLD := 0.5

  function ById(candidates: seq<Entry>): map<Id, Entry>
    decreases |candidates|
  {
    if candidates == [] then map[]
        else ById(candidates[..|candidates| - 1])[candidates[|candidates| - 1].id := candidates[|candidates| - 1]]
  }

  /** The search results that passed the hard filters, in search order. */
  function Semantic(hits: seq<Hit>, byId: map<Id, Entry>): seq<Ranked>
    decreases |hits|
  {
    if hits == [] then []
    else
      var h := hits[|hits| - 1];
      Semantic(hits[..|hits| - 1], byId) + if h.id in byId
          then [Ranked(byId[h.id], h.confidence, h.similarity, h.partial, true)] else []
  }

  ghost function Covered(semantic: seq<Ranked>): set<Id> {
    set r | r in semantic :: r.entry.id
  }

  /** The candidates the search could not see: no hit, and no embedding that a hit could have come from. */
  ghost function Gaps(candidates: seq<Entry>, covered: set<Id>, embedded: set<Id>): seq<Entry>
    decreases |candidates|
  {
    if candidates == [] then []
    else
      var c := candidates[|candidates| - 1];
      Gaps(candidates[..|candidates| - 1], covered, embedded) + if c.id in covered || c.id in embedded then [] else [c]
  }

  function Fallback(e: Entry, confidence: Entry -> real): Ranked {
    Ranked(e, confidence(e), 0.0, confidence(e) < PARTIAL_MATCH_THRESHOLD, false)
  }

  function Fallbacks(entries: seq<Entry>, confidence: Entry -> real): (ranked: seq<Ranked>)
    ensures |ranked| == |entries| && forall i :: 0 <= i < |entries| ==> ranked[i] == Fallback(entries[i], confidence)
  {
    seq(|entries|, i requires 0 <= i < |entries| => Fallback(entries[i], confidence))
  }

  function Capped(s: seq<Ranked>, max: nat): seq<Ranked> {
    if |s| > max then s[..max] else s
  }

  ghost predicate UniqueIds(s: seq<Entry>) {
    forall i, j :: 0 <= i < j < |s| ==> s[i].id != s[j].id
  }

  ghost predicate UniqueHits(hits: seq<Hit>) {
    forall i, j :: 0 <= i < j < |hits| ==> hits[i].id != hits[j].id
  }

  ghost predicate DistinctRanked(s: seq<Ranked>) {
    forall i, j :: 0 <= i < j < |s| ==> s[i].entry.id != s[j].entry.id
  }

  lemma {:induction false} ByIdFinds(candidates: seq<Entry>)
    ensures forall id :: id in ById(candidates) ==> ById(candidates)[id] in candidates && ById(candidates)[id].id == id
    ensures forall c :: c in candidates ==> c.id in ById(candidates)
    decreases |candidates|
  {
    if candidates != [] {
      var init, last := candidates[..|candidates| - 1], candidates[|candidates| - 1];
      ByIdFinds(init);
      assert candidates == init + [last];
    }
  }

  ghost predicate HitFor(hits: seq<Hit>, r: Ranked) {
    exists h :: h in hits && h.id == r.entry.id
  }

  /** Each semantic entry is a candidate with a hit of its own, and each hit on a candidate is there. */
  lemma {:induction false} SemanticIsHits(hits: seq<Hit>, candidates: seq<Entry>)
    ensures var s := Semantic(hits, ById(candidates));
            && (forall r :: r in s ==> r.semantic && r.entry in candidates && HitFor(hits, r))
            && (forall h :: h in hits && h.id in ById(candidates) ==> h.id in Covered(s))
            && (UniqueHits(hits) ==> DistinctRanked(s))
    decreases |hits|
  {
    ByIdFinds(candidates);
    if hits != [] {
      var init, last := hits[..|hits| - 1], hits[|hits| - 1];
      var byId := ById(candidates);
      SemanticIsHits(init, candidates);
      assert hits == init + [last];
      var before, s := Semantic(init, byId), Semantic(hits, byId);
      forall r | r in s ensures r.semantic && r.entry in candidates && HitFor(hits, r) {
        if r in before {
          var h :| h in init && h.id == r.entry.id;
          assert h in hits;
        } else {
          assert last in hits;
        }
      }
      forall h | h in hits && h.id in byId ensures h.id in Covered(s) {
        if h in init {
          var r :| r in before && r.entry.id == h.id;
          assert r in s;
        } else {
          assert s[|s| - 1] in s;
        }
      }
      if UniqueHits(hits) { NewHitIsDistinct(init, last, before, byId); }
    }
  }

  /** A kept hit is about its own entry and carries its own numbers. */
  predicate Carries(r: Ranked, h: Hit) {
    && r.semantic && r.entry.id == h.id
    && r.confidence == h.confidence && r.similarity == h.similarity && r.partial == h.partial
  }

  /** `at` says which hit each kept entry came from; the hits are taken in the order of the search. */
  ghost predicate InSearchOrder(hits: seq<Hit>, semantic: seq<Ranked>, at: seq<nat>) {
    && |at| == |semantic|
    && (forall i :: 0 <= i < |at| ==> at[i] < |hits| && Carries(semantic[i], hits[at[i]]))
    && (forall i, j :: 0 <= i < j < |at| ==> at[i] < at[j])
  }

  lemma {:induction false} SemanticKeepsOrder(hits: seq<Hit>, candidates: seq<Entry>) returns (at: seq<nat>)
    ensures InSearchOrder(hits, Semantic(hits, ById(candidates)), at)
    decreases |hits|
  {
    at := [];
    if hits != [] {
      ByIdFinds(candidates);
      at := SemanticKeepsOrder(hits[..|hits| - 1], candidates);
      if hits[|hits| - 1].id in ById(candidates) { at := at + [|hits| - 1]; }
    }
  }

  lemma NewHitIsDistinct(init: seq<Hit>, last: Hit, before: seq<Ranked>, byId: map<Id, Entry>)
    requires UniqueHits(init + [last]) && (forall r :: r in before ==> HitFor(init, r))
             && (UniqueHits(init) ==> DistinctRanked(before))
    ensures UniqueHits(init)
    ensures last.id in byId && byId[last.id].id == last.id ==>
              DistinctRanked(before + [Ranked(byId[last.id], last.confidence, last.similarity, last.partial, true)])
  {
    forall i, j | 0 <= i < j < |init| ensures init[i].id != init[j].id {
      assert (init + [last])[i].id != (init + [last])[j].id;
    }
    forall i | 0 <= i < |before| ensures before[i].entry.id != last.id {
      assert before[i] in before;
      var h :| h in init && h.id == before[i].entry.id;
      var k :| 0 <= k < |init| && init[k] == h;
      assert (init + [last])[k].id != (init + [last])[|init|].id;
    }
  }

  lemma {:induction false} GapsAreUnseen(candidates: seq<Entry>, covered: set<Id>, embedded: set<Id>)
    ensures var gaps := Gaps(candidates, covered, embedded);
            && (forall c :: c in gaps <==> c in candidates && c.id !in covered && c.id !in embedded)
            && (UniqueIds(candidates) ==> UniqueIds(gaps))
    decreases |candidates|
  {
    if candidates != [] {
      var init, last := candidates[..|candidates| - 1], candidates[|candidates| - 1];
      GapsAreUnseen(init, covered, embedded);
      assert candidates == init + [last];
      var before := Gaps(init, covered, embedded);
      if UniqueIds(candidates) {
        forall i | 0 <= i < |before| ensures before[i].id != last.id {
          assert before[i] in before && before[i] in init;
        }
      }
    }
  }

  /** What the merged list is, in terms of some best-first choice of the gap candidates. */
  ghost predicate IsMerge(hits: seq<Hit>, candidates: seq<Entry>, embedded: set<Id>, confidence: Entry -> real,
        max: nat,
                          chosen: seq<Entry>, merged: seq<Ranked>) {
    var semantic := Semantic(hits, ById(candidates));
    var gaps := Gaps(candidates, Covered(semantic), embedded);
    && multiset(chosen) <= multiset(gaps) && |chosen| == (if max < |gaps| then max else |gaps|)
    && merged == Capped(semantic + Fallbacks(chosen, confidence), max)
  }

  /** The merge as a whole: the best-scored gap candidates after the semantic hits. */
  ghost predicate Merged(hits: seq<Hit>, candidates: seq<Entry>, embedded: set<Id>, reputation: Id -> int, now: int,
                         confidence: Entry -> real, max: nat, merged: seq<Ranked>) {
    var gaps := Gaps(candidates, Covered(Semantic(hits, ById(candidates))), embedded);
    exists chosen :: Best(ScoreAll(gaps, reputation, now), max, chosen)
                     && IsMerge(hits, candidates, embedded, confidence, max, chosen, merged)
  }

  lemma SubMultisetIsUnique(all: seq<Entry>, part: seq<Entry>)
    requires multiset(part) <= multiset(all) && UniqueIds(all)
    ensures UniqueIds(part) && forall e :: e in part ==> e in all
  {
    forall e | e in part ensures e in all {
      assert multiset(part)[e] > 0;
    }
    forall i, j | 0 <= i < j < |part| ensures part[i].id != part[j].id {
      if part[i].id == part[j].id {
        assert part[i] in all && part[j] in all;
        assert part[i] == part[j];
        TwiceIn(part, i, j);
        OnceIn(all, part[i]);
      }
    }
  }

  lemma TwiceIn(s: seq<Entry>, i: nat, j: nat)
    requires i < j < |s| && s[i] == s[j]
    ensures multiset(s)[s[i]] >= 2
  {
    assert s == s[..i] + [s[i]] + s[i + 1..j] + [s[j]] + s[j + 1..];
  }

  lemma {:induction false} OnceIn(s: seq<Entry>, e: Entry)
    requires UniqueIds(s)
    ensures multiset(s)[e] <= 1
    decreases |s|
  {
    if s != [] {
      var init, last := s[..|s| - 1], s[|s| - 1];
      assert s == init + [last];
      OnceIn(init, e);
      if e == last {
        assert e !in init;
      }
    }
  }

  /** What the merged list says of each entry, and in which order, whatever it was cut to. */
  ghost predicate RankedRightly(hits: seq<Hit>, confidence: Entry -> real, merged: seq<Ranked>) {
    && (forall i :: 0 <= i < |merged| && merged[i].semantic ==> exists h :: h in hits && Carries(merged[i], h))
    && (forall i, j, p, q | 0 <= i < j < |merged| && 0 <= p < |hits| && 0 <= q < |hits| ::
          merged[j].semantic && hits[p].id == merged[i].entry.id && hits[q].id == merged[j].entry.id ==> p < q)
    && (forall r :: r in merged && !r.semantic ==>
          && r.confidence == confidence(r.entry) && r.similarity == 0.0
          && (r.partial <==> r.confidence < PARTIAL_MATCH_THRESHOLD))
  }

  /** Semantic hits keep the order and the numbers of the search; the rest carry the confidence computed for them. */
  lemma MergeKeepsSearchOrder(hits: seq<Hit>, candidates: seq<Entry>, embedded: set<Id>, confidence: Entry -> real,
                              max: nat, chosen: seq<Entry>, merged: seq<Ranked>)
    requires UniqueHits(hits) && IsMerge(hits, candidates, embedded, confidence, max, chosen, merged)
    ensures RankedRightly(hits, confidence, merged)
  {
    var semantic := Semantic(hits, ById(candidates));
    var whole := semantic + Fallbacks(chosen, confidence);
    var at := SemanticKeepsOrder(hits, candidates);
    assert forall i :: 0 <= i < |merged| ==> merged[i] == whole[i];
    forall i | 0 <= i < |merged| && merged[i].semantic
      ensures i < |semantic| && hits[at[i]] in hits && Carries(merged[i], hits[at[i]]) { }
    forall i, j, p, q | 0 <= i < j < |merged| && merged[j].semantic && 0 <= p < |hits| && 0 <= q < |hits|
                        && hits[p].id == merged[i].entry.id && hits[q].id == merged[j].entry.id
      ensures p < q {
      assert at[i] == p && at[j] == q;
    }
  }

  /**
   The merged list holds no entry twice and no more than was asked for; all are
   candidates; semantic hits come first, in search order and with the search's
   own numbers; an embedded entry the search left out
   never comes back; and nothing eligible is missing unless the list is full.
   */
  lemma MergeIsSound(hits: seq<Hit>, candidates: seq<Entry>, embedded: set<Id>, reputation: Id -> int, now: int,
                     confidence: Entry -> real, max: nat, merged: seq<Ranked>)
    requires UniqueIds(candidates) && UniqueHits(hits)
             && Merged(hits, candidates, embedded, reputation, now, confidence, max, merged)
    ensures |merged| <= max && DistinctRanked(merged)
    ensures forall r :: r in merged ==> r.entry in candidates
    ensures forall i, j :: 0 <= i < j < |merged| && merged[j].semantic ==> merged[i].semantic
    ensures RankedRightly(hits, confidence, merged)
    ensures forall r :: r in merged && r.entry.id in embedded ==> r.semantic && HitFor(hits, r)
    ensures forall c :: c in candidates && |merged| < max && (c.id !in embedded || c.id in Covered(Semantic(hits,
            ById(candidates)))) ==>
              exists r :: r in merged && r.entry.id == c.id
  {
    var chosen :| Best(ScoreAll(Gaps(candidates, Covered(Semantic(hits, ById(candidates))), embedded), reputation, now),
        max, chosen)
                  && IsMerge(hits, candidates, embedded, confidence, max, chosen, merged);
    MergeOfChosen(hits, candidates, embedded, confidence, max, chosen, merged);
    MergeKeepsSearchOrder(hits, candidates, embedded, confidence, max, chosen, merged);
  }

  lemma MergeOfChosen(hits: seq<Hit>, candidates: seq<Entry>, embedded: set<Id>, confidence: Entry -> real, max: nat,
                      chosen: seq<Entry>, merged: seq<Ranked>)
    requires UniqueIds(candidates) && UniqueHits(hits)
             && IsMerge(hits, candidates, embedded, confidence, max, chosen, merged)
    ensures |merged| <= max && DistinctRanked(merged)
    ensures forall r :: r in merged ==> r.entry in candidates
    ensures forall i, j :: 0 <= i < j < |merged| && merged[j].semantic ==> merged[i].semantic
    ensures forall r :: r in merged && r.entry.id in embedded ==> r.semantic && HitFor(hits, r)
    ensures forall c :: c in candidates && |merged| < max && (c.id !in embedded || c.id in Covered(Semantic(hits,
            ById(candidates)))) ==>
              exists r :: r in merged && r.entry.id == c.id
  {
    var semantic := Semantic(hits, ById(candidates));
    var gaps := Gaps(candidates, Covered(semantic), embedded);
    var whole := semantic + Fallbacks(chosen, confidence);
    SemanticIsHits(hits, candidates);
    GapsAreUnseen(candidates, Covered(semantic), embedded);
    SubMultisetIsUnique(gaps, chosen);
    WholeIsDistinct(semantic, chosen, confidence);
    assert forall i :: 0 <= i < |merged| ==> merged[i] == whole[i];
    forall r | r in merged ensures r.entry in candidates && (r.entry.id in embedded ==> r.semantic && HitFor(hits, r)) {
      var i :| 0 <= i < |merged| && merged[i] == r;
      if i < |semantic| { assert r in semantic; } else { assert chosen[i - |semantic|] in chosen && r.entry in gaps; }
    }
    if |merged| < max { UnlessFull(candidates, embedded, semantic, gaps, chosen, confidence, max, merged); }
  }

  lemma WholeIsDistinct(semantic: seq<Ranked>, chosen: seq<Entry>, confidence: Entry -> real)
    requires DistinctRanked(semantic) && UniqueIds(chosen) && forall e :: e in chosen ==> e.id !in Covered(semantic)
    ensures DistinctRanked(semantic + Fallbacks(chosen, confidence))
  {
  }

  lemma UnlessFull(candidates: seq<Entry>, embedded: set<Id>, semantic: seq<Ranked>, gaps: seq<Entry>,
        chosen: seq<Entry>,
                   confidence: Entry -> real, max: nat, merged: seq<Ranked>)
    requires forall c :: c in gaps <==> c in candidates && c.id !in Covered(semantic) && c.id !in embedded
    requires multiset(chosen) <= multiset(gaps) && |chosen| == (if max < |gaps| then max else |gaps|)
    requires merged == Capped(semantic + Fallbacks(chosen, confidence), max) && |merged| < max
    ensures forall c :: c in candidates && (c.id !in embedded || c.id in Covered(semantic)) ==>
            exists r :: r in merged && r.entry.id == c.id
  {
    assert merged == semantic + Fallbacks(chosen, confidence);
    assert |multiset(chosen)| == |multiset(gaps)|;
    SameSizeSameElements(chosen, gaps);
    forall c | c in candidates && (c.id !in embedded || c.id in Covered(semantic))
      ensures exists r :: r in merged && r.entry.id == c.id {
      if c.id in Covered(semantic) {
        var r :| r in semantic && r.entry.id == c.id;
        assert r in merged;
      } else {
        assert c in gaps && c in chosen;
        var i :| 0 <= i < |chosen| && chosen[i] == c;
        assert merged[|semantic| + i] == Fallback(c, confidence);
      }
    }
  }

  lemma SameSizeSameElements(part: seq<Entry>, all: seq<Entry>)
    requires multiset(part) <= multiset(all) && |part| == |all|
    ensures forall e :: e in all ==> e in part
  {
    var rest := multiset(all) - multiset(part);
    assert multiset(all) == multiset(part) + rest;
    assert |multiset(all)| == |all| && |multiset(part)| == |part|;
    assert rest == multiset{};
    forall e | e in all ensures e in part {
      assert e in multiset(all);
    }
  }

  lemma EntriesOfTwo(s: seq<Scored>, t: seq<Scored>)
    ensures Entries(s + t) == Entries(s) + Entries(t)
  {
  }

  function Without(s: seq<Scored>, k: nat): seq<Scored>
    requires k < |s|
  {
    s[..k] + s[k + 1..]
  }

  lemma WithoutOne(s: seq<Scored>, k: nat)
    requires k < |s|
    ensures multiset(Without(s, k)) == multiset(s) - multiset{s[k]}
    ensures multiset(Entries(s)) == multiset(Entries(Without(s, k))) + multiset{s[k].entry}
  {
    assert s == s[..k] + [s[k]] + s[k + 1..];
    var entries := Entries(s);
    assert entries == entries[..k] + [entries[k]] + entries[k + 1..];
    assert Entries(Without(s, k)) == entries[..k] + entries[k + 1..];
  }

  /** Rearranging scored entries rearranges the entries. */
  lemma {:induction false} EntriesRearranged(s: seq<Scored>, t: seq<Scored>)
    requires multiset(s) == multiset(t)
    ensures multiset(Entries(s)) == multiset(Entries(t))
    decreases |s|
  {
    assert |s| == |multiset(s)| == |multiset(t)| == |t|;
    if s != [] {
      assert s[0] in multiset(t);
      var k :| 0 <= k < |t| && t[k] == s[0];
      WithoutOne(s, 0);
      WithoutOne(t, k);
      EntriesRearranged(Without(s, 0), Without(t, k));
    }
  }

  lemma ChosenAreGaps(gaps: seq<Entry>, scored: seq<Scored>, sorted: seq<Scored>, max: nat, top: seq<Scored>)
    requires Entries(scored) == gaps && IsTop(scored, sorted, max, top)
    ensures multiset(Entries(top)) <= multiset(gaps) && |top| == if max < |gaps| then max else |gaps|
  {
    assert |scored| == |multiset(scored)| == |multiset(sorted)| == |sorted|;
    EntriesRearranged(sorted, scored);
    EntriesOfTwo(top, sorted[|top|..]);
    assert sorted == top + sorted[|top|..];
  }

  lemma BestAreGaps(gaps: seq<Entry>, scored: seq<Scored>, max: nat, chosen: seq<Entry>)
    requires Entries(scored) == gaps && Best(scored, max, chosen)
    ensures multiset(chosen) <= multiset(gaps) && |chosen| == if max < |gaps| then max else |gaps|
  {
    var sorted, top :| IsTop(scored, sorted, max, top) && chosen == Entries(top);
    ChosenAreGaps(gaps, scored, sorted, max, top);
  }

  // ----- The merge as it runs -----

  method SemanticMatches(hits: seq<Hit>, candidates: seq<Entry>) returns (matches: seq<Ranked>)
    ensures matches == Semantic(hits, ById(candidates))
  {
    var candidateSet := map[];
    for i := 0 to |candidates|
      invariant candidateSet == ById(candidates[..i])
    {
      assert candidates[..i + 1][..i] == candidates[..i];
      candidateSet := candidateSet[candidates[i].id := candidates[i]];
    }
    assert candidates[..|candidates|] == candidates;
    matches := [];
    for i := 0 to |hits|
      invariant matches == Semantic(hits[..i], candidateSet)
    {
      assert hits[..i + 1][..i] == hits[..i];
      var h := hits[i];
      if h.id in candidateSet {
        matches := matches + [Ranked(candidateSet[h.id], h.confidence, h.similarity, h.partial, true)];
      }
    }
    assert hits[..|hits|] == hits;
  }

  method FallbackCandidates(candidates: seq<Entry>, matches: seq<Ranked>, embedded: set<Id>) returns (gaps: seq<Entry>)
    ensures gaps == Gaps(candidates, Covered(matches), embedded)
  {
    var covered: set<Id> := {};
    for i := 0 to |matches|
      invariant covered == Covered(matches[..i])
    {
      assert matches[..i + 1] == matches[..i] + [matches[i]];
      covered := covered + {matches[i].entry.id};
    }
    assert matches[..|matches|] == matches;
    gaps := [];
    for i := 0 to |candidates|
      invariant gaps == Gaps(candidates[..i], covered, embedded)
    {
      assert candidates[..i + 1][..i] == candidates[..i];
      var c := candidates[i];
      if c.id !in covered && c.id !in embedded {
        gaps := gaps + [c];
      }
    }
    assert candidates[..|candidates|] == candidates;
  }

  /** mergeSemanticAndFallback, over what the index returned for the task. */
  method MergeSemanticAndFallback(hits: seq<Hit>, embedded: set<Id>, candidates: seq<Entry>, max: nat,
                                  reputation: Id -> int, now: int, confidence: Entry -> real)
    returns (merged: seq<Ranked>)
    ensures Merged(hits, candidates, embedded, reputation, now, confidence, max, merged)
  {
    merged := SemanticMatches(hits, candidates);
    ghost var semantic := merged;
    var gaps := FallbackCandidates(candidates, merged, embedded);
    var ranked := RankResults(gaps, reputation, now, max);
    BestAreGaps(gaps, ScoreAll(gaps, reputation, now), max, ranked);
    for i := 0 to |ranked|
      invariant merged == semantic + Fallbacks(ranked[..i], confidence)
    {
      var conf := confidence(ranked[i]);
      merged := merged + [Ranked(ranked[i], conf, 0.0, conf < PARTIAL_MATCH_THRESHOLD, false)];
    }
    assert ranked[..|ranked|] == ranked;
    if |merged| > max {
      merged := merged[..max];
    }
    assert IsMerge(hits, candidates, embedded, confidence, max, ranked, merged);
  }
}
