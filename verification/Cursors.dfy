/**
 The fold and dispatch cursors of the operator engine.

 One append-only log is folded into State and dispatched by several goroutines:
 the poll loop, operator rebuilds, socket ingests, operator appends and relay
 appends.  A `Machine` is one global state; a `Step` is one atomic action of one
 goroutine.  Only what happens inside one hold of `localMu` is atomic, and a
 hold that does several visible things (an ingest's fold, a rebuild's windowed
 replay) is split into several steps with `lock` recording the holder.
 */
module Cursors {
  import opened ReplayWindow

  type Key = string

  datatype Record = Record(id: string, sender: Key)

  /** The poll loop is one self-serialized goroutine; rebuilds and ingests are any number of others. */
  datatype Tid = Poll | Worker(n: nat)

  /** What a goroutine carries between its steps. Snapshots are prefixes of the log, so a length names one. */
  datatype Local =
    | Snapshot(total: nat)                       // Replay() captured outside localMu
    | Folding(next: nat, total: nat, start: nat) // poll only: applies [next..total), then dispatches [start..total)
    | Dispatching(next: nat, total: nat)         // still to dispatch [next..total)

  /** The holder of localMu between the steps of one hold. */
  datatype Lock =
    | Free
    | Appended(t: Tid)                           // ingest: record appended, Replay() not yet taken
    | Applying(t: Tid, next: nat, total: nat)    // ingest: applies [next..total)
    | Replaying(t: Tid, next: nat, total: nat)   // rebuild: re-folds [next..total); next == 0 means not yet reset

  datatype Machine = Machine(
    operatorKey: Key,
    startup: nat,                // the cursor seeded by Start
    log: seq<Record>,
    seen: nat,                   // localSeen
    dispatched: nat,             // localDispatched
    state: set<nat>,             // log positions folded into State
    lock: Lock,
    threads: map<Tid, Local>,
    owner: map<nat, Tid>,        // history: which goroutine claimed a position for dispatch
    delivered: multiset<nat>,    // history: positions handed to dispatch()
    everFolded: set<nat>)        // history: positions that were in State at some time

  datatype Step =
    | RelayAppend(recs: seq<Record>)  // BatchAppend, takes the store mutex only
    | OperatorAppend(rec: Record)     // appendLocalRecord
    | SelfApply(p: nat)               // an emitter applies its own record early
    | Capture(t: Tid)                 // Replay() outside localMu
    | PollClaim
    | PollApply
    | PollFolded
    | RebuildEnter(n: nat)
    | RebuildWindow(upTo: nat)        // one locked window of State.Replay
    | RebuildLeave
    | IngestAppend(n: nat, rec: Record)
    | IngestReplay
    | IngestApply
    | IngestLeave
    | Dispatch(t: Tid)
    | Finish(t: Tid)

  /** An operator-self-applied record is folded but never dispatched. An empty key suppresses nothing. */
  predicate OperatorRecord(operatorKey: Key, r: Record) {
    operatorKey != "" && r.sender == operatorKey
  }

  function Range(lo: nat, hi: nat): (ps: set<nat>)
    ensures forall p :: p in ps <==> lo <= p < hi
    decreases hi - lo
  {
    if hi <= lo then {} else {lo} + Range(lo + 1, hi)
  }

  function Max(a: nat, b: nat): nat {
    if a < b then b else a
  }

  function FoldPositions(m: Machine, ps: set<nat>): Machine {
    m.(state := m.state + ps, everFolded := m.everFolded + ps)
  }

  /** claimDispatchGap: advance the dispatch cursor monotonically; the caller gets [old cursor..total). */
  function Claim(m: Machine, t: Tid, total: nat): Machine {
    m.(dispatched := Max(m.dispatched, total),
       owner := m.owner + (map p | p in Range(m.dispatched, total) :: t))
  }

  predicate Enabled(m: Machine, step: Step) {
    match step
    case RelayAppend(_) => true
    case OperatorAppend(_) => m.lock.Free?
    case SelfApply(p) => p < |m.log|
    case Capture(t) => t !in m.threads && (m.lock.Free? || m.lock.t != t)
    case PollClaim => m.lock.Free? && Poll in m.threads && m.threads[Poll].Snapshot?
    case PollApply => Poll in m.threads && m.threads[Poll].Folding? && m.threads[Poll].next < m.threads[Poll].total
    case PollFolded => Poll in m.threads && m.threads[Poll].Folding? && m.threads[Poll].total <= m.threads[Poll].next
    case RebuildEnter(n) => m.lock.Free? && Worker(n) in m.threads && m.threads[Worker(n)].Snapshot?
    case RebuildWindow(k) => m.lock.Replaying? && m.lock.next < k <= m.lock.total
    case RebuildLeave => m.lock.Replaying? && m.lock.next == m.lock.total
    case IngestAppend(n, _) => m.lock.Free? && Worker(n) !in m.threads
    case IngestReplay => m.lock.Appended?
    case IngestApply => m.lock.Applying? && m.lock.next < m.lock.total
    case IngestLeave => m.lock.Applying? && m.lock.next == m.lock.total
    case Dispatch(t) => t in m.threads && m.threads[t].Dispatching? && m.threads[t].next < m.threads[t].total <= |m.log|
    case Finish(t) => t in m.threads && m.threads[t].Dispatching? && m.threads[t].total <= m.threads[t].next
  }

  // What each step does. Each function is one atomic action of the code it is named after.

  function PollClaimed(m: Machine): Machine
    requires Enabled(m, PollClaim)
  {
    var total := m.threads[Poll].total;
    Claim(m, Poll, total).(seen := Max(m.seen, total),
                           threads := m.threads[Poll := Folding(m.seen, total, m.dispatched)])
  }

  function PollApplied(m: Machine): Machine
    requires Enabled(m, PollApply)
  {
    var l := m.threads[Poll];
    FoldPositions(m, {l.next}).(threads := m.threads[Poll := Folding(l.next + 1, l.total, l.start)])
  }

  function PollAllFolded(m: Machine): Machine
    requires Enabled(m, PollFolded)
  {
    var l := m.threads[Poll];
    m.(threads := m.threads[Poll := Dispatching(l.start, l.total)])
  }

  /** The grow guard: only a snapshot longer than localSeen resets and re-folds State. */
  function RebuildEntered(m: Machine, n: nat): Machine
    requires Enabled(m, RebuildEnter(n))
  {
    var total := m.threads[Worker(n)].total;
    m.(seen := Max(m.seen, total),
       threads := m.threads - {Worker(n)},
       lock := Replaying(Worker(n), if total > m.seen then 0 else total, total))
  }

  function RebuildWindowed(m: Machine, upTo: nat): Machine
    requires Enabled(m, RebuildWindow(upTo))
  {
    var reset := if m.lock.next == 0 then m.(state := {}) else m;
    FoldPositions(reset, Range(m.lock.next, upTo)).(lock := Replaying(m.lock.t, upTo, m.lock.total))
  }

  function IngestAppended(m: Machine, n: nat, rec: Record): Machine
    requires Enabled(m, IngestAppend(n, rec))
  {
    m.(log := m.log + [rec], lock := Appended(Worker(n)))
  }

  function IngestReplayed(m: Machine): Machine
    requires Enabled(m, IngestReplay)
  {
    m.(seen := Max(m.seen, |m.log|), lock := Applying(m.lock.t, m.seen, |m.log|))
  }

  function IngestApplied(m: Machine): Machine
    requires Enabled(m, IngestApply)
  {
    FoldPositions(m, {m.lock.next}).(lock := Applying(m.lock.t, m.lock.next + 1, m.lock.total))
  }

  /** The end of a rebuild's or an ingest's hold of localMu: claim the dispatch gap, release. */
  function ClaimAndUnlock(m: Machine): Machine
    requires m.lock.Replaying? || m.lock.Applying?
  {
    Claim(m, m.lock.t, m.lock.total).(
      lock := Free, threads := m.threads[m.lock.t := Dispatching(m.dispatched, m.lock.total)])
  }

  function Dispatched(m: Machine, t: Tid): Machine
    requires Enabled(m, Dispatch(t))
  {
    var l := m.threads[t];
    m.(threads := m.threads[t := Dispatching(l.next + 1, l.total)],
       delivered := if OperatorRecord(m.operatorKey, m.log[l.next]) then m.delivered
                    else m.delivered + multiset{l.next})
  }

  function Finished(m: Machine, t: Tid): Machine
    requires Enabled(m, Finish(t))
  {
    m.(threads := m.threads - {t})
  }

  /** One step; a step that is not enabled is a stutter, so every step sequence is a run. */
  function Do(m: Machine, step: Step): Machine {
    if !Enabled(m, step) then m else
      match step
      case RelayAppend(recs) => m.(log := m.log + recs)
      case OperatorAppend(rec) => m.(log := m.log + [rec])
      case SelfApply(p) => FoldPositions(m, {p})
      case Capture(t) => m.(threads := m.threads[t := Snapshot(|m.log|)])
      case PollClaim => PollClaimed(m)
      case PollApply => PollApplied(m)
      case PollFolded => PollAllFolded(m)
      case RebuildEnter(n) => RebuildEntered(m, n)
      case RebuildWindow(upTo) => RebuildWindowed(m, upTo)
      case RebuildLeave => ClaimAndUnlock(m)
      case IngestAppend(n, rec) => IngestAppended(m, n, rec)
      case IngestReplay => IngestReplayed(m)
      case IngestApply => IngestApplied(m)
      case IngestLeave => ClaimAndUnlock(m)
      case Dispatch(t) => Dispatched(m, t)
      case Finish(t) => Finished(m, t)
  }

  /** A run of the engine, over any interleaving. */
  function Exec(m: Machine, run: seq<Step>): Machine
    decreases |run|
  {
    if run == [] then m else Do(Exec(m, run[..|run| - 1]), run[|run| - 1])
  }

  /** What Start leaves behind: equal cursors over a fully folded prefix of the log, no goroutine running. */
  ghost predicate Init(m: Machine) {
    && m.seen == m.dispatched == m.startup <= |m.log|
    && Range(0, m.startup) <= m.state <= Range(0, |m.log|)
    && m.lock.Free? && m.threads == map[] && m.owner == map[]
    && m.delivered == multiset{} && m.everFolded == m.state
  }

  // ----- The invariant -----

  /** The part of a goroutine's claim that it has not handed to dispatch yet. */
  predicate Pending(m: Machine, t: Tid, p: nat) {
    t in m.threads &&
    match m.threads[t]
    case Snapshot(_) => false
    case Folding(_, total, start) => start <= p < total
    case Dispatching(next, total) => next <= p < total
  }

  /** Claimed by the poll goroutine for folding, not applied yet. */
  predicate PollUnapplied(m: Machine, p: nat) {
    Poll in m.threads && m.threads[Poll].Folding? && m.threads[Poll].next <= p < m.threads[Poll].total
  }

  /** Still to be folded by the goroutine that holds localMu. */
  predicate LockUnapplied(m: Machine, p: nat) {
    (m.lock.Applying? || m.lock.Replaying?) && m.lock.next <= p < m.lock.total
  }

  ghost predicate CursorsInv(m: Machine) {
    && m.startup <= m.dispatched <= m.seen <= |m.log|
    && (m.lock.Free? || m.lock.Appended? ==> m.seen == m.dispatched)
    && (m.lock.Applying? ==> m.dispatched <= m.lock.next <= m.lock.total == m.seen)
    && (m.lock.Replaying? ==> m.lock.next <= m.lock.total <= m.seen
                              && (m.lock.total < m.seen ==> m.seen == m.dispatched && m.lock.next == m.lock.total))
    && (!m.lock.Free? ==> m.lock.t != Poll && m.lock.t !in m.threads)
  }

  ghost predicate ThreadsInv(m: Machine) {
    && (forall t :: t in m.threads ==> m.threads[t].total <= |m.log|)
    && (forall t :: t in m.threads && m.threads[t].Folding? ==> t == Poll && m.threads[t].start <= m.threads[t].next)
  }

  /** Whoever still has a position to dispatch is the goroutine that claimed it, so no two pending parts overlap. */
  ghost predicate OwnedRight(m: Machine, p: nat) {
    && (p in m.owner <==> m.startup <= p < m.dispatched)
    && (forall t :: Pending(m, t, p) ==> p in m.owner && m.owner[p] == t)
  }

  /** A position below localSeen is in State, or about to be: its fold is never lost. */
  ghost predicate FoldedRight(m: Machine, p: nat) {
    && (p < m.seen ==> p in m.state || PollUnapplied(m, p) || LockUnapplied(m, p))
    && (p < m.dispatched ==> p in m.everFolded || PollUnapplied(m, p))
    && (p in m.state ==> p in m.everFolded && p < |m.log|)
  }

  /** A swept member record is delivered once unless its claimant still holds it; nothing else is delivered. */
  ghost predicate DeliveredRight(m: Machine, p: nat) {
    if m.startup <= p < m.dispatched then
      && p < |m.log| && p in m.owner
      && m.delivered[p] == if OperatorRecord(m.operatorKey, m.log[p]) || Pending(m, m.owner[p], p) then 0 else 1
    else
      m.delivered[p] == 0
  }

  ghost predicate Inv(m: Machine) {
    && CursorsInv(m) && ThreadsInv(m)
    && (forall p :: OwnedRight(m, p))
    && (forall p :: FoldedRight(m, p))
    && (forall p :: DeliveredRight(m, p))
  }

  lemma StepKeepsCursors(m: Machine, step: Step)
    requires CursorsInv(m) && ThreadsInv(m) && Enabled(m, step)
    ensures CursorsInv(Do(m, step))
  {
  }

  lemma StepKeepsThreads(m: Machine, step: Step)
    requires CursorsInv(m) && ThreadsInv(m) && Enabled(m, step)
    ensures ThreadsInv(Do(m, step))
  {
  }

  /** The positions a step claims for dispatch: the gap between the dispatch cursor and its snapshot. */
  predicate Claims(m: Machine, step: Step, t: Tid, p: nat)
    requires Enabled(m, step)
  {
    match step
    case PollClaim => t == Poll && m.dispatched <= p < m.threads[Poll].total
    case RebuildLeave => t == m.lock.t && m.dispatched <= p < m.lock.total
    case IngestLeave => t == m.lock.t && m.dispatched <= p < m.lock.total
    case _ => false
  }

  predicate Claiming(step: Step) {
    step.PollClaim? || step.RebuildLeave? || step.IngestLeave?
  }

  ghost predicate PendingMovesRight(m: Machine, step: Step, t: Tid, p: nat)
    requires Enabled(m, step)
  {
    Pending(Do(m, step), t, p) <==>
    Claims(m, step, t, p) || (Pending(m, t, p) && !(step == Dispatch(t) && p == m.threads[t].next))
  }

  lemma PendingAfterClaim(m: Machine, step: Step, t: Tid, p: nat)
    requires CursorsInv(m) && ThreadsInv(m) && OwnedRight(m, p) && Enabled(m, step) && Claiming(step)
    ensures PendingMovesRight(m, step, t, p)
  {
  }

  lemma PendingAfterOther(m: Machine, step: Step, t: Tid, p: nat)
    requires CursorsInv(m) && ThreadsInv(m) && Enabled(m, step) && !Claiming(step)
    ensures PendingMovesRight(m, step, t, p)
  {
  }

  /** How each step moves the pending parts: a claim adds exactly its gap, a dispatch removes exactly its position. */
  lemma PendingAfter(m: Machine, step: Step, t: Tid, p: nat)
    requires CursorsInv(m) && ThreadsInv(m) && OwnedRight(m, p) && Enabled(m, step)
    ensures PendingMovesRight(m, step, t, p)
  {
    if Claiming(step) { PendingAfterClaim(m, step, t, p); } else { PendingAfterOther(m, step, t, p); }
  }

  /** How each step moves the log, the dispatch cursor and the owners. */
  ghost predicate OwnersMoveRight(m: Machine, step: Step, p: nat)
    requires Enabled(m, step)
  {
    var m' := Do(m, step);
    && m'.startup == m.startup && m'.operatorKey == m.operatorKey && m.log <= m'.log
    && m.dispatched <= m'.dispatched <= |m'.log|
    && (p in m'.owner <==> p in m.owner || m.dispatched <= p < m'.dispatched)
    && (p < m.dispatched && p in m.owner ==> m'.owner[p] == m.owner[p])
    && (m.dispatched <= p < m'.dispatched ==> Claims(m, step, m'.owner[p], p))
    && (forall t :: Claims(m, step, t, p) ==> m.dispatched <= p < m'.dispatched && m'.owner[p] == t)
  }

  lemma OwnersAfterClaim(m: Machine, step: Step, p: nat)
    requires CursorsInv(m) && ThreadsInv(m) && Enabled(m, step) && Claiming(step)
    ensures OwnersMoveRight(m, step, p)
  {
  }

  lemma OwnersAfterOther(m: Machine, step: Step, p: nat)
    requires CursorsInv(m) && Enabled(m, step) && !Claiming(step)
    ensures OwnersMoveRight(m, step, p)
  {
  }

  lemma OwnersAfter(m: Machine, step: Step, p: nat)
    requires CursorsInv(m) && ThreadsInv(m) && Enabled(m, step)
    ensures OwnersMoveRight(m, step, p)
  {
    if Claiming(step) { OwnersAfterClaim(m, step, p); } else { OwnersAfterOther(m, step, p); }
  }

  lemma StepKeepsOwned(m: Machine, step: Step, p: nat)
    requires CursorsInv(m) && ThreadsInv(m) && OwnedRight(m, p) && Enabled(m, step)
    ensures OwnedRight(Do(m, step), p)
  {
    var m' := Do(m, step);
    OwnersAfter(m, step, p);
    forall t | Pending(m', t, p) ensures p in m'.owner && m'.owner[p] == t {
      PendingAfter(m, step, t, p);
    }
  }

  lemma StepKeepsFolded(m: Machine, step: Step, p: nat)
    requires CursorsInv(m) && ThreadsInv(m) && FoldedRight(m, p) && Enabled(m, step)
    ensures FoldedRight(Do(m, step), p)
  {
  }

  /** A step delivers at most the next position of the goroutine that dispatches, and never an operator record. */
  lemma DeliveryAfter(m: Machine, step: Step, p: nat)
    requires Enabled(m, step)
    ensures Do(m, step).delivered[p] == m.delivered[p] +
              if step.Dispatch? && m.threads[step.t].next == p
                 && (m.operatorKey == "" || m.log[p].sender != m.operatorKey) then 1 else 0
  {
  }

  lemma StepKeepsDelivered(m: Machine, step: Step, p: nat)
    requires CursorsInv(m) && ThreadsInv(m) && OwnedRight(m, p) && DeliveredRight(m, p) && Enabled(m, step)
    ensures DeliveredRight(Do(m, step), p)
  {
    var m' := Do(m, step);
    OwnersAfter(m, step, p);
    DeliveryAfter(m, step, p);
    if p in m'.owner {
      PendingAfter(m, step, m'.owner[p], p);
    }
    if step.Dispatch? && m.threads[step.t].next == p {
      assert Pending(m, step.t, p);
    }
  }

  lemma StepKeepsInv(m: Machine, step: Step)
    requires Inv(m)
    ensures Inv(Do(m, step))
  {
    if Enabled(m, step) {
      StepKeepsCursors(m, step);
      StepKeepsThreads(m, step);
      forall p ensures OwnedRight(Do(m, step), p) { StepKeepsOwned(m, step, p); }
      forall p ensures FoldedRight(Do(m, step), p) { StepKeepsFolded(m, step, p); }
      forall p ensures DeliveredRight(Do(m, step), p) { StepKeepsDelivered(m, step, p); }
    }
  }

  // ----- What holds over every run -----

  /** m is the result of some run, of any length and over any interleaving, from what Start leaves behind. */
  ghost predicate Reachable(m: Machine) {
    exists m0: Machine, run: seq<Step> :: Init(m0) && m == Exec(m0, run)
  }

  lemma {:induction false} RunKeepsInv(m0: Machine, run: seq<Step>)
    requires Init(m0)
    ensures Inv(Exec(m0, run))
    decreases |run|
  {
    if run != [] {
      RunKeepsInv(m0, run[..|run| - 1]);
      StepKeepsInv(Exec(m0, run[..|run| - 1]), run[|run| - 1]);
    }
  }

  lemma ReachableInv(m: Machine)
    requires Reachable(m)
    ensures Inv(m)
  {
    var m0, run :| Init(m0) && m == Exec(m0, run);
    RunKeepsInv(m0, run);
  }

  lemma InitReachable(m: Machine)
    requires Init(m)
    ensures Reachable(m)
  {
    assert m == Exec(m, []);
  }

  lemma StepReachable(m: Machine, step: Step)
    requires Reachable(m)
    ensures Reachable(Do(m, step))
  {
    var m0, run :| Init(m0) && m == Exec(m0, run);
    assert (run + [step])[..|run|] == run;
    assert Do(m, step) == Exec(m0, run + [step]);
  }

  /** Nothing that a step has established is taken back. */
  ghost predicate Grows(m: Machine, m': Machine) {
    && m.startup == m'.startup && m.operatorKey == m'.operatorKey && m.log <= m'.log
    && m.seen <= m'.seen && m.dispatched <= m'.dispatched
    && (forall p :: p in m.owner ==> p in m'.owner && m'.owner[p] == m.owner[p])
  }

  lemma StepOnlyGrows(m: Machine, step: Step)
    requires Inv(m)
    ensures Grows(m, Do(m, step))
  {
    if Enabled(m, step) {
      forall p | p in m.owner ensures p in Do(m, step).owner && Do(m, step).owner[p] == m.owner[p] {
        assert OwnedRight(m, p);
        OwnersAfter(m, step, p);
      }
      OwnersAfter(m, step, 0);
    }
  }

  /** Both cursors, the log and the claims only grow; a claim, once made, never changes hands. */
  lemma {:induction false} RunOnlyGrows(m: Machine, run: seq<Step>)
    requires Inv(m)
    ensures Inv(Exec(m, run)) && Grows(m, Exec(m, run))
    decreases |run|
  {
    if run != [] {
      var m' := Exec(m, run[..|run| - 1]);
      RunOnlyGrows(m, run[..|run| - 1]);
      StepKeepsInv(m', run[|run| - 1]);
      StepOnlyGrows(m', run[|run| - 1]);
    }
  }

  /** The cursors are equal and inside the log whenever localMu is free. */
  lemma CursorsAgree(m: Machine)
    requires Reachable(m)
    ensures m.startup <= m.dispatched <= m.seen <= |m.log|
    ensures m.lock.Free? ==> m.seen == m.dispatched
  {
    ReachableInv(m);
  }

  /**
   The claimed gaps tile [startup..localDispatched), one claimant each, and no two goroutines hold the same position.
   */
  lemma ClaimsTile(m: Machine, t: Tid, u: Tid, p: nat)
    requires Reachable(m)
    ensures m.owner.Keys == Range(m.startup, m.dispatched)
    ensures Pending(m, t, p) ==> p in m.owner && m.owner[p] == t
    ensures Pending(m, t, p) && Pending(m, u, p) ==> t == u
  {
    ReachableInv(m);
    assert OwnedRight(m, p);
    forall q ensures q in m.owner.Keys <==> q in Range(m.startup, m.dispatched) {
      assert OwnedRight(m, q);
    }
  }

  /**
   A position is dispatched at most once, never if the operator sent its record
   or it is outside the swept range, and exactly once unless a claim on it is
   pending.  An operator without a key is nobody's sender.
   */
  lemma ExactlyOnce(m: Machine, p: nat)
    requires Reachable(m)
    ensures m.delivered[p] <= 1 && m.dispatched <= |m.log|
    ensures m.delivered[p] == 1 <==>
            && m.startup <= p < m.dispatched
            && (m.operatorKey == "" || m.log[p].sender != m.operatorKey)
            && forall t :: !Pending(m, t, p)
  {
    ReachableInv(m);
    assert OwnedRight(m, p) && DeliveredRight(m, p);
  }

  /** Whose records reach dispatch: every member's, none of the operator's own; without an operator key everybody's. */
  lemma WhoIsDispatched(m: Machine, p: nat)
    requires Reachable(m) && m.startup <= p < m.dispatched && p < |m.log|
    ensures m.operatorKey != "" && m.log[p].sender == m.operatorKey ==> m.delivered[p] == 0
    ensures m.log[p].sender != m.operatorKey && (forall t :: !Pending(m, t, p)) ==> m.delivered[p] == 1
    ensures m.operatorKey == "" && (forall t :: !Pending(m, t, p)) ==> m.delivered[p] == 1
  {
    ExactlyOnce(m, p);
  }

  /** No fold is lost: below localSeen only the poll goroutine's own claim can be missing from State. */
  lemma NoLostFold(m: Machine, p: nat)
    requires Reachable(m) && p < m.seen
    ensures p in m.state || PollUnapplied(m, p) || LockUnapplied(m, p)
    ensures m.lock.Free? ==> p in m.state || PollUnapplied(m, p)
  {
    ReachableInv(m);
    assert FoldedRight(m, p);
  }

  /**
   Every record is folded before its own dispatch. When it is dispatched it is
   in State, except while a rebuild is between its reset and the window that
   re-folds it.
   */
  lemma FoldBeforeDispatch(m: Machine, t: Tid)
    requires Reachable(m) && Enabled(m, Dispatch(t))
    ensures var p := m.threads[t].next;
            p in m.everFolded && (p in m.state || (m.lock.Replaying? && m.lock.next <= p < m.lock.total))
  {
    ReachableInv(m);
    var p := m.threads[t].next;
    assert Pending(m, t, p);
    assert OwnedRight(m, p) && FoldedRight(m, p);
    if PollUnapplied(m, p) {
      assert Pending(m, Poll, p);
    }
  }

  /** The set of positions a cold replay of the log folds. */
  function ColdReplay(log: seq<Record>): set<nat> {
    Range(0, |log|)
  }

  /** Once the poll loop has folded the whole log, State holds what a cold replay would. */
  lemma QuiescentPollEqualsColdReplay(m: Machine)
    requires Reachable(m)
    requires m.lock.Free? && m.seen == |m.log| && (Poll in m.threads ==> !m.threads[Poll].Folding?)
    ensures m.state == ColdReplay(m.log)
  {
    ReachableInv(m);
    forall p ensures p in m.state <==> p in ColdReplay(m.log) {
      assert FoldedRight(m, p);
    }
  }

  // ----- What each pass does when it is left alone -----

  /** The positions of a range of the log that somebody other than the operator sent, each once. */
  function Handed(operatorKey: Key, log: seq<Record>, lo: nat, hi: nat): multiset<nat> {
    multiset(set p | p in Range(lo, hi) && p < |log| && !(operatorKey != "" && log[p].sender == operatorKey))
  }

  function Times(step: Step, n: nat): seq<Step> {
    if n == 0 then [] else Times(step, n - 1) + [step]
  }

  lemma ExecOneMore(m: Machine, run: seq<Step>, step: Step)
    ensures Exec(m, run + [step]) == Do(Exec(m, run), step)
  {
    assert (run + [step])[..|run|] == run;
  }

  lemma RunOn(m: Machine, run: seq<Step>, mid: Machine, step: Step, after: Machine)
    requires Exec(m, run) == mid && Do(mid, step) == after
    ensures Exec(m, run + [step]) == after
  {
    ExecOneMore(m, run, step);
  }

  lemma TwoSteps(m: Machine, a: Step, b: Step)
    ensures Exec(m, [a, b]) == Do(Do(m, a), b)
  {
    ExecOneMore(m, [], a);
    ExecOneMore(m, [a], b);
    assert [] + [a] == [a] && [a] + [b] == [a, b];
  }

  lemma {:induction false} ExecOfTwo(m: Machine, s: seq<Step>, t: seq<Step>)
    ensures Exec(m, s + t) == Exec(Exec(m, s), t)
    decreases |t|
  {
    if t == [] {
      assert s + t == s;
    } else {
      var init, last := t[..|t| - 1], t[|t| - 1];
      assert s + t == (s + init) + [last];
      ExecOfTwo(m, s, init);
      ExecOneMore(m, s + init, last);
    }
  }

  /** A step repeated, along the states it passes through. */
  lemma {:induction false} TimesRuns(m: Machine, step: Step, n: nat, at: seq<Machine>)
    requires |at| > n && at[0] == m && forall i :: 0 <= i < n ==> Do(at[i], step) == at[i + 1]
    ensures Exec(m, Times(step, n)) == at[n]
    decreases n
  {
    if n > 0 {
      TimesRuns(m, step, n - 1, at);
      ExecOneMore(m, Times(step, n - 1), step);
    }
  }

  lemma RangeOneMore(lo: nat, hi: nat)
    requires lo <= hi
    ensures Range(lo, hi + 1) == Range(lo, hi) + {hi}
  {
  }

  lemma DispatchOne(m: Machine, t: Tid, next: nat, total: nat)
    requires t in m.threads && m.threads[t] == Dispatching(next, total) && next < total <= |m.log|
    ensures Do(m, Dispatch(t)) ==
            m.(threads := m.threads[t := Dispatching(next + 1, total)],
               delivered := m.delivered + Handed(m.operatorKey, m.log, next, next + 1))
  {
    assert Range(next, next + 1) == {next};
    var sent := m.operatorKey != "" && m.log[next].sender == m.operatorKey;
    assert Handed(m.operatorKey, m.log, next, next + 1) == if sent then multiset{} else multiset{next};
    assert m.delivered + multiset{} == m.delivered;
  }

  lemma HandedOfTwo(operatorKey: Key, log: seq<Record>, lo: nat, hi: nat)
    requires lo < hi <= |log|
    ensures Handed(operatorKey, log, lo, hi)
            == Handed(operatorKey, log, lo, hi - 1) + Handed(operatorKey, log, hi - 1, hi)
  {
    RangeOneMore(lo, hi - 1);
    assert Range(hi - 1, hi) == {hi - 1};
  }

  /** So far in a sweep. */
  function SweptTo(m: Machine, t: Tid, start: nat, total: nat, next: nat): Machine {
    m.(threads := m.threads[t := Dispatching(next, total)],
       delivered := m.delivered + Handed(m.operatorKey, m.log, start, next))
  }

  lemma SweepStates(m: Machine, t: Tid, start: nat, total: nat, n: nat) returns (at: seq<Machine>)
    requires n > 0 ==> start + n <= total <= |m.log|
    ensures |at| == n + 1 && forall i :: 0 <= i <= n ==> at[i] == SweptTo(m, t, start, total, start + i)
    ensures forall i :: 0 <= i < n ==> Do(at[i], Dispatch(t)) == at[i + 1]
  {
    at := seq(n + 1, i requires 0 <= i => SweptTo(m, t, start, total, start + i));
    forall i | 0 <= i < n ensures Do(at[i], Dispatch(t)) == at[i + 1] { SweepOn(m, t, start, total, start + i); }
  }

  lemma DispatchRuns(m: Machine, t: Tid, start: nat, total: nat, n: nat)
    requires t in m.threads && m.threads[t] == Dispatching(start, total) && (n > 0 ==> start + n <= total <= |m.log|)
    ensures Exec(m, Times(Dispatch(t), n)) == SweptTo(m, t, start, total, start + n)
  {
    SweepStarts(m, t, start, total);
    var at := SweepStates(m, t, start, total, n);
    TimesRuns(m, Dispatch(t), n, at);
  }

  lemma SweepStarts(m: Machine, t: Tid, start: nat, total: nat)
    requires t in m.threads && m.threads[t] == Dispatching(start, total)
    ensures SweptTo(m, t, start, total, start) == m
  {
    assert m.threads[t := Dispatching(start, total)] == m.threads;
    assert m.delivered + multiset{} == m.delivered;
  }

  lemma SweepOn(m: Machine, t: Tid, start: nat, total: nat, next: nat)
    requires start <= next < total <= |m.log|
    ensures Do(SweptTo(m, t, start, total, next), Dispatch(t)) == SweptTo(m, t, start, total, next + 1)
  {
    var mid := SweptTo(m, t, start, total, next);
    DispatchOne(mid, t, next, total);
    HandedOfTwo(m.operatorKey, m.log, start, next + 1);
    assert mid.threads[t := Dispatching(next + 1, total)] == m.threads[t := Dispatching(next + 1, total)];
  }

  /** A goroutine with a claim hands over its whole gap, member by member, and is done. */
  lemma GapIsDispatched(m: Machine, t: Tid, start: nat, total: nat)
    requires t in m.threads && m.threads[t] == Dispatching(start, total) && total <= |m.log|
    ensures var n := if total > start then total - start else 0;
            Exec(m, Times(Dispatch(t), n) + [Finish(t)]) ==
            m.(threads := m.threads - {t}, delivered := m.delivered + Handed(m.operatorKey, m.log, start, total))
  {
    var n := if total > start then total - start else 0;
    DispatchRuns(m, t, start, total, n);
    var swept := SweptTo(m, t, start, total, start + n);
    var after := m.(threads := m.threads - {t}, delivered := swept.delivered);
    Finishes(swept, t, start + n, total);
    assert swept.threads - {t} == m.threads - {t};
    RunOn(m, Times(Dispatch(t), n), swept, Finish(t), after);
    assert Handed(m.operatorKey, m.log, start, start + n) == Handed(m.operatorKey, m.log, start, total);
  }

  lemma Finishes(m: Machine, t: Tid, next: nat, total: nat)
    requires t in m.threads && m.threads[t] == Dispatching(next, total) && total <= next
    ensures Do(m, Finish(t)) == m.(threads := m.threads - {t})
  {
  }

  function PolledTo(m: Machine, next: nat, total: nat, start: nat, upTo: nat): Machine {
    FoldPositions(m, Range(next, upTo)).(threads := m.threads[Poll := Folding(upTo, total, start)])
  }

  lemma PollFoldRuns(m: Machine, next: nat, total: nat, start: nat, n: nat)
    requires Poll in m.threads && m.threads[Poll] == Folding(next, total, start) && next + n <= total
    ensures Exec(m, Times(PollApply, n)) == PolledTo(m, next, total, start, next + n)
  {
    PollStarts(m, next, total, start);
    var at := PollStates(m, next, total, start, n);
    TimesRuns(m, PollApply, n, at);
  }

  lemma PollStates(m: Machine, next: nat, total: nat, start: nat, n: nat) returns (at: seq<Machine>)
    requires next + n <= total
    ensures |at| == n + 1 && forall i :: 0 <= i <= n ==> at[i] == PolledTo(m, next, total, start, next + i)
    ensures forall i :: 0 <= i < n ==> Do(at[i], PollApply) == at[i + 1]
  {
    at := seq(n + 1, i requires 0 <= i => PolledTo(m, next, total, start, next + i));
    forall i | 0 <= i < n ensures Do(at[i], PollApply) == at[i + 1] {
      assert at[i] == PolledTo(m, next, total, start, next + i);
      assert at[i + 1] == PolledTo(m, next, total, start, next + i + 1);
      PollOn(m, next, total, start, next + i);
    }
  }

  lemma PollStarts(m: Machine, next: nat, total: nat, start: nat)
    requires Poll in m.threads && m.threads[Poll] == Folding(next, total, start)
    ensures PolledTo(m, next, total, start, next) == m
  {
    assert m.threads[Poll := Folding(next, total, start)] == m.threads;
    assert m.state + {} == m.state && m.everFolded + {} == m.everFolded;
  }

  lemma PollOn(m: Machine, next: nat, total: nat, start: nat, upTo: nat)
    requires next <= upTo < total
    ensures Do(PolledTo(m, next, total, start, upTo), PollApply) == PolledTo(m, next, total, start, upTo + 1)
  {
    var mid := PolledTo(m, next, total, start, upTo);
    RangeOneMore(next, upTo);
    assert mid.threads[Poll := Folding(upTo + 1, total, start)] == m.threads[Poll := Folding(upTo + 1, total, start)];
    assert mid.state + {upTo} == m.state + Range(next, upTo + 1);
    assert mid.everFolded + {upTo} == m.everFolded + Range(next, upTo + 1);
  }

  function IngestedTo(m: Machine, t: Tid, next: nat, total: nat, upTo: nat): Machine {
    FoldPositions(m, Range(next, upTo)).(lock := Applying(t, upTo, total))
  }

  lemma IngestStates(m: Machine, t: Tid, next: nat, total: nat, n: nat) returns (at: seq<Machine>)
    requires next + n <= total
    ensures |at| == n + 1 && forall i :: 0 <= i <= n ==> at[i] == IngestedTo(m, t, next, total, next + i)
    ensures forall i :: 0 <= i < n ==> Do(at[i], IngestApply) == at[i + 1]
  {
    at := seq(n + 1, i requires 0 <= i => IngestedTo(m, t, next, total, next + i));
    forall i | 0 <= i < n ensures Do(at[i], IngestApply) == at[i + 1] { IngestOn(m, t, next, total, next + i); }
  }

  lemma IngestFoldRuns(m: Machine, t: Tid, next: nat, total: nat, n: nat)
    requires m.lock == Applying(t, next, total) && next + n <= total
    ensures Exec(m, Times(IngestApply, n)) == IngestedTo(m, t, next, total, next + n)
  {
    IngestStarts(m, t, next, total);
    var at := IngestStates(m, t, next, total, n);
    TimesRuns(m, IngestApply, n, at);
  }

  lemma IngestStarts(m: Machine, t: Tid, next: nat, total: nat)
    requires m.lock == Applying(t, next, total)
    ensures IngestedTo(m, t, next, total, next) == m
  {
    assert m.state + {} == m.state && m.everFolded + {} == m.everFolded;
  }

  lemma IngestOn(m: Machine, t: Tid, next: nat, total: nat, upTo: nat)
    requires next <= upTo < total
    ensures Do(IngestedTo(m, t, next, total, upTo), IngestApply) == IngestedTo(m, t, next, total, upTo + 1)
  {
    var mid := IngestedTo(m, t, next, total, upTo);
    RangeOneMore(next, upTo);
    assert mid.state + {upTo} == m.state + Range(next, upTo + 1);
    assert mid.everFolded + {upTo} == m.everFolded + Range(next, upTo + 1);
  }

  /** Both cursors at the end of the log, and every position claimed before still with whoever claimed it. */
  ghost predicate CaughtUp(m: Machine, after: Machine, t: Tid) {
    && after.log == m.log && after.seen == after.dispatched == |m.log| && after.lock.Free?
    && after.threads == m.threads && after.operatorKey == m.operatorKey && after.startup == m.startup
    && after.delivered == m.delivered + Handed(m.operatorKey, m.log, m.dispatched, |m.log|)
    && (forall p :: p in m.owner && !(m.dispatched <= p < |m.log|) ==> p in after.owner && after.owner[p] == m.owner[p])
    && (forall p :: m.dispatched <= p < |m.log| ==> p in after.owner && after.owner[p] == t)
    && (forall p :: p in after.owner ==> p in m.owner || m.dispatched <= p < |m.log|)
  }

  /** The goroutine has claimed everything up to the end of the log and has yet to hand it over. */
  ghost predicate Claimed(m: Machine, left: Machine, t: Tid) {
    && left.log == m.log && left.seen == left.dispatched == |m.log| && left.lock.Free?
    && left.threads == m.threads[t := Dispatching(m.dispatched, |m.log|)]
    && left.operatorKey == m.operatorKey && left.startup == m.startup && left.delivered == m.delivered
    && (forall p :: p in m.owner && !(m.dispatched <= p < |m.log|) ==> p in left.owner && left.owner[p] == m.owner[p])
    && (forall p :: m.dispatched <= p < |m.log| ==> p in left.owner && left.owner[p] == t)
    && (forall p :: p in left.owner ==> p in m.owner || m.dispatched <= p < |m.log|)
  }

  lemma ClaimedIsDispatched(m: Machine, left: Machine, t: Tid) returns (sweep: seq<Step>)
    requires Claimed(m, left, t) && t !in m.threads && m.dispatched <= |m.log|
    ensures var after := Exec(left, sweep);
            CaughtUp(m, after, t) && after.state == left.state && after.everFolded == left.everFolded
  {
    sweep := Times(Dispatch(t), |m.log| - m.dispatched) + [Finish(t)];
    GapIsDispatched(left, t, m.dispatched, |m.log|);
    assert left.threads - {t} == m.threads;
  }

  lemma PollCaptures(m: Machine)
    requires m.lock.Free? && Poll !in m.threads
    ensures Do(m, Capture(Poll)) == m.(threads := m.threads[Poll := Snapshot(|m.log|)])
  {
  }

  lemma PollClaims(m: Machine, captured: Machine)
    requires m.lock.Free? && m.dispatched <= |m.log| && m.seen <= |m.log|
    requires captured == m.(threads := m.threads[Poll := Snapshot(|m.log|)])
    ensures var claimed := Do(captured, PollClaim);
            && claimed.threads == m.threads[Poll := Folding(m.seen, |m.log|, m.dispatched)]
            && claimed.state == m.state && claimed.everFolded == m.everFolded
            && Claimed(m, claimed.(threads := m.threads[Poll := Dispatching(m.dispatched, |m.log|)]), Poll)
  {
    assert captured.threads[Poll := Folding(m.seen, |m.log|, m.dispatched)]
        == m.threads[Poll := Folding(m.seen, |m.log|, m.dispatched)];
  }

  lemma PollBegins(m: Machine)
    requires m.lock.Free? && Poll !in m.threads && m.dispatched <= |m.log| && m.seen <= |m.log|
    ensures var claimed := Exec(m, [Capture(Poll), PollClaim]);
            && claimed.threads == m.threads[Poll := Folding(m.seen, |m.log|, m.dispatched)]
            && claimed.state == m.state && claimed.everFolded == m.everFolded
            && Claimed(m, claimed.(threads := m.threads[Poll := Dispatching(m.dispatched, |m.log|)]), Poll)
  {
    TwoSteps(m, Capture(Poll), PollClaim);
    PollCaptures(m);
    PollClaims(m, Do(m, Capture(Poll)));
  }

  lemma PollIsFolded(m: Machine, total: nat, start: nat)
    requires Poll in m.threads && m.threads[Poll] == Folding(total, total, start)
    ensures Do(m, PollFolded) == m.(threads := m.threads[Poll := Dispatching(start, total)])
  {
  }

  lemma PollFoldsOn(claimed: Machine, next: nat, total: nat, start: nat, folded: Machine)
    requires Poll in claimed.threads && claimed.threads[Poll] == Folding(next, total, start) && next <= total
    requires folded == PolledTo(claimed, next, total, start, total)
    ensures Exec(claimed, Times(PollApply, total - next) + [PollFolded]) ==
            folded.(threads := folded.threads[Poll := Dispatching(start, total)])
  {
    PollFoldRuns(claimed, next, total, start, total - next);
    PollIsFolded(folded, total, start);
    RunOn(claimed, Times(PollApply, total - next), folded, PollFolded,
        folded.(threads := folded.threads[Poll := Dispatching(start, total)]));
  }

  lemma PollFoldsAll(m: Machine, claimed: Machine)
    requires claimed.threads == m.threads[Poll := Folding(m.seen, |m.log|, m.dispatched)] && m.seen <= |m.log|
    ensures Exec(claimed, Times(PollApply, |m.log| - m.seen) + [PollFolded]) ==
            FoldPositions(claimed, Range(m.seen, |m.log|)).(
              threads := m.threads[Poll := Dispatching(m.dispatched, |m.log|)])
  {
    var folded := PolledTo(claimed, m.seen, |m.log|, m.dispatched, |m.log|);
    PollFoldsOn(claimed, m.seen, |m.log|, m.dispatched, folded);
    SameThreads(m.threads, folded.threads, Folding(m.seen, |m.log|, m.dispatched),
        Folding(|m.log|, |m.log|, m.dispatched), Dispatching(m.dispatched, |m.log|));
  }

  lemma SameThreads(threads: map<Tid, Local>, folded: map<Tid, Local>, a: Local, b: Local, c: Local)
    requires folded == threads[Poll := a][Poll := b]
    ensures folded[Poll := c] == threads[Poll := c]
  {
  }

  /** The poll, from snapshot to the end of its dispatch: it folds and hands over what neither cursor had reached. */
  lemma PollIsARun(m: Machine) returns (run: seq<Step>)
    requires m.lock.Free? && Poll !in m.threads && m.dispatched <= |m.log| && m.seen <= |m.log|
    ensures var after := Exec(m, run);
            && CaughtUp(m, after, Poll)
            && after.state == m.state + Range(m.seen, |m.log|)
            && after.everFolded == m.everFolded + Range(m.seen, |m.log|)
  {
    var begins, folds := [Capture(Poll), PollClaim], Times(PollApply, |m.log| - m.seen) + [PollFolded];
    var claimed := Exec(m, begins);
    PollBegins(m);
    ExecOfTwo(m, begins, folds);
    PollFoldsAll(m, claimed);
    var sweep := ClaimedIsDispatched(m, Exec(m, begins + folds), Poll);
    ExecOfTwo(m, begins + folds, sweep);
    run := begins + folds + sweep;
  }

  lemma WorkerCaptures(m: Machine, n: nat)
    requires m.lock.Free? && Worker(n) !in m.threads
    ensures Do(m, Capture(Worker(n))) == m.(threads := m.threads[Worker(n) := Snapshot(|m.log|)])
  {
  }

  lemma RebuildEnters(m: Machine, n: nat, captured: Machine)
    requires m.lock.Free? && Worker(n) !in m.threads && m.seen <= |m.log|
    requires captured == m.(threads := m.threads[Worker(n) := Snapshot(|m.log|)])
    ensures Do(captured, RebuildEnter(n)) ==
            m.(lock := Replaying(Worker(n), if |m.log| > m.seen then 0 else |m.log|, |m.log|), seen := |m.log|)
  {
    assert captured.threads - {Worker(n)} == m.threads;
  }

  lemma RebuildBegins(m: Machine, n: nat)
    requires m.lock.Free? && Worker(n) !in m.threads && m.seen <= |m.log|
    ensures Exec(m, [Capture(Worker(n)), RebuildEnter(n)]) ==
            m.(lock := Replaying(Worker(n), if |m.log| > m.seen then 0 else |m.log|, |m.log|), seen := |m.log|)
  {
    TwoSteps(m, Capture(Worker(n)), RebuildEnter(n));
    WorkerCaptures(m, n);
    RebuildEnters(m, n, Do(m, Capture(Worker(n))));
  }

  lemma WindowReplays(m: Machine, t: Tid, after: Machine)
    requires m.lock == Replaying(t, 0, |m.log|) && |m.log| > 0
    requires after == m.(state := Range(0, |m.log|), everFolded := m.everFolded + Range(0, |m.log|),
                         lock := Replaying(t, |m.log|, |m.log|))
    ensures Do(m, RebuildWindow(|m.log|)) == after
  {
    assert {} + Range(0, |m.log|) == Range(0, |m.log|);
  }

  lemma RebuildReplays(m: Machine, t: Tid, after: Machine)
    requires m.lock == Replaying(t, 0, |m.log|) && |m.log| > 0
    requires after == m.(state := Range(0, |m.log|), everFolded := m.everFolded + Range(0, |m.log|),
                         lock := Replaying(t, |m.log|, |m.log|))
    ensures Exec(m, [RebuildWindow(|m.log|)]) == after
  {
    WindowReplays(m, t, after);
    RunOn(m, [], m, RebuildWindow(|m.log|), after);
    assert [] + [RebuildWindow(|m.log|)] == [RebuildWindow(|m.log|)];
  }

  /** A rebuild: State is folded again from nothing if the snapshot is past the fold cursor, and left alone if not. */
  lemma RebuildIsARun(m: Machine, n: nat) returns (run: seq<Step>)
    requires m.lock.Free? && Worker(n) !in m.threads && m.dispatched <= |m.log| && m.seen <= |m.log|
    ensures var after := Exec(m, run);
            && CaughtUp(m, after, Worker(n))
            && after.state == if |m.log| > m.seen then Range(0, |m.log|) else m.state
  {
    run := [Capture(Worker(n)), RebuildEnter(n)];
    RebuildBegins(m, n);
    if |m.log| > m.seen {
      var all, total := Range(0, |m.log|), |m.log|;
      RebuildReplays(Exec(m, run), Worker(n), m.(
        seen := total, state := all, everFolded := m.everFolded + all, lock := Replaying(Worker(n), total, total)));
      ExecOfTwo(m, run, [RebuildWindow(|m.log|)]);
      run := run + [RebuildWindow(|m.log|)];
    }
    var held := Exec(m, run);
    Leaves(m, held, Worker(n), RebuildLeave);
    ExecOneMore(m, run, RebuildLeave);
    var sweep := ClaimedIsDispatched(m, Do(held, RebuildLeave), Worker(n));
    ExecOfTwo(m, run + [RebuildLeave], sweep);
    run := run + [RebuildLeave] + sweep;
  }

  /** The end of a hold of the lock. */
  lemma Leaves(m: Machine, held: Machine, t: Tid, leave: Step)
    requires m.dispatched <= |m.log| && held == m.(seen := |m.log|, state := held.state, everFolded := held.everFolded,
                                                   lock := held.lock)
    requires (leave.RebuildLeave? && held.lock == Replaying(t, |m.log|, |m.log|))
             || (leave.IngestLeave? && held.lock == Applying(t, |m.log|, |m.log|))
    ensures var left := Do(held, leave);
            Claimed(m, left, t) && left.state == held.state && left.everFolded == held.everFolded
  {
  }

  lemma IngestAppends(m: Machine, n: nat, rec: Record)
    requires m.lock.Free? && Worker(n) !in m.threads
    ensures Do(m, IngestAppend(n, rec)) == m.(log := m.log + [rec], lock := Appended(Worker(n)))
  {
  }

  lemma IngestReplays(m: Machine, t: Tid)
    requires m.lock == Appended(t) && m.seen <= |m.log|
    ensures Do(m, IngestReplay) == m.(seen := |m.log|, lock := Applying(t, m.seen, |m.log|))
  {
  }

  lemma IngestBegins(m: Machine, n: nat, rec: Record)
    requires m.lock.Free? && Worker(n) !in m.threads && m.seen <= |m.log|
    ensures Exec(m, [IngestAppend(n, rec), IngestReplay]) ==
            m.(log := m.log + [rec], seen := |m.log| + 1, lock := Applying(Worker(n), m.seen, |m.log| + 1))
  {
    TwoSteps(m, IngestAppend(n, rec), IngestReplay);
    IngestAppends(m, n, rec);
    IngestReplays(m.(log := m.log + [rec], lock := Appended(Worker(n))), Worker(n));
  }

  /** An ingest: the record is appended, and everything up to it that was not folded or dispatched is. */
  lemma IngestIsARun(m: Machine, n: nat, rec: Record) returns (run: seq<Step>)
    requires m.lock.Free? && Worker(n) !in m.threads && m.dispatched <= |m.log| && m.seen <= |m.log|
    ensures var after, appended := Exec(m, run), m.(log := m.log + [rec]);
            && CaughtUp(appended, after, Worker(n))
            && after.state == m.state + Range(m.seen, |m.log| + 1)
  {
    var appended, total := m.(log := m.log + [rec]), |m.log| + 1;
    var begins, folds := [IngestAppend(n, rec), IngestReplay], Times(IngestApply, total - m.seen);
    IngestBegins(m, n, rec);
    ExecOfTwo(m, begins, folds);
    IngestFoldRuns(Exec(m, begins), Worker(n), m.seen, total, total - m.seen);
    var held := Exec(m, begins + folds);
    Leaves(appended, held, Worker(n), IngestLeave);
    ExecOneMore(m, begins + folds, IngestLeave);
    var sweep := ClaimedIsDispatched(appended, Do(held, IngestLeave), Worker(n));
    ExecOfTwo(m, begins + folds + [IngestLeave], sweep);
    run := begins + folds + [IngestLeave] + sweep;
  }

  /** Appends move no cursor and fold nothing; an operator's waits for the lock, a relay's does not. */
  lemma AppendsMoveNoCursor(m: Machine, recs: seq<Record>, rec: Record, p: nat)
    ensures Do(m, RelayAppend(recs)) == m.(log := m.log + recs)
    ensures Do(m, OperatorAppend(rec)) == if m.lock.Free? then m.(log := m.log + [rec]) else m
    ensures Do(m, SelfApply(p)) ==
            if p < |m.log| then m.(state := m.state + {p}, everFolded := m.everFolded + {p}) else m
  {
  }

  // ----- The engine's own code -----

  /** What has been handed to dispatch after sweeping log[start..total), given what had been before. */
  function Sweep(before: seq<nat>, operatorKey: Key, log: seq<Record>, start: nat, total: nat): seq<nat>
    requires total <= start || total <= |log|
    decreases total
  {
    if total <= start then before
    else
      var handled := Sweep(before, operatorKey, log, start, total - 1);
      if OperatorRecord(operatorKey, log[total - 1]) then handled else handled + [total - 1]
  }

  /** A sweep hands over exactly the member records of its range, after everything handed over before ... */
  lemma {:induction false} SweepExactly(before: seq<nat>, operatorKey: Key, log: seq<Record>, start: nat, total: nat,
        p: nat)
    requires total <= start || total <= |log|
    ensures var handled := Sweep(before, operatorKey, log, start, total);
            && before <= handled
            && (p in handled[|before|..] <==> start <= p < total && (operatorKey == "" || log[p].sender != operatorKey))
    decreases total
  {
    if start < total {
      SweepExactly(before, operatorKey, log, start, total - 1, p);
      var handled := Sweep(before, operatorKey, log, start, total - 1);
      assert (handled + [total - 1])[|before|..] == handled[|before|..] + [total - 1];
    }
  }

  /** ... in log order, so each once. */
  lemma {:induction false} SweepInOrder(before: seq<nat>, operatorKey: Key, log: seq<Record>, start: nat, total: nat,
        i: nat, j: nat)
    requires total <= start || total <= |log|
    requires |before| <= i < j < |Sweep(before, operatorKey, log, start, total)|
    ensures Sweep(before, operatorKey, log, start, total)[i] < Sweep(before, operatorKey, log, start, total)[j]
    decreases total
  {
    if start < total {
      var handled := Sweep(before, operatorKey, log, start, total - 1);
      if j < |handled| {
        SweepInOrder(before, operatorKey, log, start, total - 1, i, j);
      } else {
        SweepExactly(before, operatorKey, log, start, total - 1, handled[i]);
        assert handled[i] == handled[|before|..][i - |before|];
      }
    }
  }

  /** After what was handed over before: the positions of the range not sent by the operator, once each, in order. */
  ghost predicate HandedOver(before: seq<nat>, handled: seq<nat>, operatorKey: Key, log: seq<Record>, start: nat,
        total: nat)
    requires total <= start || total <= |log|
  {
    && before <= handled
    && (forall p: nat :: p in handled[|before|..] <==>
          start <= p < total && (operatorKey == "" || log[p].sender != operatorKey))
    && (forall i, j :: |before| <= i < j < |handled| ==> handled[i] < handled[j])
  }

  lemma SweepIsHandedOver(before: seq<nat>, operatorKey: Key, log: seq<Record>, start: nat, total: nat)
    requires total <= start || total <= |log|
    ensures HandedOver(before, Sweep(before, operatorKey, log, start, total), operatorKey, log, start, total)
  {
    var handled := Sweep(before, operatorKey, log, start, total);
    SweepExactly(before, operatorKey, log, start, total, 0);
    forall p: nat
      ensures p in handled[|before|..] <==> start <= p < total && (operatorKey == "" || log[p].sender != operatorKey)
    {
      SweepExactly(before, operatorKey, log, start, total, p);
    }
    forall i, j | |before| <= i < j < |handled| ensures handled[i] < handled[j] {
      SweepInOrder(before, operatorKey, log, start, total, i, j);
    }
  }

  /**
   The engine's fields and methods.  Each method takes its own steps of a
   reachable `Machine` that mirrors the fields, so every theorem above holds of
   them; calls may be interleaved freely, and a snapshot may be captured long
   before it is used.
   */
  class Engine {
    const operatorKey: Key
    var store: seq<Record>
    var localSeen: nat
    var localDispatched: nat
    var state: set<nat>
    var handled: seq<nat>           // positions handed to dispatch(), in order

    ghost var machine: Machine

    ghost predicate Mirrors()
      reads this
    {
      && Reachable(machine)
      && machine == machine.(operatorKey := operatorKey, log := store, seen := localSeen,
                             dispatched := localDispatched, state := state, delivered := multiset(handled))
    }

    ghost predicate Holds(t: Tid, l: Local)
      reads this
    {
      t in machine.threads && machine.threads[t] == l
    }

    ghost function Others(t: Tid): map<Tid, Local>
      reads this
    {
      machine.threads - {t}
    }

    ghost predicate Valid()
      reads this
    {
      Mirrors() && machine.lock.Free?
    }

    /** The state Start leaves before its first poll: the records its replay saw are folded and swept. */
    constructor (operatorKey: Key, store: seq<Record>, replayed: nat)
      requires replayed <= |store|
      ensures Valid() && this.operatorKey == operatorKey && this.store == store
      ensures localSeen == localDispatched == replayed && state == Range(0, replayed) && handled == []
      ensures machine.startup == replayed && machine.threads == map[]
    {
      this.operatorKey := operatorKey;
      this.store := store;
      localSeen, localDispatched := replayed, replayed;
      state := Range(0, replayed);
      handled := [];
      machine := Machine(operatorKey, replayed, store, replayed, replayed, Range(0, replayed), Free, map[], map[],
          multiset{}, Range(0, replayed));
      new;
      InitReachable(machine);
    }

    ghost method Take(step: Step)
      requires Reachable(machine)
      modifies `machine
      ensures Reachable(machine) && machine == Do(old(machine), step)
    {
      StepReachable(machine, step);
      machine := Do(machine, step);
    }

    // Each step by name, so that a caller sees only what that step does.

    ghost method TakePollClaim()
      requires Reachable(machine) && Enabled(machine, PollClaim)
      modifies `machine
      ensures Reachable(machine) && machine == PollClaimed(old(machine))
    {
      Take(PollClaim);
    }

    ghost method TakePollApply()
      requires Reachable(machine) && Enabled(machine, PollApply)
      modifies `machine
      ensures Reachable(machine) && machine == PollApplied(old(machine))
    {
      Take(PollApply);
    }

    ghost method TakePollFolded()
      requires Reachable(machine) && Enabled(machine, PollFolded)
      modifies `machine
      ensures Reachable(machine) && machine == PollAllFolded(old(machine))
    {
      Take(PollFolded);
    }

    ghost method TakeRebuildEnter(n: nat)
      requires Reachable(machine) && Enabled(machine, RebuildEnter(n))
      modifies `machine
      ensures Reachable(machine) && machine == RebuildEntered(old(machine), n)
    {
      Take(RebuildEnter(n));
    }

    ghost method TakeRebuildWindow(upTo: nat)
      requires Reachable(machine) && Enabled(machine, RebuildWindow(upTo))
      modifies `machine
      ensures Reachable(machine) && machine == RebuildWindowed(old(machine), upTo)
    {
      Take(RebuildWindow(upTo));
    }

    ghost method TakeLeave()
      requires Reachable(machine) && (Enabled(machine, RebuildLeave) || Enabled(machine, IngestLeave))
      modifies `machine
      ensures Reachable(machine) && machine == ClaimAndUnlock(old(machine))
    {
      if machine.lock.Replaying? { Take(RebuildLeave); } else { Take(IngestLeave); }
    }

    ghost method TakeIngestAppend(n: nat, rec: Record)
      requires Reachable(machine) && Enabled(machine, IngestAppend(n, rec))
      modifies `machine
      ensures Reachable(machine) && machine == IngestAppended(old(machine), n, rec)
    {
      Take(IngestAppend(n, rec));
    }

    ghost method TakeIngestReplay()
      requires Reachable(machine) && Enabled(machine, IngestReplay)
      modifies `machine
      ensures Reachable(machine) && machine == IngestReplayed(old(machine))
    {
      Take(IngestReplay);
    }

    ghost method TakeIngestApply()
      requires Reachable(machine) && Enabled(machine, IngestApply)
      modifies `machine
      ensures Reachable(machine) && machine == IngestApplied(old(machine))
    {
      Take(IngestApply);
    }

    ghost method TakeDispatch(t: Tid)
      requires Reachable(machine) && Enabled(machine, Dispatch(t))
      modifies `machine
      ensures Reachable(machine) && machine == Dispatched(old(machine), t)
    {
      Take(Dispatch(t));
    }

    ghost method TakeFinish(t: Tid, next: nat, total: nat)
      requires Reachable(machine) && Holds(t, Dispatching(next, total)) && total <= next
      modifies `machine
      ensures Reachable(machine) && machine == old(machine).(threads := old(Others(t)))
    {
      Take(Finish(t));
    }

    /** LocalStore.Replay(), outside localMu: the snapshot may be stale by the time it is used. */
    method Snapshot(ghost t: Tid) returns (msgs: seq<Record>)
      requires Valid() && t !in machine.threads
      modifies `machine
      ensures Valid() && msgs == store
      ensures Holds(t, Local.Snapshot(|msgs|)) && Others(t) == old(Others(t))
    {
      msgs := store;
      Take(Capture(t));
    }

    /** The relay intake's BatchAppend: the store mutex only, no cursor. */
    method BatchAppend(recs: seq<Record>)
      requires Valid()
      modifies `store, `machine
      ensures Valid() && store == old(store) + recs
      ensures machine.threads == old(machine.threads)
    {
      store := store + recs;
      Take(RelayAppend(recs));
    }

    /** appendLocalRecord: an operator append touches no cursor. */
    method AppendLocalRecord(rec: Record, stored: bool) returns (ok: bool)
      requires Valid()
      modifies `store, `machine
      ensures Valid() && ok == stored
      ensures store == if stored then old(store) + [rec] else old(store)
      ensures machine.threads == old(machine.threads)
    {
      if stored {
        store := store + [rec];
        Take(OperatorAppend(rec));
      }
      return stored;
    }

    /** An emitter's own state.Apply, ahead of the poll that will fold the record again. */
    method ApplyOwn(p: nat)
      requires Valid() && p < |store|
      modifies `state, `machine
      ensures Valid() && state == old(state) + {p}
      ensures machine.threads == old(machine.threads)
    {
      state := state + {p};
      Take(SelfApply(p));
    }

    method ClaimDispatchGap(total: nat) returns (start: nat)
      modifies `localDispatched
      ensures start == old(localDispatched)
      ensures localDispatched == Max(old(localDispatched), total)
    {
      start := localDispatched;
      if total > localDispatched {
        localDispatched := total;
      }
    }

    /** What dispatching one position does to the goroutine table and the deliveries. */
    ghost method TakeDispatchOf(t: Tid, i: nat, total: nat)
      requires Reachable(machine) && Holds(t, Dispatching(i, total)) && i < total <= |machine.log|
      modifies `machine
      ensures Reachable(machine)
      ensures Holds(t, Dispatching(i + 1, total)) && Others(t) == old(Others(t))
      ensures machine == old(machine).(threads := machine.threads, delivered := machine.delivered)
      ensures machine.delivered == old(machine.delivered) +
                if OperatorRecord(machine.operatorKey, machine.log[i]) then multiset{} else multiset{i}
    {
      TakeDispatch(t);
    }

    /** One round of the sweep: the record at i is dispatched, or skipped by its Sender. */
    method DispatchOne(msgs: seq<Record>, ghost before: seq<nat>, ghost start: nat, i: nat, ghost total: nat,
          ghost t: Tid)
      requires Valid() && msgs <= store && start <= i < total <= |msgs| && Holds(t, Dispatching(i, total))
      requires handled == Sweep(before, operatorKey, store, start, i)
      modifies `handled, `machine
      ensures Valid() && handled == Sweep(before, operatorKey, store, start, i + 1)
      ensures Holds(t, Dispatching(i + 1, total)) && Others(t) == old(Others(t))
    {
      if !(operatorKey != "" && msgs[i].sender == operatorKey) {
        handled := handled + [i];
      }
      TakeDispatchOf(t, i, total);
    }

    /** The end of a hold of localMu by a rebuild or an ingest. */
    method ClaimAndRelease(total: nat, ghost t: Tid) returns (dispatchStart: nat)
      requires Mirrors() && (machine.lock == Replaying(t, total, total) || machine.lock == Applying(t, total, total))
      modifies `localDispatched, `machine
      ensures Valid() && dispatchStart == old(localDispatched) && localDispatched == Max(dispatchStart, total)
      ensures Holds(t, Dispatching(dispatchStart, total)) && Others(t) == old(Others(t))
    {
      dispatchStart := ClaimDispatchGap(total);
      TakeLeave();
    }

    method DispatchEach(msgs: seq<Record>, start: nat, total: nat, ghost t: Tid)
      requires Valid() && msgs <= store && total <= |msgs|
      requires Holds(t, Dispatching(start, total))
      modifies `handled, `machine
      ensures Valid()
      ensures handled == Sweep(old(handled), operatorKey, store, start, total)
      ensures machine.threads == old(Others(t))
    {
      var i := start;
      while i < total
        invariant i == start || start < i <= total
        invariant Valid() && handled == Sweep(old(handled), operatorKey, store, start, i)
        invariant Holds(t, Dispatching(i, total)) && Others(t) == old(Others(t))
      {
        DispatchOne(msgs, old(handled), start, i, total, t);
        i := i + 1;
      }
      TakeFinish(t, i, total);
    }

    /** Hands over what the operator did not send, in order, and ends the claim. */
    method DispatchLocalGap(msgs: seq<Record>, start: nat, total: nat, ghost t: Tid)
      requires Valid() && msgs <= store && total <= |msgs|
      requires Holds(t, Dispatching(start, total))
      modifies `handled, `machine
      ensures Valid()
      ensures HandedOver(old(handled), handled, operatorKey, store, start, total)
      ensures handled == Sweep(old(handled), operatorKey, store, start, total)
      ensures machine.threads == old(Others(t))
    {
      DispatchEach(msgs, start, total, t);
      SweepIsHandedOver(old(handled), operatorKey, store, start, total);
    }

    /** The poll loop's hold of localMu: claim the fold gap and the dispatch gap of this snapshot. */
    method ClaimForPoll(msgs: seq<Record>) returns (foldStart: nat, dispatchStart: nat)
      requires Valid() && msgs <= store
      requires Holds(Poll, Local.Snapshot(|msgs|))
      modifies `localSeen, `localDispatched, `machine
      ensures Valid()
      ensures foldStart == old(localSeen) && dispatchStart == old(localDispatched)
      ensures localSeen == Max(foldStart, |msgs|) && localDispatched == Max(dispatchStart, |msgs|)
      ensures Holds(Poll, Folding(foldStart, |msgs|, dispatchStart)) && Others(Poll) == old(Others(Poll))
    {
      var total := |msgs|;
      foldStart := localSeen;
      if total > localSeen {
        localSeen := total;
      }
      dispatchStart := ClaimDispatchGap(total);
      TakePollClaim();
    }

    method ApplyOne(i: nat, ghost total: nat, ghost dispatchStart: nat)
      requires Valid() && Holds(Poll, Folding(i, total, dispatchStart)) && i < total
      modifies `state, `machine
      ensures Valid() && state == old(state) + {i}
      ensures Holds(Poll, Folding(i + 1, total, dispatchStart)) && Others(Poll) == old(Others(Poll))
    {
      state := state + {i};
      TakePollApply();
    }

    /** The poll loop's fold, outside localMu. */
    method ApplyGap(foldStart: nat, total: nat, ghost dispatchStart: nat)
      requires Valid() && Holds(Poll, Folding(foldStart, total, dispatchStart))
      modifies `state, `machine
      ensures Valid() && state == old(state) + Range(foldStart, total)
      ensures Holds(Poll, Dispatching(dispatchStart, total)) && Others(Poll) == old(Others(Poll))
    {
      var i := foldStart;
      while i < total
        invariant foldStart <= i && (i <= total || i == foldStart)
        invariant Valid() && state == old(state) + Range(foldStart, i)
        invariant Holds(Poll, Folding(i, total, dispatchStart)) && Others(Poll) == old(Others(Poll))
      {
        ApplyOne(i, total, dispatchStart);
        i := i + 1;
      }
      assert Range(foldStart, i) == Range(foldStart, total);
      TakePollFolded();
    }

    /** The poll loop's body, over a snapshot captured earlier and possibly stale by now. */
    method FoldAndDispatchLocalSnapshot(msgs: seq<Record>)
      requires Valid() && msgs <= store
      requires Holds(Poll, Local.Snapshot(|msgs|))
      modifies `localSeen, `localDispatched, `state, `handled, `machine
      ensures Valid()
      ensures localSeen == Max(old(localSeen), |msgs|)
      ensures localDispatched == Max(old(localDispatched), |msgs|)
      ensures state == old(state) + Range(old(localSeen), |msgs|)
      ensures handled == Sweep(old(handled), operatorKey, store, old(localDispatched), |msgs|)
      ensures machine.threads == old(Others(Poll))
    {
      var foldStart, dispatchStart := ClaimForPoll(msgs);
      ApplyGap(foldStart, |msgs|, dispatchStart);
      DispatchLocalGap(msgs, dispatchStart, |msgs|, Poll);
    }

    /** State.Replay: reset with the first window, then fold window by window. */
    method ReplayState(total: nat, ghost t: Tid)
      requires Mirrors() && machine.lock == Replaying(t, 0, total) && total > 0
      modifies `state, `machine
      ensures Mirrors() && state == Range(0, total)
      ensures machine.lock == Replaying(t, total, total) && machine.threads == old(machine.threads)
    {
      var start := 0;
      while start < total
        invariant start <= total && Mirrors() && (start > 0 ==> state == Range(0, start))
        invariant machine.lock == Replaying(t, start, total) && machine.threads == old(machine.threads)
      {
        start := ReplayWindow(start, total, t);
      }
    }

    method ReplayWindow(start: nat, total: nat, ghost t: Tid) returns (end: nat)
      requires start < total && Mirrors() && (start > 0 ==> state == Range(0, start))
      requires machine.lock == Replaying(t, start, total)
      modifies `state, `machine
      ensures start < end <= total && Mirrors() && state == Range(0, end)
      ensures machine.lock == Replaying(t, end, total) && machine.threads == old(machine.threads)
    {
      end := WindowEnd(start, total);
      state := (if start == 0 then {} else state) + Range(start, end);
      TakeRebuildWindow(end);
      assert Range(0, start) + Range(start, end) == Range(0, end);
    }

    /** The rebuild's hold of localMu: only a snapshot past localSeen re-folds State; the gap is claimed either way. */
    method RebuildUnderLock(msgs: seq<Record>, ghost n: nat) returns (dispatchStart: nat)
      requires Valid() && msgs <= store
      requires Holds(Worker(n), Local.Snapshot(|msgs|))
      modifies `localSeen, `localDispatched, `state, `machine
      ensures Valid() && dispatchStart == old(localDispatched)
      ensures localSeen == Max(old(localSeen), |msgs|) && localDispatched == Max(dispatchStart, |msgs|)
      ensures state == if |msgs| > old(localSeen) then Range(0, |msgs|) else old(state)
      ensures Holds(Worker(n), Dispatching(dispatchStart, |msgs|)) && Others(Worker(n)) == old(Others(Worker(n)))
    {
      var total := |msgs|;
      TakeRebuildEnter(n);
      if total > localSeen {
        localSeen := total;
        ReplayState(total, Worker(n));
      }
      dispatchStart := ClaimAndRelease(total, Worker(n));
    }

    /** The operator's refresh before a put-accept or put-reject, over a snapshot captured outside localMu. */
    method RebuildAndDispatchGapLocal(msgs: seq<Record>, ghost n: nat)
      requires Valid() && msgs <= store
      requires Holds(Worker(n), Local.Snapshot(|msgs|))
      modifies `localSeen, `localDispatched, `state, `handled, `machine
      ensures Valid()
      ensures localSeen == Max(old(localSeen), |msgs|)
      ensures localDispatched == Max(old(localDispatched), |msgs|)
      ensures state == if |msgs| > old(localSeen) then Range(0, |msgs|) else old(state)
      ensures handled == Sweep(old(handled), operatorKey, store, old(localDispatched), |msgs|)
      ensures machine.threads == old(Others(Worker(n)))
    {
      var dispatchStart := RebuildUnderLock(msgs, n);
      DispatchLocalGap(msgs, dispatchStart, |msgs|, Worker(n));
    }

    /** One State.Apply of an ingest's fold, under localMu. */
    method IngestOne(i: nat, total: nat, ghost t: Tid)
      requires i < total && Mirrors() && machine.lock == Applying(t, i, total)
      modifies `state, `machine
      ensures Mirrors() && state == old(state) + {i}
      ensures machine.lock == Applying(t, i + 1, total) && machine.threads == old(machine.threads)
    {
      state := state + {i};
      TakeIngestApply();
    }

    /** The ingest's fold, under localMu. */
    method IngestGap(foldStart: nat, total: nat, ghost t: Tid)
      requires foldStart <= total && Mirrors() && machine.lock == Applying(t, foldStart, total)
      modifies `state, `machine
      ensures Mirrors() && state == old(state) + Range(foldStart, total)
      ensures machine.lock == Applying(t, total, total) && machine.threads == old(machine.threads)
    {
      var i := foldStart;
      while i < total
        invariant foldStart <= i <= total && Mirrors() && state == old(state) + Range(foldStart, i)
        invariant machine.lock == Applying(t, i, total) && machine.threads == old(machine.threads)
      {
        IngestOne(i, total, t);
        i := i + 1;
      }
    }

    /** The ingest's hold of localMu after its append: snapshot, fold the whole gap, claim the dispatch gap. */
    method FoldUnderLock(ghost n: nat) returns (snap: seq<Record>, dispatchStart: nat)
      requires Mirrors() && machine.lock == Appended(Worker(n)) && localSeen <= |store|
      modifies `localSeen, `localDispatched, `state, `machine
      ensures Valid() && snap == store && dispatchStart == old(localDispatched)
      ensures localSeen == |store| && localDispatched == Max(dispatchStart, |store|)
      ensures state == old(state) + Range(old(localSeen), |store|)
      ensures Holds(Worker(n), Dispatching(dispatchStart, |store|)) && Others(Worker(n)) == old(Others(Worker(n)))
    {
      snap := store;
      var total := |snap|;
      var foldStart := localSeen;
      if total > localSeen {
        localSeen := total;
      }
      TakeIngestReplay();
      IngestGap(foldStart, total, Worker(n));
      dispatchStart := ClaimAndRelease(total, Worker(n));
    }

    /**
     A socket operation's record. `stored` and `replayed` say whether the store's
     Append and Replay succeed; a record whose Replay failed stays in the log,
     below no cursor, for the next sweep.
     */
    method IngestLocalRecord(rec: Record, stored: bool, replayed: bool, ghost n: nat) returns (ok: bool)
      requires Valid() && Worker(n) !in machine.threads
      modifies `store, `localSeen, `localDispatched, `state, `handled, `machine
      ensures Valid() && machine.threads == old(machine.threads)
      ensures ok == (rec.id != "" && stored && replayed)
      ensures store == if rec.id != "" && stored then old(store) + [rec] else old(store)
      ensures !ok ==> localSeen == old(localSeen) && localDispatched == old(localDispatched)
                      && state == old(state) && handled == old(handled)
      ensures ok ==> localSeen == localDispatched == |store|
                     && state == old(state) + Range(old(localSeen), |store|)
                     && handled == Sweep(old(handled), operatorKey, store, old(localDispatched), |store|)
    {
      if rec.id == "" || !stored {
        return false;
      }
      if !replayed {
        BatchAppend([rec]);
        return false;
      }
      CursorsInLog();
      AppendUnderLock(rec, n);
      var snap, dispatchStart := FoldUnderLock(n);
      DispatchLocalGap(snap, dispatchStart, |snap|, Worker(n));
      return true;
    }

    lemma CursorsInLog()
      requires Valid()
      ensures localSeen == localDispatched <= |store|
    {
      CursorsAgree(machine);
    }

    method AppendUnderLock(rec: Record, ghost n: nat)
      requires Valid() && Worker(n) !in machine.threads
      modifies `store, `machine
      ensures Mirrors() && store == old(store) + [rec]
      ensures machine.lock == Appended(Worker(n)) && machine.threads == old(machine.threads)
    {
      store := store + [rec];
      TakeIngestAppend(n, rec);
    }
  }
}
