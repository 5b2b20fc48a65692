/**
 The single reader of a relay leg, which survives drops by re-subscribing before
 it reads again, and the publisher whose blocked publishes it answers: with the
 relay's verdict, or with the news that the connection dropped.
 */
module Reconnect {
  import opened Wrappers

  type Id = string

  // ----- Backoff -----

  datatype Backoff = Backoff(initial: int, max: int)

  const DEFAULT_INITIAL := 10

  function Initial(b: Backoff): int {
    if b.initial <= 0 then DEFAULT_INITIAL else b.initial
  }

  function Grown(b: Backoff, delay: int): int {
    if b.max <= 0 then delay
    else if 2 * delay > b.max then b.max
    else 2 * delay
  }

  /** The delay after this many failures in a row. */
  function DelayAfter(b: Backoff, failures: nat): int {
    if failures == 0 then Initial(b) else Grown(b, DelayAfter(b, failures - 1))
  }

  function Pow2(n: nat): (p: int)
    ensures p >= 1
  {
    if n == 0 then 1 else 2 * Pow2(n - 1)
  }

  function Min(a: int, b: int): int {
    if a <= b then a else b
  }

  function Bound(b: Backoff): int {
    if b.max > Initial(b) then b.max else Initial(b)
  }

  /** Retry by retry the delay doubles up to its ceiling; with no ceiling it never moves. */
  lemma {:induction false} DelayDoublesUpToMax(b: Backoff, failures: nat)
    ensures b.max <= 0 ==> DelayAfter(b, failures) == Initial(b)
    ensures b.max > 0 && failures > 0 ==> DelayAfter(b, failures) == Min(Initial(b) * Pow2(failures), b.max)
    ensures 0 < DelayAfter(b, failures) <= Bound(b)
  {
    if failures > 0 {
      DelayDoublesUpToMax(b, failures - 1);
      Doubled(Initial(b), Pow2(failures - 1));
    }
  }

  lemma Doubled(x: int, p: int)
    requires x >= 1 && p >= 1
    ensures x * (2 * p) == 2 * (x * p) && x * p >= x
  {
  }

  // ----- The reader loop and the publishers, step by step -----

  datatype LoopEvent =
    | PassBegan
    | PassEnded
    | FailedInFlight
    | ResubscribeFailed
    | Waited(delay: int)
    | Resubscribed

  datatype Verdict = Answer(accepted: bool) | Dropped

  datatype WireEvent =
    | Registered(id: Id, ch: nat)
    | OkArrived(id: Id, accepted: bool)
    | Reported(id: Id, ch: nat, accepted: bool)
    | Errored(id: Id, ch: nat)

  datatype Phase = Ready | Reading | Ended | Resubscribing | Backing | Settling | Stopped

  /** A waiter's channel holds at most one verdict. */
  datatype Channel = Channel(id: Id, verdict: Option<Verdict>)

  /** An OK frame between the lookup of its waiter and the send. */
  datatype Routing = Routing(ch: nat, accepted: bool)

  /**
   `failures` counts failed re-subscribes in a row; `failedBelow` is how many channels existed at the last
   failInFlight.
   */
  datatype World = World(backoff: Backoff, phase: Phase, delay: int, failures: nat, cancelled: bool,
        trace: seq<LoopEvent>,
                         waiters: map<Id, nat>, channels: seq<Channel>, routing: Option<Routing>, failedBelow: nat,
                             wire: seq<WireEvent>)

  datatype Step =
    | Cancel
    | BeginPass
    | EndPass
    | FailInFlight
    | Resubscribe(sent: bool)
    | WaitOut
    | StopWaiting
    | Register(id: Id)
    | SendFails(id: Id)
    | Take(id: Id)
    | GiveUp(id: Id)
    | OkFrame(id: Id, accepted: bool)
    | Route

  ghost predicate Enabled(w: World, step: Step) {
    match step
    case Cancel => true
    case BeginPass => w.phase.Ready?
    case EndPass => w.phase.Reading? && w.routing.None?
    case FailInFlight => w.phase.Ended?
    case Resubscribe(_) => w.phase.Resubscribing?
    case WaitOut => w.phase.Backing? || w.phase.Settling?
    case StopWaiting => w.cancelled && (w.phase.Backing? || w.phase.Settling?)
    case Register(id) => id !in w.waiters
    case SendFails(id) => id in w.waiters
    case Take(id) => id in w.waiters && w.waiters[id] < |w.channels| && w.channels[w.waiters[id]].verdict.Some?
    case GiveUp(id) => id in w.waiters && w.cancelled
    case OkFrame(_, _) => w.phase.Reading? && w.routing.None?
    case Route => w.routing.Some? && w.routing.value.ch < |w.channels|
  }

  function PassBegun(w: World): World {
    if w.cancelled then w.(phase := Stopped) else w.(phase := Reading, trace := w.trace + [PassBegan])
  }

  function PassOver(w: World): World {
    w.(phase := if w.cancelled then Stopped else Ended, trace := w.trace + [PassEnded])
  }

  function Offered(c: Channel, v: Verdict): Channel {
    if c.verdict.None? then c.(verdict := Some(v)) else c
  }

  /** failInFlight: every registered waiter that has no verdict yet is told the connection dropped. */
  function AllFailed(waiters: map<Id, nat>, channels: seq<Channel>): (failed: seq<Channel>)
    ensures |failed| == |channels|
    ensures forall c :: 0 <= c < |channels| ==>
              failed[c] == if channels[c].id in waiters
                  && waiters[channels[c].id] == c then Offered(channels[c], Dropped) else channels[c]
  {
    seq(|channels|, c requires 0 <= c < |channels| =>
      if channels[c].id in waiters && waiters[channels[c].id] == c then Offered(channels[c], Dropped) else channels[c])
  }

  function InFlightFailed(w: World): World {
    w.(phase := Resubscribing, trace := w.trace + [FailedInFlight],
       channels := AllFailed(w.waiters, w.channels), failedBelow := |w.channels|)
  }

  function ResubscribeTried(w: World, sent: bool): World {
    if w.cancelled then w.(phase := Stopped)
    else if sent then w.(phase := Settling, delay := Initial(w.backoff), failures := 0,
        trace := w.trace + [Resubscribed])
    else w.(phase := Backing, trace := w.trace + [ResubscribeFailed])
  }

  function WaitedOut(w: World): World {
    if w.phase.Backing? then
      w.(phase := Resubscribing, trace := w.trace + [Waited(w.delay)], delay := Grown(w.backoff, w.delay),
          failures := w.failures + 1)
    else
      w.(phase := Ready, trace := w.trace + [Waited(w.delay)])
  }

  function WaiterRegistered(w: World, id: Id): World {
    var ch := |w.channels|;
    w.(waiters := w.waiters[id := ch], channels := w.channels + [Channel(id, None)],
        wire := w.wire + [Registered(id, ch)])
  }

  function PublishErrored(w: World, id: Id): World
    requires id in w.waiters
  {
    w.(waiters := w.waiters - {id}, wire := w.wire + [Errored(id, w.waiters[id])])
  }

  /** PublishEvent returning: the verdict on its channel decides what it reports. */
  function PublishReturned(w: World, id: Id): World
    requires id in w.waiters && w.waiters[id] < |w.channels| && w.channels[w.waiters[id]].verdict.Some?
  {
    var ch := w.waiters[id];
    match w.channels[ch].verdict.value
    case Dropped => PublishErrored(w, id)
    case Answer(accepted) => w.(waiters := w.waiters - {id}, wire := w.wire + [Reported(id, ch, accepted)])
  }

  function OkSeen(w: World, id: Id, accepted: bool): World {
    w.(wire := w.wire + [OkArrived(id, accepted)], routing := if id in w.waiters
        then Some(Routing(w.waiters[id], accepted)) else None)
  }

  function OkRouted(w: World): World
    requires w.routing.Some? && w.routing.value.ch < |w.channels|
  {
    var ch := w.routing.value.ch;
    w.(routing := None, channels := w.channels[ch := Offered(w.channels[ch], Answer(w.routing.value.accepted))])
  }

  /** A step that is not enabled does nothing. */
  ghost function Do(w: World, step: Step): World {
    if !Enabled(w, step) then w
    else
      match step
      case Cancel => w.(cancelled := true)
      case BeginPass => PassBegun(w)
      case EndPass => PassOver(w)
      case FailInFlight => InFlightFailed(w)
      case Resubscribe(sent) => ResubscribeTried(w, sent)
      case WaitOut => WaitedOut(w)
      case StopWaiting => w.(phase := Stopped)
      case Register(id) => WaiterRegistered(w, id)
      case SendFails(id) => PublishErrored(w, id)
      case Take(id) => PublishReturned(w, id)
      case GiveUp(id) => PublishErrored(w, id)
      case OkFrame(id, accepted) => OkSeen(w, id, accepted)
      case Route => OkRouted(w)
  }

  ghost function Exec(w: World, steps: seq<Step>): World
    decreases |steps|
  {
    if steps == [] then w else Do(Exec(w, steps[..|steps| - 1]), steps[|steps| - 1])
  }

  function Start(backoff: Backoff): World {
    World(backoff, Ready, Initial(backoff), 0, false, [], map[], [], None, 0, [])
  }

  // ----- What a pass is preceded by -----

  /** The loop's order of events; None for anything out of order. */
  function Next(phase: Option<Phase>, e: LoopEvent): Option<Phase> {
    match (phase, e)
    case (Some(Ready), PassBegan) => Some(Reading)
    case (Some(Reading), PassEnded) => Some(Ended)
    case (Some(Ended), FailedInFlight) => Some(Resubscribing)
    case (Some(Resubscribing), ResubscribeFailed) => Some(Backing)
    case (Some(Backing), Waited(_)) => Some(Resubscribing)
    case (Some(Resubscribing), Resubscribed) => Some(Settling)
    case (Some(Settling), Waited(_)) => Some(Ready)
    case _ => None
  }

  function PhaseAfter(trace: seq<LoopEvent>, n: nat): Option<Phase>
    requires n <= |trace|
  {
    if n == 0 then Some(Ready) else Next(PhaseAfter(trace, n - 1), trace[n - 1])
  }

  ghost predicate LoopInv(w: World) {
    && w.delay == DelayAfter(w.backoff, w.failures)
    && (forall i :: 0 <= i < |w.trace| && w.trace[i].Waited? ==> 0 < w.trace[i].delay <= Bound(w.backoff))
    && PhaseAfter(w.trace, |w.trace|).Some?
    && (w.phase.Stopped? || PhaseAfter(w.trace, |w.trace|) == Some(w.phase))
  }

  lemma {:induction false} PhaseReadsOnlyThePrefix(s: seq<LoopEvent>, t: seq<LoopEvent>, n: nat)
    requires n <= |s| && s <= t
    ensures PhaseAfter(s, n) == PhaseAfter(t, n)
  {
    if n > 0 { PhaseReadsOnlyThePrefix(s, t, n - 1); }
  }

  lemma PhaseOneMore(trace: seq<LoopEvent>, e: LoopEvent)
    ensures PhaseAfter(trace + [e], |trace| + 1) == Next(PhaseAfter(trace, |trace|), e)
  {
    PhaseReadsOnlyThePrefix(trace, trace + [e], |trace|);
  }

  lemma DelayIsBounded(b: Backoff, failures: nat)
    ensures 0 < DelayAfter(b, failures) <= Bound(b)
  {
  }

  lemma WaitKeepsLoop(w: World)
    requires LoopInv(w) && (w.phase.Backing? || w.phase.Settling?)
    ensures LoopInv(WaitedOut(w))
  {
    PhaseOneMore(w.trace, Waited(w.delay));
    DelayIsBounded(w.backoff, w.failures);
  }

  lemma ResubscribeKeepsLoop(w: World, sent: bool)
    requires LoopInv(w) && w.phase.Resubscribing?
    ensures LoopInv(ResubscribeTried(w, sent))
  {
    PhaseOneMore(w.trace, if sent then Resubscribed else ResubscribeFailed);
  }

  lemma StepKeepsLoop(w: World, step: Step)
    requires LoopInv(w)
    ensures LoopInv(Do(w, step)) && Do(w, step).backoff == w.backoff
  {
    if Enabled(w, step) {
      match step {
        case BeginPass => PhaseOneMore(w.trace, PassBegan);
        case EndPass => PhaseOneMore(w.trace, PassEnded);
        case FailInFlight => PhaseOneMore(w.trace, FailedInFlight);
        case Resubscribe(sent) => ResubscribeKeepsLoop(w, sent);
        case WaitOut => WaitKeepsLoop(w);
        case _ =>
      }
    }
  }

  // ----- The waits -----

  /**
   The wait at k, read off the trace alone: after a failed try that followed
   another wait it is twice that wait, up to the ceiling, or the same with no
   ceiling; after the first failed try of a recovery, and before reading again, it
   is the initial one.
   */
  ghost predicate WaitIsRight(b: Backoff, trace: seq<LoopEvent>, k: nat)
    requires k < |trace|
  {
    trace[k].Waited? ==>
      && k >= 2 && trace[k - 1] in {ResubscribeFailed, Resubscribed}
      && trace[k].delay ==
         if trace[k - 1].ResubscribeFailed? && trace[k - 2].Waited? then
           (if 0 < b.max < 2 * trace[k - 2].delay then b.max
            else if 0 < b.max then 2 * trace[k - 2].delay else trace[k - 2].delay)
         else if b.initial > 0 then b.initial else 10
  }

  ghost predicate WaitsAreRight(b: Backoff, trace: seq<LoopEvent>) {
    forall k :: 0 <= k < |trace| ==> WaitIsRight(b, trace, k)
  }

  /** What the last events say of the wait to come. */
  ghost predicate NextWaitIsRight(w: World) {
    var n := |w.trace|;
    match w.phase
    case Resubscribing => n >= 1 && LastWait(w, n - 1)
    case Backing => n >= 2 && w.trace[n - 1] == ResubscribeFailed && LastWait(w, n - 2)
    case Settling => n >= 2 && w.trace[n - 1] == Resubscribed && w.failures == 0
    case Stopped => true
    case _ => w.failures == 0
  }

  ghost predicate LastWait(w: World, k: nat)
    requires k < |w.trace|
  {
    if w.failures == 0 then w.trace[k] == FailedInFlight
    else w.trace[k].Waited? && w.delay == Grown(w.backoff, w.trace[k].delay)
  }

  lemma OneMoreWait(b: Backoff, trace: seq<LoopEvent>, e: LoopEvent)
    requires WaitsAreRight(b, trace) && WaitIsRight(b, trace + [e], |trace|)
    ensures WaitsAreRight(b, trace + [e])
  {
    forall k | 0 <= k < |trace| ensures WaitIsRight(b, trace + [e], k) {
      assert WaitIsRight(b, trace, k);
    }
  }

  lemma WaitKeepsWaits(w: World)
    requires LoopInv(w) && WaitsAreRight(w.backoff, w.trace) && NextWaitIsRight(w)
             && (w.phase.Backing? || w.phase.Settling?)
    ensures WaitsAreRight(w.backoff, WaitedOut(w).trace) && NextWaitIsRight(WaitedOut(w))
  {
    OneMoreWait(w.backoff, w.trace, Waited(w.delay));
  }

  lemma StepKeepsWaits(w: World, step: Step)
    requires LoopInv(w) && WaitsAreRight(w.backoff, w.trace) && NextWaitIsRight(w)
    ensures WaitsAreRight(w.backoff, Do(w, step).trace) && NextWaitIsRight(Do(w, step))
  {
    if Enabled(w, step) {
      match step {
        case WaitOut => WaitKeepsWaits(w);
        case BeginPass => OneMoreWait(w.backoff, w.trace, PassBegan);
        case EndPass => OneMoreWait(w.backoff, w.trace, PassEnded);
        case FailInFlight => OneMoreWait(w.backoff, w.trace, FailedInFlight);
        case Resubscribe(sent) => OneMoreWait(w.backoff, w.trace, if sent then Resubscribed else ResubscribeFailed);
        case _ =>
      }
    }
  }

  /** In every run, wherever it is cancelled, each wait of the loop doubles the one before it as the backoff allows. */
  lemma {:induction false} WaitsDoubleInEveryRun(backoff: Backoff, steps: seq<Step>)
    ensures var w := Exec(Start(backoff), steps); WaitsAreRight(backoff, w.trace) && NextWaitIsRight(w)
    decreases |steps|
  {
    if steps != [] {
      var init, last := steps[..|steps| - 1], steps[|steps| - 1];
      WaitsDoubleInEveryRun(backoff, init);
      LoopIsOrderly(backoff, init);
      StepKeepsWaits(Exec(Start(backoff), init), last);
    }
  }

  /** Where a recovery under way began: with the drop, and the unblocking of publishers right after it. */
  ghost predicate RecoversFrom(trace: seq<LoopEvent>, f: nat, n: nat) {
    && 0 < f < n <= |trace| && trace[f - 1] == PassEnded && trace[f] == FailedInFlight
    && forall k :: f < k < n ==> trace[k] == ResubscribeFailed || trace[k].Waited?
  }

  lemma {:induction false} RecoveryBegan(trace: seq<LoopEvent>, n: nat) returns (f: nat)
    requires n <= |trace| && (PhaseAfter(trace, n) == Some(Resubscribing) || PhaseAfter(trace, n) == Some(Backing))
    ensures RecoversFrom(trace, f, n)
  {
    if trace[n - 1] == FailedInFlight {
      f := n - 1;
      assert PhaseAfter(trace, n - 1) == Some(Ended);
    } else {
      f := RecoveryBegan(trace, n - 1);
    }
  }

  ghost predicate RecoveryEndsAt(trace: seq<LoopEvent>, n: nat) {
    exists f :: RecoversFrom(trace, f, n)
  }

  /**
   A pass other than the first: the drop before it was answered by failInFlight, then by tries until one got through,
   and only then a settle wait.
   */
  ghost predicate PrecededByRecovery(trace: seq<LoopEvent>, i: nat) {
    2 <= i <= |trace| && trace[i - 2] == Resubscribed && trace[i - 1].Waited? && RecoveryEndsAt(trace, i - 2)
  }

  lemma {:induction false} PhaseIsAlwaysSome(trace: seq<LoopEvent>, i: nat)
    requires i <= |trace| && PhaseAfter(trace, |trace|).Some?
    ensures PhaseAfter(trace, i).Some?
    decreases |trace| - i
  {
    if i < |trace| { PhaseIsAlwaysSome(trace, i + 1); }
  }

  lemma PassIsPreceded(trace: seq<LoopEvent>, i: nat)
    requires 0 < i < |trace| && trace[i] == PassBegan && PhaseAfter(trace, |trace|).Some?
    ensures PrecededByRecovery(trace, i)
  {
    PhaseIsAlwaysSome(trace, i + 1);
    assert PhaseAfter(trace, i) == Some(Ready);
    assert PhaseAfter(trace, i - 1) == Some(Settling) && trace[i - 1].Waited?;
    assert PhaseAfter(trace, i - 2) == Some(Resubscribing) && trace[i - 2] == Resubscribed;
    var f := RecoveryBegan(trace, i - 2);
  }

  /**
   In every run, every read pass after the first follows a whole recovery, and every wait is within the backoff bound.
   */
  lemma {:induction false} LoopIsOrderly(backoff: Backoff, steps: seq<Step>)
    ensures var w := Exec(Start(backoff), steps);
            && LoopInv(w) && w.backoff == backoff
            && (forall i :: 0 < i < |w.trace| && w.trace[i] == PassBegan ==> PrecededByRecovery(w.trace, i))
            && (forall i :: 0 <= i < |w.trace| && w.trace[i].Waited? ==> 0 < w.trace[i].delay <= Bound(backoff))
    decreases |steps|
  {
    if steps != [] {
      LoopIsOrderly(backoff, steps[..|steps| - 1]);
      StepKeepsLoop(Exec(Start(backoff), steps[..|steps| - 1]), steps[|steps| - 1]);
    }
    var w := Exec(Start(backoff), steps);
    forall i | 0 < i < |w.trace| && w.trace[i] == PassBegan ensures PrecededByRecovery(w.trace, i) {
      PassIsPreceded(w.trace, i);
    }
  }

  // ----- What a publish is told -----

  /** An OK with this verdict for the id arrived after this very waiter was registered. */
  ghost predicate AnsweredAfter(wire: seq<WireEvent>, id: Id, ch: nat, accepted: bool) {
    exists i, j :: 0 <= i < j < |wire| && wire[i] == Registered(id, ch) && wire[j] == OkArrived(id, accepted)
  }

  ghost predicate RegisteredIn(wire: seq<WireEvent>, id: Id, ch: nat) {
    exists i :: 0 <= i < |wire| && wire[i] == Registered(id, ch)
  }

  ghost predicate ChannelHolds(wire: seq<WireEvent>, c: Channel, ch: nat) {
    RegisteredIn(wire, c.id, ch)
    && (c.verdict.Some? && c.verdict.value.Answer? ==> AnsweredAfter(wire, c.id, ch, c.verdict.value.accepted))
  }

  ghost predicate PublishInv(w: World) {
    && (forall id :: id in w.waiters ==> w.waiters[id] < |w.channels| && w.channels[w.waiters[id]].id == id)
    && (forall c :: 0 <= c < |w.channels| ==> ChannelHolds(w.wire, w.channels[c], c))
    && (w.routing.Some? ==>
          && w.routing.value.ch < |w.channels|
          && AnsweredAfter(w.wire, w.channels[w.routing.value.ch].id, w.routing.value.ch, w.routing.value.accepted))
    && w.failedBelow <= |w.channels|
    && (forall id :: id in w.waiters && w.waiters[id] < w.failedBelow ==> w.channels[w.waiters[id]].verdict.Some?)
    && (w.routing.Some? ==> w.phase.Reading?)
    && (forall k :: 0 <= k < |w.wire| && w.wire[k].Reported? ==>
          AnsweredAfter(w.wire[..k], w.wire[k].id, w.wire[k].ch, w.wire[k].accepted))
  }

  lemma EvidenceGrows(wire: seq<WireEvent>, e: WireEvent)
    ensures forall id, ch, a :: AnsweredAfter(wire, id, ch, a) ==> AnsweredAfter(wire + [e], id, ch, a)
    ensures forall id, ch :: RegisteredIn(wire, id, ch) ==> RegisteredIn(wire + [e], id, ch)
    ensures forall k :: 0 <= k <= |wire| ==> (wire + [e])[..k] == wire[..k]
  {
    forall id, ch, a | AnsweredAfter(wire, id, ch, a) ensures AnsweredAfter(wire + [e], id, ch, a) {
      var i, j :| 0 <= i < j < |wire| && wire[i] == Registered(id, ch) && wire[j] == OkArrived(id, a);
      assert (wire + [e])[i] == Registered(id, ch) && (wire + [e])[j] == OkArrived(id, a);
    }
    forall id, ch | RegisteredIn(wire, id, ch) ensures RegisteredIn(wire + [e], id, ch) {
      var i :| 0 <= i < |wire| && wire[i] == Registered(id, ch);
      assert (wire + [e])[i] == Registered(id, ch);
    }
  }

  lemma RegisterKeepsPublish(w: World, id: Id)
    requires PublishInv(w) && id !in w.waiters
    ensures PublishInv(WaiterRegistered(w, id))
  {
    var w' := WaiterRegistered(w, id);
    EvidenceGrows(w.wire, Registered(id, |w.channels|));
    assert w'.wire[|w.wire|] == Registered(id, |w.channels|);
  }

  lemma OkKeepsPublish(w: World, id: Id, accepted: bool)
    requires PublishInv(w) && w.phase.Reading? && w.routing.None?
    ensures PublishInv(OkSeen(w, id, accepted))
  {
    var w' := OkSeen(w, id, accepted);
    EvidenceGrows(w.wire, OkArrived(id, accepted));
    if id in w.waiters {
      assert ChannelHolds(w.wire, w.channels[w.waiters[id]], w.waiters[id]);
      var i :| 0 <= i < |w.wire| && w.wire[i] == Registered(id, w.waiters[id]);
      assert w'.wire[i] == Registered(id, w.waiters[id]) && w'.wire[|w.wire|] == OkArrived(id, accepted);
    }
  }

  /** A publisher that returns takes its waiter with it and adds one line to the record. */
  lemma ReturnKeepsPublish(w: World, id: Id, e: WireEvent)
    requires PublishInv(w) && id in w.waiters
    requires e == Errored(id, w.waiters[id]) || (e.Reported? && e.id == id && e.ch == w.waiters[id]
             && w.channels[e.ch].verdict == Some(Answer(e.accepted)))
    ensures PublishInv(w.(waiters := w.waiters - {id}, wire := w.wire + [e]))
  {
    EvidenceGrows(w.wire, e);
    assert ChannelHolds(w.wire, w.channels[w.waiters[id]], w.waiters[id]);
    var wire' := w.wire + [e];
    forall k | 0 <= k < |wire'| && wire'[k].Reported?
      ensures AnsweredAfter(wire'[..k], wire'[k].id, wire'[k].ch, wire'[k].accepted)
    {
      assert wire'[..k] == w.wire[..k];
    }
    forall c | 0 <= c < |w.channels| ensures ChannelHolds(wire', w.channels[c], c) {
      assert ChannelHolds(w.wire, w.channels[c], c);
    }
  }

  lemma FailInFlightKeepsPublish(w: World)
    requires PublishInv(w) && w.phase.Ended?
    ensures PublishInv(InFlightFailed(w))
  {
  }

  lemma RouteKeepsPublish(w: World)
    requires PublishInv(w) && w.routing.Some?
    ensures PublishInv(OkRouted(w))
  {
  }

  lemma StepKeepsPublish(w: World, step: Step)
    requires PublishInv(w)
    ensures PublishInv(Do(w, step))
  {
    if Enabled(w, step) {
      match step {
        case Register(id) => RegisterKeepsPublish(w, id);
        case OkFrame(id, accepted) => OkKeepsPublish(w, id, accepted);
        case Take(id) =>
          var ch := w.waiters[id];
          var verdict := w.channels[ch].verdict.value;
          ReturnKeepsPublish(w, id, if verdict.Dropped? then Errored(id, ch) else Reported(id, ch, verdict.accepted));
        case SendFails(id) => ReturnKeepsPublish(w, id, Errored(id, w.waiters[id]));
        case GiveUp(id) => ReturnKeepsPublish(w, id, Errored(id, w.waiters[id]));
        case FailInFlight => FailInFlightKeepsPublish(w);
        case Route => RouteKeepsPublish(w);
        case _ =>
      }
    }
  }

  /**
   In every run: a publish that was waiting when a drop was handled has a
   verdict to take, then and ever after, so it cannot block on; and a publish
   reports acceptance or refusal only if an OK saying so arrived after it registered.
   */
  lemma {:induction false} NoPublishWedges(backoff: Backoff, steps: seq<Step>)
    ensures var w := Exec(Start(backoff), steps);
            && PublishInv(w)
            && (forall id :: id in w.waiters && w.waiters[id] < w.failedBelow ==> Enabled(w, Take(id)))
            && (w.phase.Resubscribing? && w.failedBelow == |w.channels| ==> forall id :: id in w.waiters ==>
                  Enabled(w, Take(id)))
            && (forall k :: 0 <= k < |w.wire| && w.wire[k].Reported? ==>
                  AnsweredAfter(w.wire[..k], w.wire[k].id, w.wire[k].ch, w.wire[k].accepted))
    decreases |steps|
  {
    if steps != [] {
      NoPublishWedges(backoff, steps[..|steps| - 1]);
      StepKeepsPublish(Exec(Start(backoff), steps[..|steps| - 1]), steps[|steps| - 1]);
    }
  }

  /** A publish that is answered: its OK, accepting or not, comes back to it and to nobody else, and its waiter goes. */
  lemma AnsweredPublish(w: World, id: Id, accepted: bool)
    requires PublishInv(w) && id !in w.waiters && w.phase.Reading? && w.routing.None?
    ensures var ch := |w.channels|;
            var waiting := Do(w, Register(id));
            var answered := Do(Do(waiting, OkFrame(id, accepted)), Route);
            var after := Do(answered, Take(id));
            && waiting.waiters == w.waiters[id := ch] && Do(waiting, Take(id)) == waiting
            && answered.channels == w.channels + [Channel(id, Some(Answer(accepted)))]
            && after.wire == w.wire + [Registered(id, ch), OkArrived(id, accepted), Reported(id, ch, accepted)]
            && after.waiters == w.waiters && after.routing.None? && after.channels == answered.channels
  {
    var ch := |w.channels|;
    var waiting := Do(w, Register(id));
    var answered := Do(Do(waiting, OkFrame(id, accepted)), Route);
    assert waiting.channels[ch] == Channel(id, None);
    assert answered.wire == w.wire + [Registered(id, ch), OkArrived(id, accepted)];
    assert w.waiters[id := ch] - {id} == w.waiters;
  }

  /** A publish that is not: the drop is handled, it is told so, and its waiter goes. */
  lemma DroppedPublish(w: World, id: Id)
    requires PublishInv(w) && id in w.waiters && w.channels[w.waiters[id]].verdict.None?
    requires w.phase.Reading? && w.routing.None? && !w.cancelled
    ensures var ch := w.waiters[id];
            var handled := Do(Do(w, EndPass), FailInFlight);
            var after := Do(handled, Take(id));
            && handled.channels[ch].verdict == Some(Dropped) && handled.failedBelow == |handled.channels|
            && handled.wire == w.wire && handled.waiters == w.waiters
            && after.wire == w.wire + [Errored(id, ch)] && after.waiters == w.waiters - {id}
  {
  }

  /** A send that fails and a context that expires end a publish in an error; an OK nobody waits for changes nothing. */
  lemma PublishEnds(w: World, id: Id, accepted: bool)
    ensures id in w.waiters ==>
              var gone := w.(waiters := w.waiters - {id}, wire := w.wire + [Errored(id, w.waiters[id])]);
              && Do(w, SendFails(id)) == gone
              && Do(w, GiveUp(id)) == if w.cancelled then gone else w
    ensures id !in w.waiters && w.phase.Reading? && w.routing.None? ==>
              Do(w, OkFrame(id, accepted)) == w.(wire := w.wire + [OkArrived(id, accepted)])
  {
  }

  /** The first verdict on a channel stays: a later OK is dropped, and so is the news of a drop. */
  lemma FirstVerdictStays(w: World, step: Step, c: nat)
    requires c < |w.channels| && w.channels[c].verdict.Some?
    ensures c < |Do(w, step).channels| && Do(w, step).channels[c] == w.channels[c]
  {
  }

  // ----- The running objects -----

  /** A buffered channel of one. */
  class Waiter {
    var slot: Option<Verdict>

    constructor ()
      ensures slot == None
    {
      slot := None;
    }

    /** A send that never blocks: a full channel keeps what it has. */
    method Offer(v: Verdict)
      modifies this
      ensures slot == if old(slot).None? then Some(v) else old(slot)
    {
      if slot.None? {
        slot := Some(v);
      }
    }
  }

  datatype PublishResult = Acked(accepted: bool) | Failed

  class DemuxPublisher {
    var waiters: map<Id, Waiter>

    /** One channel per publish in flight. */
    ghost predicate Valid()
      reads this
    {
      forall a, b :: a in waiters && b in waiters && a != b ==> waiters[a] != waiters[b]
    }

    constructor ()
      ensures Valid() && waiters == map[]
    {
      waiters := map[];
    }

    method Register(id: Id) returns (ch: Waiter)
      requires Valid() && id !in waiters
      modifies this
      ensures Valid() && fresh(ch) && ch.slot == None && waiters == old(waiters)[id := ch]
    {
      ch := new Waiter();
      waiters := waiters[id := ch];
    }

    method Unregister(id: Id)
      requires Valid()
      modifies this
      ensures Valid() && waiters == old(waiters) - {id}
    {
      waiters := waiters - {id};
    }

    /**
     What a registered publish comes back with once its send has ended: the
     verdict on its channel, or an error if the send failed, the context expired
     first, or the connection dropped.  Its waiter goes either way.
     */
    method Await(id: Id, ch: Waiter, sent: bool, expired: bool) returns (r: PublishResult)
      requires Valid() && id in waiters && waiters[id] == ch
      requires sent && !expired ==> ch.slot.Some?
      modifies this, ch
      ensures Valid() && waiters == old(waiters) - {id}
      ensures forall accepted :: r == Acked(accepted) <==> sent && !expired && old(ch.slot) == Some(Answer(accepted))
    {
      r := Failed;
      if sent && !expired {
        var verdict := ch.slot.value;
        ch.slot := None;
        if verdict.Answer? {
          r := Acked(verdict.accepted);
        }
      }
      Unregister(id);
    }

    method RouteOK(id: Id, accepted: bool)
      requires Valid()
      modifies waiters.Values
      ensures id in waiters && old(waiters[id].slot).None? ==> waiters[id].slot == Some(Answer(accepted))
      ensures forall other :: other in waiters && (other != id || old(waiters[other].slot).Some?) ==>
              waiters[other].slot == old(waiters[other].slot)
    {
      if id !in waiters {
        return;
      }
      var ch := waiters[id];
      ch.Offer(Answer(accepted));
    }

    /** Every publish in flight has a verdict afterwards; one that already had an answer keeps it. */
    method FailInFlight()
      requires Valid()
      modifies waiters.Values
      ensures forall id :: id in waiters ==>
                waiters[id].slot == if old(waiters[id].slot).None? then Some(Dropped) else old(waiters[id].slot)
    {
      var rest := waiters.Keys;
      while rest != {}
        invariant rest <= waiters.Keys && waiters == old(waiters)
        invariant forall id :: id in rest ==> waiters[id].slot == old(waiters[id].slot)
        invariant forall id :: id in waiters && id !in rest ==>
                    waiters[id].slot == if old(waiters[id].slot).None? then Some(Dropped) else old(waiters[id].slot)
        decreases |rest|
      {
        var id :| id in rest;
        rest := rest - {id};
        var ch := waiters[id];
        ch.Offer(Dropped);
      }
    }
  }

  /** The events of one drop: unblocking, failed tries each with its wait, the try that got through, the settle wait. */
  function RetryTrace(b: Backoff, failures: nat): seq<LoopEvent> {
    if failures == 0 then [] else RetryTrace(b, failures - 1) + [ResubscribeFailed, Waited(DelayAfter(b, failures - 1))]
  }

  /** A pass, its drop, and as many failed tries. */
  function Recovering(b: Backoff, failures: nat): seq<LoopEvent> {
    [PassBegan, PassEnded, FailedInFlight] + RetryTrace(b, failures)
  }

  /**
   Whole recoveries, given how many tries fail after each drop; the delay is back to its initial value after every
   one.
   */
  function LoopTrace(b: Backoff, drops: seq<nat>): seq<LoopEvent>
    decreases |drops|
  {
    if drops == [] then []
    else LoopTrace(b, drops[..|drops| - 1]) + (Recovering(b, drops[|drops| - 1]) + [Resubscribed, Waited(Initial(b))])
  }

  /** Where the context is cancelled: between passes, in one, or in a recovery after so many failed tries. */
  datatype Ending =
    | BeforePass
    | InPass
    | BeforeTry(failures: nat)
    | InBackoff(failures: nat)
    | InSettle(failures: nat)

  function Failures(e: Ending): nat {
    if e.BeforePass? || e.InPass? then 0 else e.failures
  }

  function EndingTrace(b: Backoff, e: Ending): seq<LoopEvent> {
    match e
    case BeforePass => []
    case InPass => [PassBegan, PassEnded]
    case BeforeTry(failures) => Recovering(b, failures)
    case InBackoff(failures) => Recovering(b, failures) + [ResubscribeFailed]
    case InSettle(failures) => Recovering(b, failures) + [Resubscribed]
  }

  /** The tries that fail after one drop, each with its wait. */
  method RetryReconnect(b: Backoff, failures: nat) returns (tries: seq<LoopEvent>)
    ensures tries == RetryTrace(b, failures)
  {
    var delay := if b.initial <= 0 then DEFAULT_INITIAL else b.initial;
    tries := [];
    for f := 0 to failures
      invariant tries == RetryTrace(b, f) && delay == DelayAfter(b, f)
    {
      tries := tries + [ResubscribeFailed, Waited(delay)];
      if b.max > 0 {
        delay := 2 * delay;
        if delay > b.max {
          delay := b.max;
        }
      }
    }
  }

  /** runReaderReconnect: any number of whole recoveries, and then the context cancelled anywhere. */
  method RunReaderReconnect(b: Backoff, drops: seq<nat>, e: Ending) returns (trace: seq<LoopEvent>)
    ensures trace == LoopTrace(b, drops) + EndingTrace(b, e)
  {
    var initial := if b.initial <= 0 then DEFAULT_INITIAL else b.initial;
    trace := [];
    for d := 0 to |drops|
      invariant trace == LoopTrace(b, drops[..d])
    {
      ghost var seen := drops[..d + 1];
      assert seen[..|seen| - 1] == drops[..d] && seen[|seen| - 1] == drops[d];
      var tries := RetryReconnect(b, drops[d]);
      trace := trace + ([PassBegan, PassEnded, FailedInFlight] + tries + [Resubscribed, Waited(initial)]);
    }
    assert drops[..|drops|] == drops;
    if e.BeforePass? {
      return;
    }
    if e.InPass? {
      return trace + [PassBegan, PassEnded];
    }
    var last := RetryReconnect(b, Failures(e));
    var recovering := [PassBegan, PassEnded, FailedInFlight] + last;
    if e.InBackoff? {
      recovering := recovering + [ResubscribeFailed];
    } else if e.InSettle? {
      recovering := recovering + [Resubscribed];
    }
    trace := trace + recovering;
  }

  lemma {:induction false} PhaseOfTwo(s: seq<LoopEvent>, t: seq<LoopEvent>)
    requires PhaseAfter(s, |s|) == Some(Ready)
    ensures PhaseAfter(s + t, |s + t|) == PhaseAfter(t, |t|)
    decreases |t|
  {
    if t == [] {
      assert s + t == s;
    } else {
      var init, last := t[..|t| - 1], t[|t| - 1];
      PhaseOfTwo(s, init);
      assert t == init + [last] && s + t == (s + init) + [last];
      PhaseOneMore(s + init, last);
      PhaseOneMore(init, last);
    }
  }

  lemma {:induction false} RetriesStayInRecovery(b: Backoff, failures: nat)
    ensures PhaseAfter(Recovering(b, failures), |Recovering(b, failures)|) == Some(Resubscribing)
  {
    var opening := [PassBegan, PassEnded, FailedInFlight];
    if failures == 0 {
      assert Recovering(b, 0) == opening;
      assert PhaseAfter(opening, 1) == Some(Reading) && PhaseAfter(opening, 2) == Some(Ended);
    } else {
      RetriesStayInRecovery(b, failures - 1);
      var before, wait := Recovering(b, failures - 1), Waited(DelayAfter(b, failures - 1));
      PhaseOneMore(before, ResubscribeFailed);
      PhaseOneMore(before + [ResubscribeFailed], wait);
      assert Recovering(b, failures) == before + [ResubscribeFailed] + [wait];
    }
  }

  lemma {:induction false} RecoveriesEndReady(b: Backoff, drops: seq<nat>)
    ensures PhaseAfter(LoopTrace(b, drops), |LoopTrace(b, drops)|) == Some(Ready)
    decreases |drops|
  {
    if drops != [] {
      var init, pass := drops[..|drops| - 1], Recovering(b, drops[|drops| - 1]);
      RecoveriesEndReady(b, init);
      RetriesStayInRecovery(b, drops[|drops| - 1]);
      PhaseOneMore(pass, Resubscribed);
      PhaseOneMore(pass + [Resubscribed], Waited(Initial(b)));
      PhaseOfTwo(LoopTrace(b, init), pass + [Resubscribed] + [Waited(Initial(b))]);
      assert LoopTrace(b, drops) == LoopTrace(b, init) + (pass + [Resubscribed] + [Waited(Initial(b))]);
    }
  }

  /** Where the machine is when the loop is cancelled. */
  function EndingPhase(e: Ending): Phase {
    match e
    case BeforePass => Ready
    case InPass => Ended
    case BeforeTry(_) => Resubscribing
    case InBackoff(_) => Backing
    case InSettle(_) => Settling
  }

  lemma EndingIsOrderly(b: Backoff, e: Ending)
    ensures PhaseAfter(EndingTrace(b, e), |EndingTrace(b, e)|) == Some(EndingPhase(e))
  {
    RetriesStayInRecovery(b, Failures(e));
    match e {
      case BeforePass =>
      case InPass => assert PhaseAfter([PassBegan, PassEnded], 1) == Some(Reading);
      case BeforeTry(_) =>
      case InBackoff(failures) => PhaseOneMore(Recovering(b, failures), ResubscribeFailed);
      case InSettle(failures) => PhaseOneMore(Recovering(b, failures), Resubscribed);
    }
  }

  lemma WaitsOfTwo(b: Backoff, s: seq<LoopEvent>, t: seq<LoopEvent>)
    requires WaitsAreRight(b, s) && WaitsAreRight(b, t)
    ensures WaitsAreRight(b, s + t)
  {
    var both := s + t;
    forall k | 0 <= k < |both| ensures WaitIsRight(b, both, k) {
      assert if k < |s| then WaitIsRight(b, s, k) else WaitIsRight(b, t, k - |s|);
    }
  }

  lemma {:induction false} RecoveryWaits(b: Backoff, failures: nat)
    ensures var r := Recovering(b, failures);
            && WaitsAreRight(b, r) && |r| == 3 + 2 * failures
            && r[|r| - 1] == if failures == 0 then FailedInFlight else Waited(DelayAfter(b, failures - 1))
  {
    if failures > 0 {
      RecoveryWaits(b, failures - 1);
      var before := Recovering(b, failures - 1);
      var wait := Waited(DelayAfter(b, failures - 1));
      OneMoreWait(b, before, ResubscribeFailed);
      OneMoreWait(b, before + [ResubscribeFailed], wait);
      assert Recovering(b, failures) == before + [ResubscribeFailed] + [wait];
    }
  }

  lemma {:induction false} RecoveriesWait(b: Backoff, drops: seq<nat>)
    ensures WaitsAreRight(b, LoopTrace(b, drops))
    decreases |drops|
  {
    if drops != [] {
      var init, pass := drops[..|drops| - 1], Recovering(b, drops[|drops| - 1]);
      RecoveriesWait(b, init);
      RecoveryWaits(b, drops[|drops| - 1]);
      OneMoreWait(b, pass, Resubscribed);
      OneMoreWait(b, pass + [Resubscribed], Waited(Initial(b)));
      assert pass + [Resubscribed] + [Waited(Initial(b))] == pass + [Resubscribed, Waited(Initial(b))];
      WaitsOfTwo(b, LoopTrace(b, init), pass + [Resubscribed, Waited(Initial(b))]);
    }
  }

  lemma EndingWaits(b: Backoff, e: Ending)
    ensures WaitsAreRight(b, EndingTrace(b, e))
  {
    RecoveryWaits(b, Failures(e));
    if e.InBackoff? { OneMoreWait(b, Recovering(b, e.failures), ResubscribeFailed); }
    if e.InSettle? { OneMoreWait(b, Recovering(b, e.failures), Resubscribed); }
  }

  /**
   What the running loop emits is in the order the machine allows, however many tries each drop takes and wherever it
   is cancelled, and each of its waits is the one the backoff calls for.
   */
  lemma LoopTraceIsOrderly(b: Backoff, drops: seq<nat>, e: Ending)
    ensures var trace := LoopTrace(b, drops) + EndingTrace(b, e);
            PhaseAfter(trace, |trace|) == Some(EndingPhase(e)) && WaitsAreRight(b, trace)
  {
    RecoveriesWait(b, drops);
    EndingWaits(b, e);
    WaitsOfTwo(b, LoopTrace(b, drops), EndingTrace(b, e));
    RecoveriesEndReady(b, drops);
    EndingIsOrderly(b, e);
    PhaseOfTwo(LoopTrace(b, drops), EndingTrace(b, e));
  }

  // ----- The loop as it runs is a run of the machine -----

  lemma ExecOneMore(w: World, steps: seq<Step>, step: Step)
    ensures Exec(w, steps + [step]) == Do(Exec(w, steps), step)
  {
    assert (steps + [step])[..|steps|] == steps;
  }

  lemma {:induction false} ExecOfTwo(w: World, s: seq<Step>, t: seq<Step>)
    ensures Exec(w, s + t) == Exec(Exec(w, s), t)
    decreases |t|
  {
    if t == [] {
      assert s + t == s;
    } else {
      var init, last := t[..|t| - 1], t[|t| - 1];
      assert s + t == (s + init) + [last];
      ExecOfTwo(w, s, init);
      ExecOneMore(w, s + init, last);
    }
  }

  /** Two or three steps by name. */
  lemma ExecOfThree(w: World, a: Step, b: Step, c: Step)
    ensures Exec(w, [a, b]) == Do(Do(w, a), b) && Exec(w, [a, b, c]) == Do(Do(Do(w, a), b), c)
  {
    ExecOneMore(w, [], a);
    ExecOneMore(w, [a], b);
    ExecOneMore(w, [a, b], c);
    assert [] + [a] == [a] && [a] + [b] == [a, b] && [a, b] + [c] == [a, b, c];
  }

  function Retries(failures: nat): seq<Step> {
    if failures == 0 then [] else Retries(failures - 1) + [Resubscribe(false), WaitOut]
  }

  /** A pass, its drop, and the tries that fail. */
  function RecoverSteps(failures: nat): seq<Step> {
    [BeginPass, EndPass, FailInFlight] + Retries(failures)
  }

  /** Between passes, with the delay at its start. */
  predicate AtRest(w: World) {
    w.phase.Ready? && !w.cancelled && w.routing.None? && w.failures == 0 && w.delay == Initial(w.backoff)
  }

  lemma FailedTryRuns(w: World)
    requires w.phase.Resubscribing? && !w.cancelled
    ensures Exec(w, [Resubscribe(false), WaitOut]) ==
            w.(trace := w.trace + [ResubscribeFailed, Waited(w.delay)], delay := Grown(w.backoff, w.delay),
               failures := w.failures + 1)
  {
    ExecOfThree(w, Resubscribe(false), WaitOut, WaitOut);
    assert w.trace + [ResubscribeFailed] + [Waited(w.delay)] == w.trace + [ResubscribeFailed, Waited(w.delay)];
  }

  lemma {:induction false} RetriesRun(w: World, failures: nat)
    requires w.phase.Resubscribing? && !w.cancelled && w.failures == 0 && w.delay == Initial(w.backoff)
    ensures Exec(w, Retries(failures)) == w.(trace := w.trace + RetryTrace(w.backoff, failures), failures := failures,
                                             delay := DelayAfter(w.backoff, failures))
  {
    if failures == 0 {
      assert w.trace + [] == w.trace;
    } else {
      var before := Exec(w, Retries(failures - 1));
      RetriesRun(w, failures - 1);
      ExecOfTwo(w, Retries(failures - 1), [Resubscribe(false), WaitOut]);
      FailedTryRuns(before);
      SameEvents(w.trace, RetryTrace(w.backoff, failures - 1), [ResubscribeFailed, Waited(before.delay)]);
    }
  }

  lemma OpeningRuns(w: World)
    requires AtRest(w)
    ensures var dropped := Exec(w, [BeginPass, EndPass, FailInFlight]);
            && dropped.phase.Resubscribing? && !dropped.cancelled && dropped.routing.None?
            && dropped.backoff == w.backoff && dropped.failures == 0 && dropped.delay == w.delay
            && dropped.trace == w.trace + [PassBegan, PassEnded, FailedInFlight]
  {
    ExecOfThree(w, BeginPass, EndPass, FailInFlight);
  }

  lemma RecoveryRuns(w: World, failures: nat)
    requires AtRest(w)
    ensures var tried := Exec(w, RecoverSteps(failures));
            && tried.phase.Resubscribing? && !tried.cancelled && tried.routing.None? && tried.backoff == w.backoff
            && tried.failures == failures && tried.delay == DelayAfter(w.backoff, failures)
            && tried.trace == w.trace + Recovering(w.backoff, failures)
  {
    var opening := [BeginPass, EndPass, FailInFlight];
    var dropped := Exec(w, opening);
    OpeningRuns(w);
    ExecOfTwo(w, opening, Retries(failures));
    RetriesRun(dropped, failures);
    SameEvents(w.trace, [PassBegan, PassEnded, FailedInFlight], RetryTrace(w.backoff, failures));
  }

  lemma SameEvents(s: seq<LoopEvent>, t: seq<LoopEvent>, u: seq<LoopEvent>)
    ensures s + t + u == s + (t + u)
  {
  }

  lemma WholeRecoveryRuns(w: World, failures: nat)
    requires AtRest(w)
    ensures var after := Exec(w, RecoverSteps(failures) + [Resubscribe(true), WaitOut]);
            && AtRest(after) && after.backoff == w.backoff
            && after.trace == w.trace + (Recovering(w.backoff, failures) + [Resubscribed, Waited(Initial(w.backoff))])
  {
    RecoveryRuns(w, failures);
    ExecOfTwo(w, RecoverSteps(failures), [Resubscribe(true), WaitOut]);
    ExecOfThree(Exec(w, RecoverSteps(failures)), Resubscribe(true), WaitOut, WaitOut);
  }

  lemma {:induction false} RecoveriesRun(b: Backoff, drops: seq<nat>) returns (steps: seq<Step>)
    ensures var w := Exec(Start(b), steps); AtRest(w) && w.backoff == b && w.trace == LoopTrace(b, drops)
    decreases |drops|
  {
    steps := [];
    if drops != [] {
      steps := RecoveriesRun(b, drops[..|drops| - 1]);
      var whole := RecoverSteps(drops[|drops| - 1]) + [Resubscribe(true), WaitOut];
      WholeRecoveryRuns(Exec(Start(b), steps), drops[|drops| - 1]);
      ExecOfTwo(Start(b), steps, whole);
      steps := steps + whole;
    }
  }

  /** Where the context is cancelled, and what the loop still does then. */
  function EndingSteps(e: Ending): seq<Step> {
    match e
    case BeforePass => [Cancel, BeginPass]
    case InPass => [BeginPass, Cancel, EndPass]
    case BeforeTry(failures) => RecoverSteps(failures) + [Cancel, Resubscribe(true)]
    case InBackoff(failures) => RecoverSteps(failures) + [Resubscribe(false), Cancel, StopWaiting]
    case InSettle(failures) => RecoverSteps(failures) + [Resubscribe(true), Cancel, StopWaiting]
  }

  /** A recovery cancelled before a try, in the wait after a failed one, or in the settle wait. */
  lemma RecoveryStops(tried: World)
    requires tried.phase.Resubscribing? && !tried.cancelled
    ensures var stopped := Exec(tried, [Cancel, Resubscribe(true)]);
            stopped.phase.Stopped? && stopped.trace == tried.trace
    ensures var stopped := Exec(tried, [Resubscribe(false), Cancel, StopWaiting]);
            stopped.phase.Stopped? && stopped.trace == tried.trace + [ResubscribeFailed]
    ensures var stopped := Exec(tried, [Resubscribe(true), Cancel, StopWaiting]);
            stopped.phase.Stopped? && stopped.trace == tried.trace + [Resubscribed]
  {
    ExecOfThree(tried, Cancel, Resubscribe(true), Cancel);
    ExecOfThree(tried, Resubscribe(false), Cancel, StopWaiting);
    ExecOfThree(tried, Resubscribe(true), Cancel, StopWaiting);
  }

  lemma PassStops(w: World)
    requires AtRest(w)
    ensures Exec(w, [Cancel, BeginPass]).phase.Stopped? && Exec(w, [Cancel, BeginPass]).trace == w.trace
    ensures var stopped := Exec(w, [BeginPass, Cancel, EndPass]);
            stopped.phase.Stopped? && stopped.trace == w.trace + [PassBegan, PassEnded]
  {
    ExecOfThree(w, Cancel, BeginPass, BeginPass);
    ExecOfThree(w, BeginPass, Cancel, EndPass);
  }

  lemma EndingRuns(w: World, e: Ending)
    requires AtRest(w)
    ensures var after := Exec(w, EndingSteps(e));
            after.phase.Stopped? && after.trace == w.trace + EndingTrace(w.backoff, e)
  {
    if e.BeforePass? || e.InPass? {
      PassStops(w);
      assert w.trace + [] == w.trace;
    } else {
      RecoveryRuns(w, e.failures);
      RecoveryStops(Exec(w, RecoverSteps(e.failures)));
      var last := if e.BeforeTry? then [Cancel, Resubscribe(true)]
                  else [Resubscribe(e.InSettle?), Cancel, StopWaiting];
      ExecOfTwo(w, RecoverSteps(e.failures), last);
    }
  }

  /**
   Whatever the running loop emits, for any number of drops and failed tries and
   wherever it is cancelled, is the trace of a run of the machine that has stopped.
   */
  lemma LoopIsARun(b: Backoff, drops: seq<nat>, e: Ending) returns (steps: seq<Step>)
    ensures var w := Exec(Start(b), steps); w.phase.Stopped? && w.trace == LoopTrace(b, drops) + EndingTrace(b, e)
  {
    steps := RecoveriesRun(b, drops);
    EndingRuns(Exec(Start(b), steps), e);
    ExecOfTwo(Start(b), steps, EndingSteps(e));
    steps := steps + EndingSteps(e);
  }

  /** Once stopped, the loop stays stopped and emits nothing more. */
  lemma StoppedForGood(w: World, step: Step)
    requires w.phase.Stopped?
    ensures Do(w, step).phase.Stopped? && Do(w, step).trace == w.trace
  {
  }
}
