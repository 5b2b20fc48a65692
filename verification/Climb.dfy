/**
 The egress fence of the climb from a lone operator to a fleet: a watermark,
 counted in the operator's own records, below which nothing is published; and
 its reconstruction from the log when the sidecar that holds it is gone.
 */
module Climb {
  import opened Wrappers

  /**
   A payload as the fence reads it: unparseable, or its version, its content, and the raw text of its envelope, ""
   when absent.
   */
  datatype Payload = Unparseable | Fields(version: int, content: string, envelope: string)

  datatype Record = Record(origin: string, payload: Payload)

  predicate IsOperatorOrigin(origin: string) {
    origin == "" || origin == "local"
  }

  /**
   recordCarriesInlinePlaintextContent: a confidential envelope is safe, whatever else the record holds; what cannot
   be read is not.
   */
  predicate CarriesPlaintext(p: Payload) {
    match p
    case Unparseable => true
    case Fields(version, content, envelope) =>
      !(version >= 2 && envelope != "" && envelope != "null") && content != ""
  }

  /**
   What counts, kind by kind: what cannot be read does; an envelope of version two
   or later does not, whatever stands beside it; of the rest, exactly what has content.
   */
  lemma PlaintextByKind(version: int, content: string, envelope: string)
    ensures CarriesPlaintext(Unparseable)
    ensures version >= 2 && envelope !in {"", "null"} ==> !CarriesPlaintext(Fields(version, content, envelope))
    ensures version < 2 || envelope in {"", "null"} ==>
              (CarriesPlaintext(Fields(version, content, envelope)) <==> content != "")
  {
  }

  /** The operator's records, as the outbox counts them. */
  function Own(log: seq<Record>): (own: seq<Payload>)
    decreases |log|
  {
    if log == [] then []
    else
      var init, last := log[..|log| - 1], log[|log| - 1];
      if IsOperatorOrigin(last.origin) then Own(init) + [last.payload] else Own(init)
  }

  /** A record is the operator's when it names no origin or the local one. */
  lemma OwnByOrigin(rec: Record)
    ensures Own([rec]) == if rec.origin in {"", "local"} then [rec.payload] else []
  {
    assert [rec][..0] == [];
  }

  /** An outbox that starts publishing at this position publishes no plaintext. */
  ghost predicate Safe(own: seq<Payload>, cursor: int) {
    forall i :: cursor <= i < |own| && 0 <= i ==> !CarriesPlaintext(own[i])
  }

  /** The position past the last plaintext record: the lowest safe cursor. */
  ghost predicate IsWatermark(own: seq<Payload>, w: int) {
    && 0 <= w <= |own| && Safe(own, w)
    && (w > 0 ==> CarriesPlaintext(own[w - 1]))
  }

  function Watermark(own: seq<Payload>): (w: nat)
    ensures IsWatermark(own, w)
    decreases |own|
  {
    if own == [] then 0
    else if CarriesPlaintext(own[|own| - 1]) then |own|
    else Watermark(own[..|own| - 1])
  }

  /** There is one watermark, and it is the lowest cursor that leaks nothing. */
  lemma WatermarkIsLowestSafe(own: seq<Payload>, w: int)
    ensures IsWatermark(own, w) <==> w == Watermark(own)
    ensures forall cursor :: 0 <= cursor ==> (Safe(own, cursor) <==> Watermark(own) <= cursor)
  {
  }

  lemma {:induction false} OwnOfTwo(log: seq<Record>, more: seq<Record>)
    ensures Own(log + more) == Own(log) + Own(more)
    decreases |more|
  {
    if more == [] {
      assert log + more == log;
    } else {
      var init, last := more[..|more| - 1], more[|more| - 1];
      assert (log + more)[..|log + more| - 1] == log + init;
      OwnOfTwo(log, init);
    }
  }

  lemma SafeOfTwo(own: seq<Payload>, tail: seq<Payload>, cursor: nat)
    requires cursor <= |own|
    ensures Safe(own + tail, cursor) <==> Safe(own, cursor) && Safe(tail, 0)
  {
    assert forall i :: 0 <= i < |tail| ==> (own + tail)[|own| + i] == tail[i];
    assert forall i :: 0 <= i < |own| ==> (own + tail)[i] == own[i];
  }

  /** Growth moves the reconstructed watermark exactly when it brings an operator record with inline plaintext. */
  lemma RecomputedIsUnchangedExactlyWithoutPlaintext(log: seq<Record>, more: seq<Record>)
    ensures Watermark(Own(log + more)) == Watermark(Own(log)) <==> Safe(Own(more), 0)
    ensures Watermark(Own(log + more)) >= Watermark(Own(log))
  {
    OwnOfTwo(log, more);
    var own, tail := Own(log), Own(more);
    var w, grown := Watermark(own), Watermark(own + tail);
    WatermarkIsLowestSafe(own, w);
    WatermarkIsLowestSafe(own + tail, w);
    SafeOfTwo(own, tail, w);
    if grown < w { SafeOfTwo(own, tail, grown); }
  }

  // ----- The sidecar over a life of starts, appends and losses -----

  datatype Sidecar = Missing | Empty | Unreadable | Value(n: int)

  /**
   establishClimbWatermark: what it returns, and what it leaves on disk; `works` says that the log is read and the
   sidecar written.
   */
  function Established(log: seq<Record>, sidecar: Sidecar, works: bool): (Option<nat>, Sidecar) {
    match sidecar
    case Missing => if works then (Some(Watermark(Own(log))), Value(Watermark(Own(log)))) else (None, sidecar)
    case Empty => (None, sidecar)
    case Unreadable => (None, sidecar)
    case Value(n) => (if n < 0 then None else Some(n), sidecar)
  }

  datatype Event = Append(rec: Record) | Start(works: bool) | Lose

  datatype Disk = Disk(log: seq<Record>, sidecar: Sidecar)

  function After(d: Disk, e: Event): Disk {
    match e
    case Append(rec) => d.(log := d.log + [rec])
    case Start(works) => d.(sidecar := Established(d.log, d.sidecar, works).1)
    case Lose => d.(sidecar := Missing)
  }

  function Lived(d: Disk, events: seq<Event>): Disk
    decreases |events|
  {
    if events == [] then d else After(Lived(d, events[..|events| - 1]), events[|events| - 1])
  }

  /** The records a life appends. */
  function Appends(events: seq<Event>): seq<Record>
    decreases |events|
  {
    if events == [] then []
    else
      var init, last := Appends(events[..|events| - 1]), events[|events| - 1];
      if last.Append? then init + [last.rec] else init
  }

  predicate PostClimb(e: Event) {
    e.Append? && IsOperatorOrigin(e.rec.origin) ==> !CarriesPlaintext(e.rec.payload)
  }

  /** Nobody else can read anything in the record: it has no content, or an envelope of version two or later. */
  predicate Sealed(p: Payload) {
    p.Fields? && (p.content == "" || (p.version >= 2 && p.envelope !in {"", "null"}))
  }

  lemma SealedOrPlaintext(p: Payload)
    ensures Sealed(p) <==> !CarriesPlaintext(p)
  {
  }

  ghost predicate Fenced(d: Disk, w: nat) {
    && (d.sidecar == Missing || d.sidecar == Value(w))
    && Watermark(Own(d.log)) == w
  }

  lemma EventKeepsFenced(d: Disk, e: Event, w: nat)
    requires Fenced(d, w) && PostClimb(e)
    ensures Fenced(After(d, e), w)
  {
    if e.Append? { SafeRecordKeepsWatermark(d.log, e.rec); }
  }

  lemma {:induction false} LifeKeepsFenced(d: Disk, events: seq<Event>, w: nat)
    requires Fenced(d, w) && forall e :: e in events ==> PostClimb(e)
    ensures Fenced(Lived(d, events), w)
    decreases |events|
  {
    if events != [] {
      LifeKeepsFenced(d, events[..|events| - 1], w);
      EventKeepsFenced(Lived(d, events[..|events| - 1]), events[|events| - 1], w);
    }
  }

  lemma {:induction false} LogOnlyGrows(d: Disk, events: seq<Event>)
    ensures Lived(d, events).log == d.log + Appends(events)
    decreases |events|
  {
    if events != [] { LogOnlyGrows(d, events[..|events| - 1]); }
  }

  /**
   After the climb, however the log grows without operator plaintext and
   however often the sidecar is lost, every start that gets through returns the
   original watermark, and only a start over a lost sidecar can fail; from it no
   plaintext of the operator's is ever published.
   */
  lemma FenceHoldsForLife(solo: seq<Record>, events: seq<Event>, works: bool)
    requires forall e :: e in events ==> PostClimb(e)
    ensures var w := Watermark(Own(solo)); var d := Lived(Disk(solo, Missing), events);
            && Fenced(d, w) && d.log == solo + Appends(events)
            && (d.sidecar == Missing || d.sidecar == Value(w))
            && Established(d.log, d.sidecar, works).0 == (if d.sidecar == Missing && !works then None else Some(w))
            && (forall i :: w <= i < |Own(d.log)| ==> Sealed(Own(d.log)[i]))
            && (w > 0 ==> !Sealed(Own(d.log)[w - 1]))
  {
    LifeKeepsFenced(Disk(solo, Missing), events, Watermark(Own(solo)));
    LogOnlyGrows(Disk(solo, Missing), events);
    AboveWatermarkIsSealed(Own(solo + Appends(events)));
  }

  lemma SafeRecordKeepsWatermark(log: seq<Record>, rec: Record)
    requires PostClimb(Append(rec))
    ensures Watermark(Own(log + [rec])) == Watermark(Own(log))
  {
    RecomputedIsUnchangedExactlyWithoutPlaintext(log, [rec]);
    assert [rec][..0] == [];
  }

  lemma AboveWatermarkIsSealed(own: seq<Payload>)
    ensures forall i :: Watermark(own) <= i < |own| ==> Sealed(own[i])
    ensures Watermark(own) > 0 ==> !Sealed(own[Watermark(own) - 1])
  {
    assert Safe(own, Watermark(own));
    forall p ensures Sealed(p) <==> !CarriesPlaintext(p) { SealedOrPlaintext(p); }
  }

  /** The sidecar is there from the first start that gets through until it is lost, and is never there otherwise. */
  lemma SidecarAfter(d: Disk, e: Event)
    requires d.sidecar == Missing || d.sidecar.Value?
    ensures var after := After(d, e).sidecar;
            && (after == Missing <==> e.Lose? || (d.sidecar == Missing && !(e.Start? && e.works)))
            && (after.Value? && d.sidecar.Value? ==> after == d.sidecar)
  {
  }

  // ----- The scan -----

  /** The operator's data directory: the log, and the sidecar beside it. */
  class ClimbFence {
    var log: seq<Record>
    var sidecar: Sidecar

    constructor (log: seq<Record>, sidecar: Sidecar)
      ensures this.log == log && this.sidecar == sidecar
    {
      this.log, this.sidecar := log, sidecar;
    }

    method EstablishClimbWatermark(works: bool) returns (watermark: Option<nat>)
      modifies `sidecar
      ensures (watermark, sidecar) == Established(log, old(sidecar), works)
    {
      match sidecar
      case Empty => return None;
      case Unreadable => return None;
      case Value(n) =>
        if n < 0 {
          return None;
        }
        return Some(n);
      case Missing =>
        if !works {
          return None;
        }
        var localPos, w := 0, 0;
        for i := 0 to |log|
          invariant localPos == |Own(log[..i])| && IsWatermark(Own(log[..i]), w)
        {
          ghost var seen := log[..i + 1];
          assert seen[..|seen| - 1] == log[..i] && seen[|seen| - 1] == log[i];
          if IsOperatorOrigin(log[i].origin) {
            localPos := localPos + 1;
            if CarriesPlaintext(log[i].payload) {
              w := localPos;
            }
          }
        }
        assert log[..|log|] == log;
        WatermarkIsLowestSafe(Own(log), w);
        sidecar := Value(w);
        watermark := Some(w);
    }
  }
}
