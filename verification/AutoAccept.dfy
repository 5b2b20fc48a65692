/**
 Assigned work from posting to pay: the fold of assign messages, the acceptance
 gates of the auto-accept ticker, and the payment that moves an accepted assign
 to paid.  The paid mark is kept in the live state only; a rebuild of the state
 from the log forgets it.
 */
module AutoAccept {
  import opened Auction
  import opened ReplayWindow
  import opened Wrappers

  type Id = nat
  type Bytes = string

  /** The id of a completion there is none of. */
  const NO_ID: Id := 0

  /** The completion evidence, as parsed; `digestOf` is what the reported hash is a hash of. */
  datatype Result =
    | Malformed
    | Inline(decoded: Option<Bytes>, size: int, digestOf: Bytes)
    | PutReference(put: Id)

  datatype Msg =
    | Assign(id: Id, compress: bool, reward: int, entry: Id, exclusive: Key, deadline: Option<int>)
    | Claim(id: Id, assign: Id, sender: Key, at: int, bid: Option<int>)
    | AuctionClose(id: Id, assign: Id)
    | Complete(id: Id, claim: Id, sender: Key, result: Result)
    | Accept(id: Id, complete: Id)
    | Reject(id: Id, complete: Id)
    | Expire(id: Id, antecedent: Id)

  // ----- The fold -----

  datatype Status = Open | Claimed | Completed | Accepted | Paid | Expired

  /** `deadline` is when bidding ends, if the assign is auctioned; `price` what its last close cleared at. */
  datatype Work = Work(compress: bool, reward: int, entry: Id, exclusive: Key, deadline: Option<int>, bids: seq<Bid>,
                       status: Status, claimant: Key, claim: Id, complete: Id, result: Result, price: int)

  /** The assign maps of the state: records, claim slots held, and the claim, completion and review indexes. */
  datatype Board = Board(work: map<Id, Work>, held: map<Key, Id>, claims: map<Id, Id>, completes: map<Id, Id>,
        pending: map<Id, Id>)

  const EMPTY := Board(map[], map[], map[], map[], map[])

  function Posted(b: Board, m: Msg): Board
    requires m.Assign?
  {
    if m.id in b.work then b
    else b.(work := b.work[m.id :=
        Work(m.compress, m.reward, m.entry, m.exclusive, m.deadline, [], Open, "", 0, 0, Malformed, 0)])
  }

  function ClaimedBy(b: Board, assign: Id, claim: Id, worker: Key, price: int): Board
    requires assign in b.work
  {
    b.(work := b.work[assign := b.work[assign].(status := Claimed, claimant := worker, claim := claim, price := price)],
       held := b.held[worker := assign], claims := b.claims[claim := assign])
  }

  /** A claim on an auctioned assign is a bid: before the deadline, positive, and no more than ten times the reward. */
  function BidFolded(b: Board, m: Msg): Board
    requires m.Claim? && m.assign in b.work && b.work[m.assign].deadline.Some?
  {
    var w := b.work[m.assign];
    var amount := if m.bid.Some? then m.bid.value else w.reward;
    if m.at >= w.deadline.value then b
    else if w.reward > 0 && amount > w.reward * AUCTION_BID_CEIL_MULTIPLIER then b
    else if amount <= 0 then b
    else b.(work := b.work[m.assign := w.(bids := WithBid(w.bids, m.sender, amount))])
  }

  /** applyAssignClaim. */
  function ClaimFolded(b: Board, m: Msg): Board
    requires m.Claim?
  {
    if m.assign !in b.work || !b.work[m.assign].status.Open? then b
    else
      var w := b.work[m.assign];
      if w.exclusive != "" && m.sender != w.exclusive then b
      else if w.deadline.Some? then BidFolded(b, m)
      else if m.sender in b.held then b
      else ClaimedBy(b, m.assign, m.id, m.sender, w.price)
  }

  /** applyAssignAuctionClose: the close stands for the claim of the lowest bidder. */
  function CloseFolded(b: Board, m: Msg): Board
    requires m.AuctionClose?
  {
    if m.assign !in b.work || !b.work[m.assign].status.Open? || b.work[m.assign].bids == [] then b
    else
      var bids := b.work[m.assign].bids;
      ClaimedBy(b, m.assign, m.id, Winner(bids).worker, ClearingPrice(bids))
  }

  function CompleteFolded(b: Board, m: Msg): Board
    requires m.Complete?
  {
    if m.claim !in b.claims || b.claims[m.claim] !in b.work then b
    else
      var assign := b.claims[m.claim];
      var w := b.work[assign];
      if !w.status.Claimed? || m.sender != w.claimant then b
      else
        Board(b.work[assign := w.(status := Completed, complete := m.id, result := m.result)],
              b.held - {m.sender}, b.claims - {m.claim}, b.completes[m.id := assign], b.pending[m.id := assign])
  }

  predicate UnderReview(b: Board, complete: Id) {
    complete in b.pending && b.pending[complete] in b.work && b.work[b.pending[complete]].status.Completed?
  }

  function AcceptFolded(b: Board, complete: Id): Board {
    if !UnderReview(b, complete) then b
    else
      var assign := b.pending[complete];
      b.(work := b.work[assign := b.work[assign].(status := Accepted)], pending := b.pending - {complete})
  }

  function RejectFolded(b: Board, complete: Id): Board {
    if !UnderReview(b, complete) then b
    else
      var assign := b.pending[complete];
      b.(work := b.work[assign :=
          b.work[assign].(status := Open, claimant := "", claim := 0, complete := 0, result := Malformed)],
         completes := b.completes - {complete}, pending := b.pending - {complete})
  }

  /** applyAssignExpire: a lapsed claim reopens its assign; an open assign past its deadline closes for good. */
  function ExpireFolded(b: Board, antecedent: Id): Board {
    if antecedent in b.claims then
      var assign := b.claims[antecedent];
      if assign !in b.work || !b.work[assign].status.Claimed? then b
      else
        var w := b.work[assign];
        b.(work := b.work[assign := w.(status := Open, claimant := "", claim := 0)],
           held := b.held - {w.claimant}, claims := b.claims - {antecedent})
    else if antecedent in b.work && b.work[antecedent].status.Open? then
      b.(work := b.work[antecedent := b.work[antecedent].(status := Expired)])
    else b
  }

  function Folded(b: Board, m: Msg): Board {
    match m
    case Assign(_, _, _, _, _, _) => Posted(b, m)
    case Claim(_, _, _, _, _) => ClaimFolded(b, m)
    case AuctionClose(_, _) => CloseFolded(b, m)
    case Complete(_, _, _, _) => CompleteFolded(b, m)
    case Accept(_, complete) => AcceptFolded(b, complete)
    case Reject(_, complete) => RejectFolded(b, complete)
    case Expire(_, antecedent) => ExpireFolded(b, antecedent)
  }

  function Replay(log: seq<Msg>): Board
    decreases |log|
  {
    if log == [] then EMPTY else Folded(Replay(log[..|log| - 1]), log[|log| - 1])
  }

  // ----- The gates -----

  datatype Entry = Entry(id: Id, seller: Key, size: int, content: Bytes)

  /**
   What the operator can consult at pay time: its fleet, if it checks one, its inventory, and its embedder's
   similarity.
   */
  datatype Env = Env(fleet: Option<set<Key>>, confidential: bool, inventory: map<Id, Entry>,
        similarity: (Bytes, Bytes) -> real)

  datatype Reason =
    | NotAdmitted | Integrity | PlaintextSubmission | SubmissionUnavailable | SubmissionNotOwned
    | OriginalUnavailable | InsufficientReduction | LowSimilarity

  const COMPRESSION_MAX_SIZE_RATIO := 0.70
  const COMPRESSION_MIN_SIMILARITY := 0.85

  datatype Submission = Held(bytes: Bytes) | Refused(reason: Reason)

  /** resolveSubmittedCompression: the operator's own copy of what was submitted. */
  function Resolved(w: Work, env: Env): Submission
    requires !w.result.Malformed?
  {
    match w.result
    case PutReference(put) =>
      if put !in env.inventory then Refused(SubmissionUnavailable)
      else
        var sub := env.inventory[put];
        if sub.seller != w.claimant then Refused(SubmissionNotOwned)
        else if sub.id == w.entry then Refused(SubmissionNotOwned)
        else if sub.content == "" then Refused(SubmissionUnavailable)
        else Held(sub.content)
    case Inline(decoded, size, digestOf) =>
      if decoded.None? then Refused(Integrity)
      else if |decoded.value| != size then Refused(Integrity)
      else if digestOf != decoded.value then Refused(Integrity)
      else Held(decoded.value)
  }

  /** validateCompletedCompressionAssign: None to accept and pay, or the first gate that fails. */
  function Verdict(w: Work, env: Env): Option<Reason> {
    if env.fleet.Some? && w.claimant !in env.fleet.value then Some(NotAdmitted)
    else if w.result.Malformed? then Some(Integrity)
    else if !w.result.PutReference? && env.confidential then Some(PlaintextSubmission)
    else
      var sub := Resolved(w, env);
      if sub.Refused? then Some(sub.reason)
      else if w.entry !in env.inventory || env.inventory[w.entry].size <= 0 then Some(OriginalUnavailable)
      else
        var orig := env.inventory[w.entry];
        if |sub.bytes| as real > COMPRESSION_MAX_SIZE_RATIO * orig.size as real then Some(InsufficientReduction)
        else if orig.content == "" then Some(OriginalUnavailable)
        else if env.similarity(orig.content, sub.bytes) < COMPRESSION_MIN_SIMILARITY then Some(LowSimilarity)
        else None
  }

  /** The bytes a submission stands for, when the operator holds them itself and they are this worker's. */
  predicate HeldBytes(w: Work, env: Env, bytes: Bytes) {
    match w.result
    case Malformed => false
    case PutReference(put) =>
      && put in env.inventory && env.inventory[put].content == bytes && bytes != ""
      && env.inventory[put].seller == w.claimant && env.inventory[put].id != w.entry
    case Inline(decoded, size, digestOf) =>
      !env.confidential && decoded == Some(bytes) && size == |bytes| && digestOf == bytes
  }

  ghost predicate PassesAllGates(w: Work, env: Env) {
    && (env.fleet.Some? ==> w.claimant in env.fleet.value)
    && exists bytes :: HeldBytes(w, env, bytes) && SmallAndFaithful(w.entry, env, bytes)
  }

  predicate SmallAndFaithful(entry: Id, env: Env, bytes: Bytes) {
    && entry in env.inventory && env.inventory[entry].size > 0 && env.inventory[entry].content != ""
    && |bytes| as real <= COMPRESSION_MAX_SIZE_RATIO * env.inventory[entry].size as real
    && env.similarity(env.inventory[entry].content, bytes) >= COMPRESSION_MIN_SIMILARITY
  }

  /** The cascade of early returns accepts exactly what meets every gate at once. */
  lemma VerdictIsAllGates(w: Work, env: Env)
    ensures Verdict(w, env).None? <==> PassesAllGates(w, env)
  {
    if !w.result.Malformed? && Resolved(w, env).Held? {
      var bytes := Resolved(w, env).bytes;
      assert HeldBytes(w, env, bytes) <==> (w.result.PutReference? || !env.confidential);
      assert forall other :: HeldBytes(w, env, other) ==> other == bytes;
    }
  }

  // ----- The engine, step by step -----

  datatype Payment = Payment(assign: Id, complete: Id, work: Work, amount: int, proof: Option<Env>)

  /** An accept that has been emitted and folded, and whose payment has not been claimed yet. */
  datatype Accepting = Accepting(complete: Id, proof: Option<Env>)

  /** `paid` is what the live board alone remembers; `snapshots` every completion a tick ever read. */
  datatype World = World(log: seq<Msg>, board: Board, paid: set<Id>, payments: seq<Payment>,
        accepting: Option<Accepting>,
                         snapshots: set<(Id, Work)>, rebuilds: nat)

  datatype Step =
    | Append(m: Msg)
    | Snapshot
    | TickAccept(seen: (Id, Work), env: Env, id: Id)
    | TickReject(seen: (Id, Work), env: Env, id: Id)
    | ManualAccept(complete: Id, id: Id)
    | ClaimPayment
    | Rebuild

  ghost predicate Fits(log: seq<Msg>, m: Msg) {
    forall i :: 0 <= i < |log| && log[i].id == m.id ==> log[i] == m
  }

  ghost predicate Enabled(w: World, step: Step) {
    match step
    case Append(m) => Fits(w.log, m)
    case Snapshot => true
    case TickAccept(seen, env, id) =>
      seen in w.snapshots && seen.1.compress && Verdict(seen.1, env).None? && w.accepting.None?
          && Fits(w.log, Accept(id, seen.1.complete))
    case TickReject(seen, env, id) =>
      seen in w.snapshots && seen.1.compress && Verdict(seen.1, env).Some? && Fits(w.log, Reject(id, seen.1.complete))
    case ManualAccept(complete, id) => w.accepting.None? && Fits(w.log, Accept(id, complete))
    case ClaimPayment => w.accepting.Some?
    case Rebuild => true
  }

  function Appended(w: World, m: Msg): World {
    w.(log := w.log + [m], board := Folded(w.board, m))
  }

  function PayAmount(w: Work): int {
    if w.price > 0 then w.price else w.reward
  }

  predicate Payable(b: Board, complete: Id) {
    complete in b.completes && b.completes[complete] in b.work && b.work[b.completes[complete]].status.Accepted?
  }

  /** ClaimAssignPayment's transition. */
  function PaidOff(b: Board, complete: Id): Board
    requires Payable(b, complete)
  {
    var assign := b.completes[complete];
    b.(work := b.work[assign := b.work[assign].(status := Paid)], completes := b.completes - {complete})
  }

  /** handleAssignAccept: claim the payment, then pay unless there is nothing or nobody to pay. */
  function PaymentClaimed(w: World): World
    requires w.accepting.Some?
  {
    var complete := w.accepting.value.complete;
    if !Payable(w.board, complete) then w.(accepting := None)
    else
      var assign := w.board.completes[complete];
      var work := w.board.work[assign];
      w.(accepting := None, board := PaidOff(w.board, complete), paid := w.paid + {assign},
         payments := if PayAmount(work) > 0 && work.claimant != ""
                     then w.payments + [Payment(assign, complete, work, PayAmount(work), w.accepting.value.proof)]
                         else w.payments)
  }

  ghost function UnderReviewNow(b: Board): set<(Id, Work)> {
    set c | c in b.pending && UnderReview(b, c) :: (b.pending[c], b.work[b.pending[c]])
  }

  /** A step that is not enabled does nothing. */
  ghost function Do(w: World, step: Step): World {
    if !Enabled(w, step) then w
    else
      match step
      case Append(m) => Appended(w, m)
      case Snapshot => w.(snapshots := w.snapshots + UnderReviewNow(w.board))
      case TickAccept(seen, env, id) =>
          Appended(w, Accept(id, seen.1.complete)).(accepting := Some(Accepting(seen.1.complete, Some(env))))
      case TickReject(seen, env, id) => Appended(w, Reject(id, seen.1.complete))
      case ManualAccept(complete, id) =>
          Appended(w, Accept(id, complete)).(accepting := Some(Accepting(complete, None)))
      case ClaimPayment => PaymentClaimed(w)
      case Rebuild => w.(board := Replay(w.log), paid := {}, rebuilds := w.rebuilds + 1)
  }

  ghost function Exec(w: World, steps: seq<Step>): World
    decreases |steps|
  {
    if steps == [] then w else Do(Exec(w, steps[..|steps| - 1]), steps[|steps| - 1])
  }

  const START := World([], EMPTY, {}, [], None, {}, 0)

  // ----- The live board is the replayed one with the paid marks on top -----

  ghost function MarkWork(work: map<Id, Work>, paid: set<Id>): map<Id, Work> {
    map a | a in work :: if a in paid then work[a].(status := Paid) else work[a]
  }

  ghost function MarkIndex(completes: map<Id, Id>, paid: set<Id>): map<Id, Id> {
    map c | c in completes && completes[c] !in paid :: completes[c]
  }

  ghost function Marked(r: Board, paid: set<Id>): Board {
    r.(work := MarkWork(r.work, paid), completes := MarkIndex(r.completes, paid))
  }

  ghost predicate AllAccepted(work: map<Id, Work>, paid: set<Id>) {
    forall a :: a in paid ==> a in work && work[a].status.Accepted?
  }

  lemma MarkWorkSet(work: map<Id, Work>, paid: set<Id>, a: Id, w: Work)
    requires a !in paid
    ensures MarkWork(work[a := w], paid) == MarkWork(work, paid)[a := w]
  {
  }

  /** The assign a message would change, if it changes any. */
  function Target(b: Board, m: Msg): Option<Id> {
    match m
    case Assign(id, _, _, _, _, _) => Some(id)
    case Claim(_, assign, _, _, _) => Some(assign)
    case AuctionClose(_, assign) => Some(assign)
    case Complete(_, claim, _, _) => if claim in b.claims then Some(b.claims[claim]) else None
    case Accept(_, complete) => if complete in b.pending then Some(b.pending[complete]) else None
    case Reject(_, complete) => if complete in b.pending then Some(b.pending[complete]) else None
    case Expire(_, antecedent) => if antecedent in b.claims then Some(b.claims[antecedent]) else Some(antecedent)
  }

  predicate Done(w: Work) {
    w.status.Accepted? || w.status.Paid?
  }

  /** A message leaves alone every assign but its target, and its target too once that is accepted or paid. */
  lemma OnlyTheTarget(b: Board, m: Msg)
    ensures forall a :: a in b.work ==> a in Folded(b, m).work
    ensures forall a :: a in b.work && (Target(b, m) != Some(a) || Done(b.work[a])) ==>
              Folded(b, m).work[a] == b.work[a]
    ensures forall a :: Target(b, m) == Some(a) && a in b.work && Done(b.work[a]) ==> Folded(b, m) == b
    ensures Target(b, m).None? ==> Folded(b, m) == b
  {
  }

  lemma ClaimMarks(r: Board, paid: set<Id>, a: Id, claim: Id, worker: Key, price: int)
    requires a in r.work && a !in paid
    ensures ClaimedBy(Marked(r, paid), a, claim, worker, price) == Marked(ClaimedBy(r, a, claim, worker, price), paid)
  {
  }

  lemma ClaimFoldMarks(r: Board, paid: set<Id>, m: Msg)
    requires m.Claim? && m.assign !in paid
    ensures ClaimFolded(Marked(r, paid), m) == Marked(ClaimFolded(r, m), paid)
  {
    if m.assign in r.work {
      ClaimMarks(r, paid, m.assign, m.id, m.sender, r.work[m.assign].price);
      MarkWorkSet(r.work, paid, m.assign, ClaimFolded(r, m).work[m.assign]);
    }
  }

  lemma CompleteMarks(r: Board, paid: set<Id>, m: Msg)
    requires m.Complete? && m.claim in r.claims && r.claims[m.claim] !in paid
    ensures CompleteFolded(Marked(r, paid), m) == Marked(CompleteFolded(r, m), paid)
  {
  }

  lemma RejectMarks(r: Board, paid: set<Id>, complete: Id)
    requires complete in r.pending && r.pending[complete] !in paid
    ensures RejectFolded(Marked(r, paid), complete) == Marked(RejectFolded(r, complete), paid)
  {
  }

  lemma ExpireMarks(r: Board, paid: set<Id>, antecedent: Id)
    requires (if antecedent in r.claims then r.claims[antecedent] else antecedent) !in paid
    ensures ExpireFolded(Marked(r, paid), antecedent) == Marked(ExpireFolded(r, antecedent), paid)
  {
    var a := if antecedent in r.claims then r.claims[antecedent] else antecedent;
    if a in r.work { MarkWorkSet(r.work, paid, a, ExpireFolded(r, antecedent).work[a]); }
  }

  lemma MarksCommuteAt(r: Board, paid: set<Id>, m: Msg, a: Id)
    requires Target(r, m) == Some(a) && a !in paid
    ensures Folded(Marked(r, paid), m) == Marked(Folded(r, m), paid)
  {
    match m {
      case Assign(_, _, _, _, _, _) => if a !in r.work { MarkWorkSet(r.work, paid, a, Posted(r, m).work[a]); }
      case Claim(_, _, _, _, _) => ClaimFoldMarks(r, paid, m);
      case AuctionClose(id, _) =>
        if a in r.work && r.work[a].bids != [] {
          ClaimMarks(r, paid, a, id, Winner(r.work[a].bids).worker, ClearingPrice(r.work[a].bids));
        }
      case Complete(_, _, _, _) => CompleteMarks(r, paid, m);
      case Accept(_, complete) => if a in r.work { MarkWorkSet(r.work, paid, a, r.work[a].(status := Accepted)); }
      case Reject(_, complete) => RejectMarks(r, paid, complete);
      case Expire(_, antecedent) => ExpireMarks(r, paid, antecedent);
    }
  }

  /** A message folds alike over the live board and over the replayed one. */
  lemma MarksCommute(r: Board, paid: set<Id>, m: Msg)
    requires AllAccepted(r.work, paid)
    ensures Folded(Marked(r, paid), m) == Marked(Folded(r, m), paid)
    ensures AllAccepted(Folded(r, m).work, paid)
  {
    var target := Target(r, m);
    OnlyTheTarget(r, m);
    OnlyTheTarget(Marked(r, paid), m);
    if target.Some? && target.value !in paid {
      MarksCommuteAt(r, paid, m, target.value);
    }
  }

  // ----- Where a completion comes from -----

  ghost predicate Unique(log: seq<Msg>) {
    forall i, j :: 0 <= i < |log| && 0 <= j < |log| && log[i].id == log[j].id ==> log[i] == log[j]
  }

  predicate IsClaim(m: Msg, claim: Id, assign: Id) {
    m.id == claim && ((m.Claim? && m.assign == assign) || (m.AuctionClose? && m.assign == assign))
  }

  ghost predicate ClaimIn(log: seq<Msg>, claim: Id, assign: Id) {
    exists m :: m in log && IsClaim(m, claim, assign)
  }

  predicate IsCompletion(m: Msg, w: Work) {
    m.Complete? && m.id == w.complete && m.sender == w.claimant && m.result == w.result
  }

  ghost predicate DoneIn(log: seq<Msg>, assign: Id, w: Work) {
    exists m :: m in log && IsCompletion(m, w) && ClaimIn(log, m.claim, assign)
  }

  predicate IsPost(m: Msg, assign: Id, w: Work) {
    && m.Assign? && m.id == assign && m.reward == w.reward && m.entry == w.entry && m.compress == w.compress
    && m.exclusive == w.exclusive && m.deadline == w.deadline
  }

  /** Every assign on the board is on the terms of the message that posted it. */
  ghost predicate AllPosted(r: Board, log: seq<Msg>) {
    forall a :: a in r.work ==> exists m :: m in log && IsPost(m, a, r.work[a])
  }

  ghost predicate Sourced(r: Board, log: seq<Msg>) {
    && (forall m :: m in r.claims ==> ClaimIn(log, m, r.claims[m]))
    && (forall c :: c in r.completes && r.completes[c] in r.work ==>
          DoneIn(log, r.completes[c], r.work[r.completes[c]]))
  }

  lemma SourcesGrow(log: seq<Msg>, m: Msg)
    ensures forall claim, assign :: ClaimIn(log, claim, assign) ==> ClaimIn(log + [m], claim, assign)
    ensures forall assign, w :: DoneIn(log, assign, w) ==> DoneIn(log + [m], assign, w)
  {
  }

  /** An accepted or completed assign is found again by its own completion, and only by it. */
  ghost predicate Indexed(r: Board) {
    && (forall c :: c in r.completes ==>
          && r.completes[c] in r.work && r.work[r.completes[c]].complete == c
          && (r.work[r.completes[c]].status.Completed? || r.work[r.completes[c]].status.Accepted?))
    && (forall a :: a in r.work && (r.work[a].status.Completed? || r.work[a].status.Accepted?) ==>
          r.work[a].complete in r.completes && r.completes[r.work[a].complete] == a)
    && (forall a :: a in r.work && r.work[a].status.Completed? ==> r.work[a].complete in r.pending)
    && (forall c :: c in r.pending ==>
          c in r.completes && r.completes[c] == r.pending[c] && r.work[r.completes[c]].status.Completed?)
  }

  lemma UntouchedKeepsIndexed(r: Board, r': Board, a: Id)
    requires Indexed(r) && r'.completes == r.completes && r'.pending == r.pending
    requires r'.work.Keys == r.work.Keys + {a} && forall b :: b in r.work && b != a ==> r'.work[b] == r.work[b]
    requires a in r.work ==> !r.work[a].status.Completed? && !r.work[a].status.Accepted?
    requires !r'.work[a].status.Completed? && !r'.work[a].status.Accepted?
    ensures Indexed(r')
  {
  }

  lemma CompleteKeepsIndexed(r: Board, m: Msg)
    requires Indexed(r) && m.Complete? && m.id !in r.completes
    ensures Indexed(CompleteFolded(r, m))
  {
  }

  lemma AcceptKeepsIndexed(r: Board, complete: Id)
    requires Indexed(r)
    ensures Indexed(AcceptFolded(r, complete))
  {
  }

  lemma RejectKeepsIndexed(r: Board, complete: Id)
    requires Indexed(r)
    ensures Indexed(RejectFolded(r, complete))
  {
  }

  lemma MessagesKeepIndexed(r: Board, m: Msg)
    requires Indexed(r) && (m.Complete? ==> m.id !in r.completes)
    ensures Indexed(Folded(r, m))
  {
    match m {
      case Complete(_, _, _, _) => CompleteKeepsIndexed(r, m);
      case Accept(_, complete) => AcceptKeepsIndexed(r, complete);
      case Reject(_, complete) => RejectKeepsIndexed(r, complete);
      case _ => if Folded(r, m) != r { OtherMessagesKeepIndexed(r, m); }
    }
  }

  lemma OtherMessagesKeepIndexed(r: Board, m: Msg)
    requires Indexed(r) && !m.Complete? && !m.Accept? && !m.Reject? && Folded(r, m) != r
    ensures Indexed(Folded(r, m))
  {
    OnlyTheTarget(r, m);
    OtherMessagesTouchNoIndex(r, m);
    UntouchedKeepsIndexed(r, Folded(r, m), Target(r, m).value);
  }

  lemma OtherMessagesTouchNoIndex(r: Board, m: Msg)
    requires !m.Complete? && !m.Accept? && !m.Reject? && Folded(r, m) != r
    ensures var r', target := Folded(r, m), Target(r, m);
            && r'.completes == r.completes && r'.pending == r.pending
            && target.Some? && r'.work.Keys == r.work.Keys + {target.value}
            && (target.value in r.work ==> !r.work[target.value].status.Completed? && !Done(r.work[target.value]))
            && !r'.work[target.value].status.Completed? && !Done(r'.work[target.value])
  {
  }

  /** A completion already on the board is not folded twice, however often it is delivered. */
  lemma RedeliveredCompletion(r: Board, log: seq<Msg>, m: Msg)
    requires Indexed(r) && Sourced(r, log) && Unique(log) && Fits(log, m) && m.Complete? && m.id in r.completes
    ensures Folded(r, m) == r
  {
  }

  /** The parts of a record a completion vouches for. */
  predicate SameDone(v: Work, w: Work) {
    v.complete == w.complete && v.claimant == w.claimant && v.result == w.result
  }

  ghost predicate CompletesSourced(r: Board, log: seq<Msg>) {
    forall c :: c in r.completes && r.completes[c] in r.work ==> DoneIn(log, r.completes[c], r.work[r.completes[c]])
  }

  lemma CompletesCarry(r: Board, r': Board, log: seq<Msg>)
    requires CompletesSourced(r, log)
    requires forall c :: c in r'.completes && r'.completes[c] in r'.work ==>
               && c in r.completes && r.completes[c] == r'.completes[c] && r.completes[c] in r.work
               && SameDone(r.work[r.completes[c]], r'.work[r'.completes[c]])
    ensures CompletesSourced(r', log)
  {
  }

  /** Except for a completion itself, a message leaves what the completion index vouches for. */
  lemma IndexIsCarried(r: Board, m: Msg, c: Id)
    requires Indexed(r) && !m.Complete?
    ensures var r' := Folded(r, m);
            c in r'.completes && r'.completes[c] in r'.work ==>
              && c in r.completes && r.completes[c] == r'.completes[c] && r.completes[c] in r.work
              && SameDone(r.work[r.completes[c]], r'.work[r'.completes[c]])
  {
    OnlyTheTarget(r, m);
  }

  lemma CompletionKeepsSourced(r: Board, log: seq<Msg>, m: Msg)
    requires Indexed(r) && Sourced(r, log) && m in log && m.Complete? && m.id !in r.completes
    ensures CompletesSourced(CompleteFolded(r, m), log)
  {
  }

  lemma ClaimsStaySourced(r: Board, log: seq<Msg>, m: Msg, claim: Id)
    requires m in log && forall x :: x in r.claims ==> ClaimIn(log, x, r.claims[x])
    requires claim in Folded(r, m).claims
    ensures ClaimIn(log, claim, Folded(r, m).claims[claim])
  {
  }

  lemma MessagesKeepSourced(r: Board, log: seq<Msg>, m: Msg)
    requires Indexed(r) && Sourced(r, log) && (m.Complete? ==> m.id !in r.completes)
    ensures Sourced(Folded(r, m), log + [m])
  {
    var r', grown := Folded(r, m), log + [m];
    SourcesGrow(log, m);
    assert m in grown;
    assert Sourced(r, grown);
    forall claim | claim in r'.claims ensures ClaimIn(grown, claim, r'.claims[claim]) {
      ClaimsStaySourced(r, grown, m, claim);
    }
    if m.Complete? {
      CompletionKeepsSourced(r, grown, m);
    } else {
      forall c | c in r'.completes && r'.completes[c] in r'.work
        ensures c in r.completes && r.completes[c] == r'.completes[c] && r.completes[c] in r.work
                && SameDone(r.work[r.completes[c]], r'.work[r'.completes[c]])
      {
        IndexIsCarried(r, m, c);
      }
      CompletesCarry(r, r', grown);
    }
  }

  // ----- Claims -----

  /** The claim index and the claimed records point at each other. */
  ghost predicate ClaimIndexed(r: Board) {
    && (forall m :: m in r.claims ==>
          r.claims[m] in r.work && r.work[r.claims[m]].status.Claimed? && r.work[r.claims[m]].claim == m)
    && (forall a :: a in r.work && r.work[a].status.Claimed? ==>
          r.work[a].claim in r.claims && r.claims[r.work[a].claim] == a)
  }

  predicate Taken(w: Work) {
    w.status.Claimed? || w.status.Completed? || w.status.Accepted?
  }

  /**
   The terms of an assign: reserved work only for its own worker, bids within bounds, and a close at the lowest bid
   and the second price.
   */
  predicate TermsOf(w: Work) {
    && (Taken(w) ==> w.exclusive == "" || w.claimant == w.exclusive)
    && (forall b :: b in w.bids ==>
          && b.amount > 0 && (w.exclusive == "" || b.worker == w.exclusive)
          && (w.reward > 0 ==> b.amount <= w.reward * AUCTION_BID_CEIL_MULTIPLIER))
    && (w.deadline.None? ==> w.bids == [] && w.price == 0)
    && (w.deadline.Some? && Taken(w) ==>
          w.bids != [] && w.claimant == Winner(w.bids).worker && w.price == ClearingPrice(w.bids))
  }

  ghost predicate TermsHold(r: Board) {
    forall a :: a in r.work ==> TermsOf(r.work[a])
  }

  lemma BidKeepsTerms(w: Work, worker: Key, amount: int)
    requires TermsOf(w) && w.status.Open? && w.deadline.Some? && (w.exclusive == "" || worker == w.exclusive)
             && amount > 0
    requires w.reward > 0 ==> amount <= w.reward * AUCTION_BID_CEIL_MULTIPLIER
    ensures TermsOf(w.(bids := WithBid(w.bids, worker, amount)))
  {
    WithBidKeepsLowest(w.bids, worker, amount);
  }

  lemma CloseKeepsTerms(w: Work, claim: Id)
    requires TermsOf(w) && w.bids != []
    ensures TermsOf(w.(status := Claimed, claimant := Winner(w.bids).worker, claim := claim,
            price := ClearingPrice(w.bids)))
  {
    LowestWinsAtTheSecondLowest(w.bids);
  }

  lemma ClaimedByKeepsClaims(r: Board, a: Id, claim: Id, worker: Key, price: int)
    requires ClaimIndexed(r) && a in r.work && r.work[a].status.Open? && claim !in r.claims
    ensures ClaimIndexed(ClaimedBy(r, a, claim, worker, price))
  {
  }

  lemma BidKeepsClaims(r: Board, m: Msg)
    requires ClaimIndexed(r) && m.Claim? && m.assign in r.work && r.work[m.assign].deadline.Some?
    ensures ClaimIndexed(Folded(r, m))
  {
  }

  lemma CompletionKeepsClaims(r: Board, m: Msg)
    requires ClaimIndexed(r) && m.Complete?
    ensures ClaimIndexed(CompleteFolded(r, m))
  {
  }

  lemma ExpiryKeepsClaims(r: Board, antecedent: Id)
    requires ClaimIndexed(r)
    ensures ClaimIndexed(ExpireFolded(r, antecedent))
  {
  }

  lemma ReviewKeepsClaims(r: Board, m: Msg)
    requires ClaimIndexed(r) && (m.Assign? || m.Accept? || m.Reject?)
    ensures ClaimIndexed(Folded(r, m))
  {
  }

  /** One claim id leads to one assign, so a redelivered claim finds its assign claimed already or free again. */
  lemma RedeliveredClaim(r: Board, log: seq<Msg>, m: Msg)
    requires ClaimIndexed(r) && Sourced(r, log) && Fits(log, m) && (m.Claim? || m.AuctionClose?) && m.id in r.claims
    ensures Folded(r, m) == r
  {
  }

  lemma MessagesKeepClaims(r: Board, log: seq<Msg>, m: Msg)
    requires ClaimIndexed(r) && Sourced(r, log) && Fits(log, m)
    ensures ClaimIndexed(Folded(r, m))
  {
    match m {
      case Complete(_, _, _, _) => CompletionKeepsClaims(r, m);
      case Expire(_, antecedent) => ExpiryKeepsClaims(r, antecedent);
      case Claim(id, assign, sender, _, _) =>
        if id in r.claims { RedeliveredClaim(r, log, m); }
        else if assign in r.work && r.work[assign].deadline.Some? { BidKeepsClaims(r, m); }
        else if Folded(r, m) != r { ClaimedByKeepsClaims(r, assign, id, sender, r.work[assign].price); }
      case AuctionClose(id, assign) =>
        if id in r.claims { RedeliveredClaim(r, log, m); }
        else if Folded(r, m) != r {
          var bids := r.work[assign].bids;
          ClaimedByKeepsClaims(r, assign, id, Winner(bids).worker, ClearingPrice(bids));
        }
      case _ => ReviewKeepsClaims(r, m);
    }
  }

  lemma ClaimKeepsTerms(r: Board, m: Msg)
    requires TermsHold(r) && m.Claim? && m.assign in r.work
    ensures TermsOf(Folded(r, m).work[m.assign])
  {
    var w := r.work[m.assign];
    assert TermsOf(w);
    if Folded(r, m).work[m.assign].bids != w.bids {
      BidKeepsTerms(w, m.sender, if m.bid.Some? then m.bid.value else w.reward);
    }
  }

  lemma TargetKeepsTerms(r: Board, m: Msg, a: Id)
    requires TermsHold(r) && Target(r, m) == Some(a) && a in r.work
    ensures TermsOf(Folded(r, m).work[a])
  {
    if m.Claim? {
      ClaimKeepsTerms(r, m);
    } else if m.AuctionClose? {
      ClosingKeepsTerms(r, m);
    } else {
      RestKeepsTerms(r, m, a);
    }
  }

  lemma ClosingKeepsTerms(r: Board, m: Msg)
    requires TermsHold(r) && m.AuctionClose? && m.assign in r.work
    ensures TermsOf(Folded(r, m).work[m.assign])
  {
    var w := r.work[m.assign];
    assert TermsOf(w);
    if w.bids != [] { CloseKeepsTerms(w, m.id); }
  }

  /** Completions, reviews and expiries touch neither the bids nor the price. */
  lemma RestKeepsTerms(r: Board, m: Msg, a: Id)
    requires TermsHold(r) && !m.Claim? && !m.AuctionClose? && Target(r, m) == Some(a) && a in r.work
    ensures TermsOf(Folded(r, m).work[a])
  {
    assert TermsOf(r.work[a]);
  }

  lemma MessagesKeepTerms(r: Board, m: Msg)
    requires TermsHold(r)
    ensures TermsHold(Folded(r, m))
  {
    OnlyTheTarget(r, m);
    var target := Target(r, m);
    if target.Some? && target.value in r.work { TargetKeepsTerms(r, m, target.value); }
  }

  /**
   In every log of distinct messages, redelivered or not, the indexes are sound and the terms of every assign are
   kept.
   */
  lemma {:induction false} ReplayIsSound(log: seq<Msg>)
    requires Unique(log)
    ensures var r := Replay(log); Indexed(r) && Sourced(r, log) && ClaimIndexed(r) && TermsHold(r)
    decreases |log|
  {
    if log != [] {
      var init, m := log[..|log| - 1], log[|log| - 1];
      var r := Replay(init);
      assert log == init + [m];
      assert forall i :: 0 <= i < |init| ==> init[i] == log[i];
      assert Fits(init, m);
      ReplayIsSound(init);
      MessagesKeepClaims(r, init, m);
      MessagesKeepTerms(r, m);
      if m.Complete? && m.id in r.completes {
        RedeliveredCompletion(r, init, m);
        SourcesGrow(init, m);
      } else {
        MessagesKeepIndexed(r, m);
        MessagesKeepSourced(r, init, m);
      }
    }
  }

  /** Every claimed assign is the one its claimant's slot holds, so nobody works on two. */
  ghost predicate OneClaimEach(r: Board) {
    forall a :: a in r.work && r.work[a].status.Claimed? ==>
        r.work[a].claimant in r.held && r.held[r.work[a].claimant] == a
  }

  /** And every slot in use holds a claim. */
  ghost predicate HeldIndexed(r: Board) {
    && OneClaimEach(r)
    && forall k :: k in r.held ==>
       r.held[k] in r.work && r.work[r.held[k]].status.Claimed? && r.work[r.held[k]].claimant == k
  }

  /** A close whose lowest bidder already holds a claim. */
  predicate HolderWins(r: Board, m: Msg) {
    && m.AuctionClose? && m.assign in r.work && r.work[m.assign].status.Open? && r.work[m.assign].bids != []
    && Winner(r.work[m.assign].bids).worker in r.held
  }

  lemma ClaimedByKeepsHeld(r: Board, a: Id, claim: Id, worker: Key, price: int)
    requires HeldIndexed(r) && a in r.work && r.work[a].status.Open?
    ensures worker !in r.held ==> HeldIndexed(ClaimedBy(r, a, claim, worker, price))
    ensures worker in r.held ==> !OneClaimEach(ClaimedBy(r, a, claim, worker, price))
  {
    var r' := ClaimedBy(r, a, claim, worker, price);
    if worker in r.held {
      assert r'.work[r.held[worker]].status.Claimed? && r'.held[worker] == a;
    }
  }

  lemma ReleaseKeepsHeld(r: Board, m: Msg)
    requires HeldIndexed(r) && (m.Complete? || m.Expire?)
    ensures HeldIndexed(Folded(r, m))
  {
  }

  lemma OthersKeepHeld(r: Board, m: Msg)
    requires HeldIndexed(r) && (m.Assign? || m.Accept? || m.Reject?
             || (m.Claim? && m.assign in r.work && r.work[m.assign].deadline.Some?))
    ensures HeldIndexed(Folded(r, m))
  {
    OnlyTheTarget(r, m);
  }

  /**
   From a board of one claim each, a message breaks that exactly when it is a close won by a worker that holds a
   claim; any other keeps it.
   */
  lemma OneClaimEachExactlyUnlessHolderWins(r: Board, m: Msg)
    requires HeldIndexed(r)
    ensures OneClaimEach(Folded(r, m)) <==> !HolderWins(r, m)
    ensures !HolderWins(r, m) ==> HeldIndexed(Folded(r, m))
  {
    match m {
      case Claim(id, assign, sender, _, _) =>
        if assign in r.work && r.work[assign].deadline.Some? { OthersKeepHeld(r, m); }
        else if Folded(r, m) != r { ClaimedByKeepsHeld(r, assign, id, sender, r.work[assign].price); }
      case AuctionClose(id, assign) =>
        if assign in r.work && r.work[assign].status.Open? && r.work[assign].bids != [] {
          var bids := r.work[assign].bids;
          ClaimedByKeepsHeld(r, assign, id, Winner(bids).worker, ClearingPrice(bids));
        }
      case Complete(_, _, _, _) => ReleaseKeepsHeld(r, m);
      case Expire(_, _) => ReleaseKeepsHeld(r, m);
      case _ => OthersKeepHeld(r, m);
    }
  }

  /** So over a whole log every worker holds at most one claim, as long as no close is won by a holder. */
  lemma {:induction false} OneClaimEachOverALog(log: seq<Msg>)
    requires forall n :: 0 <= n < |log| ==> !HolderWins(Replay(log[..n]), log[n])
    ensures HeldIndexed(Replay(log))
    decreases |log|
  {
    if log != [] {
      var init := log[..|log| - 1];
      forall n | 0 <= n < |init| ensures !HolderWins(Replay(init[..n]), init[n]) {
        assert init[..n] == log[..n];
      }
      OneClaimEachOverALog(init);
      OneClaimEachExactlyUnlessHolderWins(Replay(init), log[|log| - 1]);
    }
  }

  /**
   An auction win takes over the slot of a claim already held and frees it on completion, so the winner can claim a
   second assign.
   */
  lemma AuctionWinnerHoldsTwo(r: Board, worker: Key, a: Id, b: Id, c: Id, close: Id, done: Id, claim: Id, at: int,
        result: Result)
    requires a != b && a != c && b != c && {a, b, c} <= r.work.Keys
    requires r.work[a].status.Claimed? && r.work[a].claimant == worker
    requires r.work[b].status.Open? && r.work[b].bids != [] && Winner(r.work[b].bids).worker == worker
    requires r.work[c].status.Open? && r.work[c].deadline.None? && r.work[c].exclusive in {"", worker}
    ensures var won := Folded(r, AuctionClose(close, b));
            var after := Folded(Folded(won, Complete(done, close, worker, result)), Claim(claim, c, worker, at, None));
            && after.work[a].status.Claimed? && after.work[c].status.Claimed?
            && after.work[a].claimant == after.work[c].claimant == worker
  {
  }

  function Job(deadline: Option<int>): Work {
    Work(true, 5, 0, "", deadline, [], Open, "", 0, 0, Malformed, 0)
  }

  lemma ReplayFirst(log: seq<Msg>, n: nat)
    requires 0 < n <= |log|
    ensures Replay(log[..n]) == Folded(Replay(log[..n - 1]), log[n - 1])
  {
    assert log[..n][..n - 1] == log[..n - 1];
  }

  /** Three assigns, the second auctioned; one worker claims the first and bids on the second. */
  predicate OpensWithABid(log: seq<Msg>, worker: Key) {
    && |log| >= 5
    && log[0] == Assign(1, true, 5, 0, "", None) && log[1] == Assign(2, true, 5, 0, "", Some(100))
       && log[2] == Assign(3, true, 5, 0, "", None)
    && log[3] == Claim(4, 1, worker, 10, None) && log[4] == Claim(5, 2, worker, 20, Some(7))
  }

  lemma PostedBoard(log: seq<Msg>, worker: Key)
    requires OpensWithABid(log, worker)
    ensures Replay(log[..3]) == EMPTY.(work := map[1 := Job(None), 2 := Job(Some(100)), 3 := Job(None)])
  {
    ReplayFirst(log, 1);
    ReplayFirst(log, 2);
    ReplayFirst(log, 3);
  }

  ghost predicate BiddenBoard(r: Board, worker: Key) {
    && r.work.Keys == {1, 2, 3} && r.held == map[worker := 1]
    && r.work[1].status.Claimed? && r.work[1].claimant == worker
    && r.work[2].status.Open? && r.work[2].bids == [Bid(worker, 7)]
    && r.work[3] == Job(None)
  }

  lemma BidIsTaken(log: seq<Msg>, worker: Key)
    requires OpensWithABid(log, worker)
    ensures BiddenBoard(Replay(log[..5]), worker)
  {
    PostedBoard(log, worker);
    ReplayFirst(log, 4);
    ReplayFirst(log, 5);
  }

  lemma HolderWinsHere(log: seq<Msg>, r: Board, worker: Key)
    requires |log| == 8 && r == Replay(log[..5]) && BiddenBoard(r, worker) && log[5] == AuctionClose(6, 2)
    ensures HolderWins(r, log[5]) && !OneClaimEach(Replay(log[..6]))
  {
    LowestWinsAtTheSecondLowest(r.work[2].bids);
    OneClaimEachExactlyUnlessHolderWins(r, log[5]);
    ReplayFirst(log, 6);
  }

  lemma HolderClaimsAgain(log: seq<Msg>, r: Board, worker: Key)
    requires |log| == 8 && r == Replay(log[..5]) && BiddenBoard(r, worker)
    requires log[5] == AuctionClose(6, 2) && log[6] == Complete(7, 6, worker, Malformed)
             && log[7] == Claim(8, 3, worker, 30, None)
    ensures var r' := Replay(log[..8]);
            && {1, 3} <= r'.work.Keys && r'.work[1].status.Claimed? && r'.work[3].status.Claimed?
               && r'.work[1].claimant == r'.work[3].claimant
  {
    ReplayFirst(log, 6);
    ReplayFirst(log, 7);
    ReplayFirst(log, 8);
    LowestWinsAtTheSecondLowest(r.work[2].bids);
    AuctionWinnerHoldsTwo(r, worker, 1, 2, 3, 6, 7, 8, 30, Malformed);
  }

  /** A log by which one worker wins the auction while it holds the first claim, and ends with two. */
  ghost predicate EndsWithTwoClaims(log: seq<Msg>) {
    && Unique(log) && |log| == 8 && HolderWins(Replay(log[..5]), log[5]) && !OneClaimEach(Replay(log[..6]))
    && var r := Replay(log);
       {1, 3} <= r.work.Keys && r.work[1].status.Claimed? && r.work[3].status.Claimed?
           && r.work[1].claimant == r.work[3].claimant
  }

  lemma TwoClaimsReached(worker: Key) returns (log: seq<Msg>)
    ensures EndsWithTwoClaims(log)
  {
    log := [Assign(1, true, 5, 0, "", None), Assign(2, true, 5, 0, "", Some(100)), Assign(3, true, 5, 0, "", None),
            Claim(4, 1, worker, 10, None), Claim(5, 2, worker, 20, Some(7)),
            AuctionClose(6, 2), Complete(7, 6, worker, Malformed), Claim(8, 3, worker, 30, None)];
    HolderEndsWithTwo(log, worker);
  }

  lemma HolderEndsWithTwo(log: seq<Msg>, worker: Key)
    requires |log| == 8 && OpensWithABid(log, worker)
    requires log[5] == AuctionClose(6, 2) && log[6] == Complete(7, 6, worker, Malformed)
             && log[7] == Claim(8, 3, worker, 30, None)
    ensures EndsWithTwoClaims(log)
  {
    assert forall i :: 0 <= i < 8 ==> log[i].id == i + 1;
    BidIsTaken(log, worker);
    HolderWinsHere(log, Replay(log[..5]), worker);
    HolderClaimsAgain(log, Replay(log[..5]), worker);
    assert log[..8] == log;
  }

  // ----- The life of an assign -----

  /**
   The life of an assign on a sound board, in the terms of its own record: a
   message moves it on exactly when it names the claim or the completion the
   record holds, comes from whom the record allows, and finds it in the right
   state; nothing else moves it.
   */
  lemma StatusMovesExactly(b: Board, m: Msg, a: Id)
    requires Indexed(b) && ClaimIndexed(b) && a in b.work
    ensures var w, status' := b.work[a], Folded(b, m).work[a].status;
            match w.status
            case Open =>
              var claimed := m.Claim? && m.assign == a && w.deadline.None? && m.sender !in b.held
                             && (w.exclusive == "" || w.exclusive == m.sender);
              if claimed || (m.AuctionClose? && m.assign == a && w.bids != []) then status' == Claimed
              else if m.Expire? && m.antecedent == a && a !in b.claims then status' == Expired
              else status' == Open
            case Claimed =>
              if m.Complete? && m.claim == w.claim && m.sender == w.claimant then status' == Completed
              else if m.Expire? && m.antecedent == w.claim then status' == Open
              else status' == Claimed
            case Completed =>
              if m.Accept? && m.complete == w.complete then status' == Accepted
              else if m.Reject? && m.complete == w.complete then status' == Open
              else status' == Completed
            case _ => status' == w.status
  {
    OnlyTheTarget(b, m);
    if Target(b, m) == Some(a) { TargetMovesExactly(b, m, a); }
  }

  lemma TargetMovesExactly(b: Board, m: Msg, a: Id)
    requires Indexed(b) && ClaimIndexed(b) && a in b.work && Target(b, m) == Some(a)
    ensures var w, status' := b.work[a], Folded(b, m).work[a].status;
            match m
            case Claim(_, _, sender, _, _) =>
              status' == if w.status.Open? && w.deadline.None? && (w.exclusive == "" || w.exclusive == sender)
                            && sender !in b.held then Claimed else w.status
            case AuctionClose(_, _) => status' == if w.status.Open? && w.bids != [] then Claimed else w.status
            case Complete(_, claim, sender, _) =>
              claim == w.claim && status' == if w.status.Claimed? && sender == w.claimant then Completed else w.status
            case Accept(_, c) => status' == if w.status.Completed? && c == w.complete then Accepted else w.status
            case Reject(_, c) => status' == if w.status.Completed? && c == w.complete then Open else w.status
            case Expire(_, antecedent) =>
              status' == if w.status.Claimed? && antecedent == w.claim then Open
                         else if w.status.Open? && antecedent == a && a !in b.claims then Expired else w.status
            case _ => status' == w.status
  {
  }

  /** Two indexes agree on everything but the entries of one assign. */
  ghost predicate AgreeBut<K(!new)>(index: map<K, Id>, index': map<K, Id>, a: Id) {
    && (forall k :: k in index && index[k] != a ==> k in index' && index'[k] == index[k])
    && (forall k :: k in index' && index'[k] != a ==> k in index && index[k] == index'[k])
  }

  /** Everything on the board but one assign and its index entries stays as it was. */
  ghost predicate OthersStay(b: Board, b': Board, a: Id) {
    && b'.work.Keys == b.work.Keys
    && (forall x :: x in b.work && x != a ==> b'.work[x] == b.work[x])
    && AgreeBut(b.held, b'.held, a) && AgreeBut(b.claims, b'.claims, a)
    && AgreeBut(b.completes, b'.completes, a) && AgreeBut(b.pending, b'.pending, a)
  }

  /** An assign on which nothing is being done, by anybody. */
  ghost predicate Unworked(b: Board, a: Id) {
    && a in b.work && b.work[a].status == Open
    && b.work[a].claimant == "" && b.work[a].claim == 0 && b.work[a].complete == 0
    && (forall c :: c in b.claims ==> b.claims[c] != a)
    && (forall c :: c in b.completes ==> b.completes[c] != a)
    && (forall c :: c in b.pending ==> b.pending[c] != a)
  }

  /** What posting fixed, and what bidding added. */
  predicate SameTerms(v: Work, w: Work) {
    && v.reward == w.reward && v.entry == w.entry && v.compress == w.compress && v.exclusive == w.exclusive
    && v.deadline == w.deadline && v.bids == w.bids && v.price == w.price
  }

  /** A posted assign is there to be worked on, on the terms of its message; posting it again changes nothing. */
  lemma PostOpens(b: Board, m: Msg)
    requires Indexed(b) && ClaimIndexed(b) && m.Assign?
    ensures var b' := Folded(b, m);
            if m.id in b.work then b' == b
            else && Unworked(b', m.id) && OthersStay(b.(work := b.work[m.id := b'.work[m.id]]), b', m.id)
                 && b'.work[m.id].reward == m.reward && b'.work[m.id].entry == m.entry
                 && b'.work[m.id].compress == m.compress && b'.work[m.id].exclusive == m.exclusive
                 && b'.work[m.id].deadline == m.deadline && b'.work[m.id].bids == [] && b'.work[m.id].price == 0
  {
  }

  /** A bid on an open auctioned assign counts exactly when it is in time, positive and within ten times the reward. */
  lemma BidCounts(b: Board, m: Msg)
    requires m.Claim? && m.assign in b.work && b.work[m.assign].status == Open && b.work[m.assign].deadline.Some?
    requires b.work[m.assign].exclusive in {"", m.sender}
    ensures var w := b.work[m.assign];
            var amount := match m.bid case None => w.reward case Some(x) => x;
            var counts := m.at < w.deadline.value && 0 < amount && (w.reward <= 0 || amount <= 10 * w.reward);
            Folded(b, m) == if counts then b.(work := b.work[m.assign := w.(bids := WithBid(w.bids, m.sender, amount))])
                            else b
  {
  }

  /** A rejected completion reopens its assign on its own terms, and neither index finds the completion any more. */
  lemma RejectReopens(b: Board, complete: Id, id: Id)
    requires Indexed(b) && ClaimIndexed(b)
    requires complete in b.pending && b.work[b.pending[complete]].status == Completed
    ensures var a, b' := b.pending[complete], Folded(b, Reject(id, complete));
            && Unworked(b', a) && SameTerms(b.work[a], b'.work[a]) && OthersStay(b, b', a)
            && b'.work[a].result == Malformed
            && complete !in b'.pending && complete !in b'.completes && b'.held == b.held
  {
  }

  /** A claim that lapses reopens its assign on its own terms and frees its worker. */
  lemma LapseReopens(b: Board, a: Id, id: Id)
    requires Sound(b) && a in b.work && b.work[a].status == Claimed && b.work[a].complete == 0
    ensures var b' := Folded(b, Expire(id, b.work[a].claim));
            && Unworked(b', a) && SameTerms(b.work[a], b'.work[a]) && OthersStay(b, b', a)
            && b.work[a].claim !in b'.claims && b.work[a].claimant !in b'.held
  {
  }

  /** An open assign that is not auctioned goes to any permitted worker that holds nothing. */
  lemma OpenIsClaimed(b: Board, a: Id, id: Id, worker: Key, at: int, bid: Option<int>)
    requires Unworked(b, a) && b.work[a].deadline.None? && b.work[a].exclusive in {"", worker}
    requires worker !in b.held && id !in b.claims
    ensures var b' := Folded(b, Claim(id, a, worker, at, bid));
            && b'.work[a].status == Claimed && b'.work[a].claimant == worker && b'.work[a].claim == id
            && b'.work[a].complete == 0 && SameTerms(b.work[a], b'.work[a]) && OthersStay(b, b', a)
            && b'.held == b.held[worker := a] && id in b'.claims && b'.claims[id] == a
  {
  }

  /** A claimed assign is completed by its claimant, which frees the claimant's slot, and then waits for review. */
  lemma ClaimIsCompleted(b: Board, a: Id, id: Id, result: Result)
    requires Sound(b) && id !in b.completes
    requires a in b.work && b.work[a].status == Claimed
    ensures var w, b' := b.work[a], Folded(b, Complete(id, b.work[a].claim, b.work[a].claimant, result));
            && b'.work[a].status == Completed && b'.work[a].claimant == w.claimant
            && b'.work[a].complete == id && b'.work[a].result == result && SameTerms(w, b'.work[a])
            && w.claimant !in b'.held && w.claim !in b'.claims
            && id in b'.pending && b'.pending[id] == a && id in b'.completes && b'.completes[id] == a
  {
  }

  lemma CompletionTouchesNoOther(b: Board, a: Id, id: Id, result: Result)
    requires Sound(b) && id !in b.completes && a in b.work && b.work[a].status == Claimed
    ensures OthersStay(b, Folded(b, Complete(id, b.work[a].claim, b.work[a].claimant, result)), a)
  {
    var b' := Folded(b, Complete(id, b.work[a].claim, b.work[a].claimant, result));
    assert b'.held == b.held - {b.work[a].claimant} && b'.claims == b.claims - {b.work[a].claim};
    assert id !in b.pending;
    assert b'.completes == b.completes[id := a] && b'.pending == b.pending[id := a];
  }

  /** An accepted completion leaves review, is found for its payment, and keeps who did what on which terms. */
  lemma AcceptMakesPayable(b: Board, complete: Id, id: Id)
    requires Indexed(b) && complete in b.pending && b.work[b.pending[complete]].status == Completed
    ensures var a, b' := b.pending[complete], Folded(b, Accept(id, complete));
            && b'.work[a].status == Status.Accepted && b'.work[a].claimant == b.work[a].claimant
            && b'.work[a].result == b.work[a].result && b'.work[a].complete == complete
            && SameTerms(b.work[a], b'.work[a]) && OthersStay(b, b', a)
            && complete !in b'.pending && complete in b'.completes && b'.completes[complete] == a
  {
  }

  ghost predicate Sound(b: Board) {
    Indexed(b) && ClaimIndexed(b) && HeldIndexed(b)
  }

  /** The assign is claimed, on the terms it had, and nothing else has changed. */
  ghost predicate ClaimedAnew(b: Board, b': Board, a: Id, claim: Id, worker: Key) {
    && Sound(b') && a in b.work && OthersStay(b, b', a) && SameTerms(b.work[a], b'.work[a])
    && b'.work[a].status == Claimed && b'.work[a].claimant == worker && b'.work[a].claim == claim
  }

  ghost predicate CompletedAnew(b: Board, b': Board, a: Id, complete: Id, worker: Key, result: Result) {
    && Sound(b') && a in b.work && OthersStay(b, b', a) && SameTerms(b.work[a], b'.work[a])
    && b'.work[a].status == Completed && b'.work[a].claimant == worker && b'.work[a].result == result
    && complete in b'.pending && b'.pending[complete] == a
  }

  /** The assign is accepted and its completion leads to it, so that it is paid next. */
  ghost predicate AcceptedAnew(b: Board, b': Board, a: Id, complete: Id, worker: Key, result: Result) {
    && a in b.work && OthersStay(b, b', a) && SameTerms(b.work[a], b'.work[a])
    && b'.work[a].status == Status.Accepted && b'.work[a].claimant == worker && b'.work[a].result == result
    && complete in b'.completes && b'.completes[complete] == a
  }

  lemma ReopenedIsClaimed(b: Board, complete: Id, id: Id, claim: Id, worker: Key, at: int)
    requires Sound(b) && complete in b.pending && b.work[b.pending[complete]].status == Completed
    requires var w := b.work[b.pending[complete]]; w.deadline.None? && w.exclusive in {"", worker}
    requires worker !in b.held && id !in b.claims && id !in b.completes && claim !in b.claims && claim !in b.completes
    ensures var a, open := b.pending[complete], Folded(b, Reject(id, complete));
            ClaimedAnew(b, Folded(open, Claim(claim, a, worker, at, None)), a, claim, worker)
  {
    var a, open := b.pending[complete], Folded(b, Reject(id, complete));
    RejectReopens(b, complete, id);
    MessagesStaySound(b, Reject(id, complete));
    OpenIsClaimed(open, a, claim, worker, at, None);
    MessagesStaySound(open, Claim(claim, a, worker, at, None));
    OthersStayThrough(b, open, Folded(open, Claim(claim, a, worker, at, None)), a);
  }

  lemma ClaimedIsCompleted(b: Board, b': Board, a: Id, claim: Id, worker: Key, id: Id, result: Result)
    requires ClaimedAnew(b, b', a, claim, worker) && id !in b'.claims && id !in b'.completes
    ensures CompletedAnew(b, Folded(b', Complete(id, claim, worker, result)), a, id, worker, result)
  {
    ClaimIsCompleted(b', a, id, result);
    CompletionTouchesNoOther(b', a, id, result);
    MessagesStaySound(b', Complete(id, claim, worker, result));
    OthersStayThrough(b, b', Folded(b', Complete(id, claim, worker, result)), a);
  }

  lemma CompletedIsAccepted(b: Board, b': Board, a: Id, complete: Id, worker: Key, result: Result, id: Id)
    requires CompletedAnew(b, b', a, complete, worker, result)
    ensures AcceptedAnew(b, Folded(b', Accept(id, complete)), a, complete, worker, result)
  {
    AcceptMakesPayable(b', complete, id);
    OthersStayThrough(b, b', Folded(b', Accept(id, complete)), a);
  }

  /**
   Rejected work is done again and paid: after a reject, any permitted worker
   that holds nothing, the one rejected or another, claims the assign, completes
   it, is accepted, and stands to be paid on the terms it was posted on.
   */
  lemma RejectedWorkIsDoneAgain(b: Board, complete: Id, ids: seq<Id>, worker: Key, at: int, result: Result,
        claimed: Board)
    requires Sound(b) && complete in b.pending && b.work[b.pending[complete]].status == Completed
    requires var w := b.work[b.pending[complete]]; w.deadline.None? && w.exclusive in {"", worker}
    requires worker !in b.held && |ids| == 4 && forall i :: 0 <= i < 3 ==> ids[i] !in b.claims && ids[i] !in b.completes
    requires ids[1] != ids[2]
    requires var open := Folded(b, Reject(ids[0], complete));
             claimed == Folded(open, Claim(ids[1], b.pending[complete], worker, at, None))
    ensures var done := Folded(claimed, Complete(ids[2], ids[1], worker, result));
            AcceptedAnew(b, Folded(done, Accept(ids[3], ids[2])), b.pending[complete], ids[2], worker, result)
  {
    var a := b.pending[complete];
    ReopenedIsClaimed(b, complete, ids[0], ids[1], worker, at);
    var done := Folded(claimed, Complete(ids[2], ids[1], worker, result));
    assert ids[2] !in claimed.claims && ids[2] !in claimed.completes;
    ClaimedIsCompleted(b, claimed, a, ids[1], worker, ids[2], result);
    CompletedIsAccepted(b, done, a, ids[2], worker, result, ids[3]);
  }

  lemma OthersStayThrough(b: Board, mid: Board, b': Board, a: Id)
    requires OthersStay(b, mid, a) && OthersStay(mid, b', a)
    ensures OthersStay(b, b', a)
  {
  }

  /** Messages of fresh ids keep the indexes sound. */
  lemma MessagesStaySound(b: Board, m: Msg)
    requires Sound(b) && m.id !in b.claims && m.id !in b.completes && !m.AuctionClose?
    ensures Sound(Folded(b, m))
  {
    MessagesKeepIndexed(b, m);
    OneClaimEachExactlyUnlessHolderWins(b, m);
    match m {
      case Complete(_, _, _, _) => CompletionKeepsClaims(b, m);
      case Expire(_, antecedent) => ExpiryKeepsClaims(b, antecedent);
      case Claim(id, assign, sender, _, _) =>
        if assign in b.work && b.work[assign].deadline.Some? { BidKeepsClaims(b, m); }
        else if Folded(b, m) != b { ClaimedByKeepsClaims(b, assign, id, sender, b.work[assign].price); }
      case _ => ReviewKeepsClaims(b, m);
    }
  }

  // ----- The invariant of every run -----

  /** What a record never changes once its assign is posted. */
  predicate SameJob(v: Work, w: Work) {
    v.compress == w.compress && v.entry == w.entry && v.reward == w.reward && v.exclusive == w.exclusive
        && v.deadline == w.deadline
  }

  /** `r` is what a replay of the log gives. */
  ghost predicate BoardInv(log: seq<Msg>, r: Board, board: Board, paid: set<Id>) {
    Unique(log) && board == Marked(r, paid) && AllAccepted(r.work, paid) && Indexed(r) && Sourced(r, log)
  }

  lemma ReplayOneMore(log: seq<Msg>, m: Msg)
    ensures Replay(log + [m]) == Folded(Replay(log), m)
  {
  }

  lemma UniqueOneMore(log: seq<Msg>, m: Msg)
    requires Unique(log) && Fits(log, m)
    ensures Unique(log + [m])
  {
  }

  lemma AppendKeepsBoard(log: seq<Msg>, r: Board, board: Board, paid: set<Id>, m: Msg)
    requires BoardInv(log, r, board, paid) && Fits(log, m)
    ensures BoardInv(log + [m], Folded(r, m), Folded(board, m), paid)
  {
    UniqueOneMore(log, m);
    MarksCommute(r, paid, m);
    if m.Complete? && m.id in r.completes {
      RedeliveredCompletion(r, log, m);
      SourcesGrow(log, m);
    } else {
      MessagesKeepIndexed(r, m);
      MessagesKeepSourced(r, log, m);
    }
  }

  lemma MarkOneMore(r: Board, paid: set<Id>, complete: Id)
    requires AllAccepted(r.work, paid) && Indexed(r) && Payable(Marked(r, paid), complete)
    ensures var a := Marked(r, paid).completes[complete];
            && a !in paid && complete in r.completes && r.completes[complete] == a
            && Marked(r, paid).work[a] == r.work[a] && r.work[a].status.Accepted?
            && Marked(r, paid + {a}) == PaidOff(Marked(r, paid), complete)
  {
    var a := r.completes[complete];
    forall c | c in r.completes && r.completes[c] == a ensures c == complete { }
    assert MarkWork(r.work, paid + {a}) == MarkWork(r.work, paid)[a := r.work[a].(status := Paid)];
    assert MarkIndex(r.completes, paid + {a}) == MarkIndex(r.completes, paid) - {complete};
  }

  lemma PayingKeepsBoard(log: seq<Msg>, r: Board, board: Board, paid: set<Id>, complete: Id)
    requires BoardInv(log, r, board, paid) && Payable(board, complete)
    ensures BoardInv(log, r, PaidOff(board, complete), paid + {board.completes[complete]})
  {
    MarkOneMore(r, paid, complete);
  }

  lemma RebuildKeepsBoard(log: seq<Msg>, r: Board, board: Board, paid: set<Id>)
    requires BoardInv(log, r, board, paid)
    ensures BoardInv(log, r, r, {})
  {
  }

  ghost function Count(payments: seq<Payment>, assign: Id): nat
    decreases |payments|
  {
    if payments == [] then 0
    else Count(payments[..|payments| - 1], assign) + if payments[|payments| - 1].assign == assign then 1 else 0
  }

  /** A payment's record is the one on the board, accepted, and its evidence passed the gates. */
  ghost predicate PaymentHolds(r: Board, p: Payment) {
    && p.assign in r.work && r.work[p.assign] == p.work && p.work.status.Accepted? && p.work.complete == p.complete
    && p.amount == PayAmount(p.work) > 0 && p.work.claimant != ""
    && (p.proof.Some? ==> p.work.compress && Verdict(p.work, p.proof.value).None?)
  }

  ghost predicate SnapshotHolds(r: Board, log: seq<Msg>, seen: (Id, Work)) {
    seen.0 in r.work && SameJob(r.work[seen.0], seen.1) && DoneIn(log, seen.0, seen.1)
  }

  ghost predicate AcceptingHolds(w: World) {
    w.accepting.Some? && w.accepting.value.proof.Some? ==>
      exists seen :: seen in w.snapshots && ProvenBy(seen, w.accepting.value)
  }

  predicate ProvenBy(seen: (Id, Work), a: Accepting) {
    seen.1.complete == a.complete && seen.1.compress && a.proof.Some? && Verdict(seen.1, a.proof.value).None?
  }

  ghost predicate Inv(w: World) {
    InvOn(w, Replay(w.log))
  }

  ghost predicate InvOn(w: World, r: Board) {
    && BoardInv(w.log, r, w.board, w.paid)
    && CountsHold(w.payments, w.paid, w.rebuilds)
    && (forall p :: p in w.payments ==> PaymentHolds(r, p))
    && (forall seen :: seen in w.snapshots ==> SnapshotHolds(r, w.log, seen))
    && AcceptingHolds(w)
  }

  lemma JobsStay(b: Board, m: Msg)
    ensures forall a :: a in b.work ==> a in Folded(b, m).work && SameJob(Folded(b, m).work[a], b.work[a])
  {
  }

  lemma AppendKeepsInv(w: World, r: Board, m: Msg)
    requires InvOn(w, r) && Fits(w.log, m)
    ensures InvOn(Appended(w, m), Folded(r, m))
  {
    AppendKeepsBoard(w.log, r, w.board, w.paid, m);
    OnlyTheTarget(r, m);
    JobsStay(r, m);
    SourcesGrow(w.log, m);
    var r' := Folded(r, m);
    forall p | p in w.payments ensures PaymentHolds(r', p) {
      assert PaymentHolds(r, p);
    }
    forall seen | seen in w.snapshots ensures SnapshotHolds(r', w.log + [m], seen) {
      assert SnapshotHolds(r, w.log, seen);
    }
  }

  lemma SnapshotKeepsInv(w: World, r: Board)
    requires InvOn(w, r)
    ensures InvOn(Do(w, Snapshot), r)
  {
    forall seen | seen in UnderReviewNow(w.board) ensures SnapshotHolds(r, w.log, seen) {
      var c :| c in w.board.pending && UnderReview(w.board, c)
          && seen == (w.board.pending[c], w.board.work[w.board.pending[c]]);
      assert c in r.completes;
      assert DoneIn(w.log, r.completes[c], r.work[r.completes[c]]);
    }
  }

  /** A tick's snapshot is every completion that waits for review, as its record stands, and changes nothing else. */
  lemma SnapshotSeesReview(w: World, c: Id)
    requires c in w.board.pending && w.board.pending[c] in w.board.work
    requires w.board.work[w.board.pending[c]].status == Completed
    ensures var w' := Do(w, Snapshot);
            && (w.board.pending[c], w.board.work[w.board.pending[c]]) in w'.snapshots
            && w' == w.(snapshots := w'.snapshots) && w.snapshots <= w'.snapshots
  {
    assert UnderReview(w.board, c);
  }

  /** The record a payment finds is the one whose snapshot passed the gates. */
  lemma ProofTransfers(log: seq<Msg>, r: Board, a: Id, seen: (Id, Work), accepting: Accepting)
    requires Unique(log) && a in r.work && DoneIn(log, a, r.work[a]) && r.work[a].complete == accepting.complete
    requires SnapshotHolds(r, log, seen) && ProvenBy(seen, accepting)
    ensures r.work[a].compress && Verdict(r.work[a], accepting.proof.value).None?
  {
  }

  ghost function NewPayment(w: World): Payment
    requires w.accepting.Some? && Payable(w.board, w.accepting.value.complete)
  {
    var assign := w.board.completes[w.accepting.value.complete];
    Payment(assign, w.accepting.value.complete, w.board.work[assign], PayAmount(w.board.work[assign]),
        w.accepting.value.proof)
  }

  lemma NewPaymentHolds(w: World, r: Board)
    requires InvOn(w, r) && w.accepting.Some? && Payable(w.board, w.accepting.value.complete)
    requires NewPayment(w).amount > 0 && NewPayment(w).work.claimant != ""
    ensures PaymentHolds(r, NewPayment(w))
  {
    MarkOneMore(r, w.paid, w.accepting.value.complete);
    var a := r.completes[w.accepting.value.complete];
    assert DoneIn(w.log, a, r.work[a]);
    if w.accepting.value.proof.Some? {
      var seen :| seen in w.snapshots && ProvenBy(seen, w.accepting.value);
      ProofTransfers(w.log, r, a, seen, w.accepting.value);
    }
  }

  ghost predicate CountsHold(payments: seq<Payment>, paid: set<Id>, rebuilds: nat) {
    forall a :: Count(payments, a) <= rebuilds + if a in paid then 1 else 0
  }

  lemma PaymentKeepsCounts(payments: seq<Payment>, paid: set<Id>, rebuilds: nat, p: Payment)
    requires CountsHold(payments, paid, rebuilds) && p.assign !in paid
    ensures CountsHold(payments + [p], paid + {p.assign}, rebuilds) && CountsHold(payments, paid + {p.assign}, rebuilds)
  {
  }

  lemma PaymentKeepsInv(w: World, r: Board)
    requires InvOn(w, r) && w.accepting.Some?
    ensures InvOn(PaymentClaimed(w), r)
  {
    if Payable(w.board, w.accepting.value.complete) {
      var p := NewPayment(w);
      PayingKeepsBoard(w.log, r, w.board, w.paid, p.complete);
      MarkOneMore(r, w.paid, p.complete);
      PaymentKeepsCounts(w.payments, w.paid, w.rebuilds, p);
      if p.amount > 0 && p.work.claimant != "" { NewPaymentHolds(w, r); }
    }
  }

  lemma AppendStepKeepsInv(w: World, m: Msg)
    requires Inv(w) && Fits(w.log, m)
    ensures Inv(Appended(w, m))
  {
    AppendKeepsInv(w, Replay(w.log), m);
    ReplayOneMore(w.log, m);
  }

  lemma StepKeepsInv(w: World, step: Step)
    requires Inv(w)
    ensures Inv(Do(w, step))
  {
    if Enabled(w, step) {
      match step {
        case Append(m) => AppendStepKeepsInv(w, m);
        case Snapshot => SnapshotKeepsInv(w, Replay(w.log));
        case TickAccept(seen, env, id) =>
          AppendStepKeepsInv(w, Accept(id, seen.1.complete));
          assert ProvenBy(seen, Accepting(seen.1.complete, Some(env)));
        case TickReject(seen, env, id) => AppendStepKeepsInv(w, Reject(id, seen.1.complete));
        case ManualAccept(complete, id) => AppendStepKeepsInv(w, Accept(id, complete));
        case ClaimPayment => PaymentKeepsInv(w, Replay(w.log));
        case Rebuild => RebuildKeepsBoard(w.log, Replay(w.log), w.board, w.paid);
      }
    }
  }

  lemma {:induction false} RunKeepsInv(steps: seq<Step>)
    ensures Inv(Exec(START, steps))
    decreases |steps|
  {
    if steps != [] {
      RunKeepsInv(steps[..|steps| - 1]);
      StepKeepsInv(Exec(START, steps[..|steps| - 1]), steps[|steps| - 1]);
    } else {
      assert MarkWork(EMPTY.work, {}) == map[] && MarkIndex(EMPTY.completes, {}) == map[];
    }
  }

  lemma {:induction false} ReplayIsPosted(log: seq<Msg>)
    ensures AllPosted(Replay(log), log)
    decreases |log|
  {
    if log != [] {
      var init, last := log[..|log| - 1], log[|log| - 1];
      var r, r' := Replay(init), Replay(log);
      ReplayIsPosted(init);
      JobsStay(r, last);
      forall a | a in r'.work ensures exists m :: m in log && IsPost(m, a, r'.work[a]) {
        if a in r.work {
          var m :| m in init && IsPost(m, a, r.work[a]);
          assert m in log && IsPost(m, a, r'.work[a]);
        } else {
          OnlyPostsAdd(r, last, a);
          assert last in log;
        }
      }
    }
  }

  lemma OnlyPostsAdd(b: Board, m: Msg, a: Id)
    requires a !in b.work && a in Folded(b, m).work
    ensures IsPost(m, a, Folded(b, m).work[a])
  {
  }

  lemma MarksKeepSound(r: Board, paid: set<Id>)
    requires Indexed(r) && ClaimIndexed(r) && AllAccepted(r.work, paid)
    ensures Indexed(Marked(r, paid)) && ClaimIndexed(Marked(r, paid))
  {
  }

  /** Over every run the live board is sound, paid marks and all, so what is said of sound boards holds of it. */
  lemma LiveBoardIsSound(steps: seq<Step>)
    ensures var b := Exec(START, steps).board; Indexed(b) && ClaimIndexed(b)
  {
    var w := Exec(START, steps);
    RunKeepsInv(steps);
    ReplayIsSound(w.log);
    MarksKeepSound(Replay(w.log), w.paid);
  }

  /**
   Over every run, with stale ticks, redelivered messages and manual accepts, an assign is paid at most once per life
   of the live board.
   */
  lemma PaidAtMostOncePerRebuild(steps: seq<Step>, assign: Id)
    ensures var w := Exec(START, steps); Count(w.payments, assign) <= w.rebuilds + if assign in w.paid then 1 else 0
  {
    RunKeepsInv(steps);
  }

  /**
   What is paid is the posted reward, or for an auctioned assign the second
   lowest bid, to the lowest bidder and never past the ceiling; reserved work
   is only ever paid to the worker it was reserved for.
   */
  lemma PaidWhatIsOwed(steps: seq<Step>, p: Payment)
    requires p in Exec(START, steps).payments
    ensures exists m :: m in Exec(START, steps).log && IsPost(m, p.assign, p.work)
    ensures exists m :: m in Exec(START, steps).log && IsCompletion(m, p.work)
    ensures p.work.claimant != "" && (p.work.exclusive == "" || p.work.claimant == p.work.exclusive)
    ensures p.work.deadline.None? ==> p.amount == p.work.reward
    ensures p.work.deadline.Some? ==>
              && p.work.bids != [] && p.work.claimant == Winner(p.work.bids).worker
                 && p.amount == ClearingPrice(p.work.bids)
              && (p.work.reward > 0 ==> p.amount <= p.work.reward * AUCTION_BID_CEIL_MULTIPLIER)
  {
    var w := Exec(START, steps);
    RunKeepsInv(steps);
    ReplayIsSound(w.log);
    ReplayIsPosted(w.log);
    assert PaymentHolds(Replay(w.log), p);
    assert TermsOf(p.work);
    if p.work.deadline.Some? { LowestWinsAtTheSecondLowest(p.work.bids); }
  }

  /**
   Whatever the ticker paid for passed every gate, on bytes the operator holds itself and, for a put, on the
   claimant's own distinct put.
   */
  lemma TickerPaysOnlyWhatPassed(steps: seq<Step>, p: Payment)
    requires p in Exec(START, steps).payments && p.proof.Some?
    ensures p.work.compress && PassesAllGates(p.work, p.proof.value)
    ensures p.work.result.PutReference? ==>
              var put := p.work.result.put; var inventory := p.proof.value.inventory;
              put in inventory && inventory[put].seller == p.work.claimant && inventory[put].id != p.work.entry
  {
    RunKeepsInv(steps);
    assert PaymentHolds(Replay(Exec(START, steps).log), p);
    VerdictIsAllGates(p.work, p.proof.value);
  }

  /** Accepting a paid completion again pays again exactly when a rebuild has forgotten the payment. */
  lemma PaysAgainExactlyAfterRebuild(steps: seq<Step>, p: Payment, id: Id)
    requires var w := Exec(START, steps); p in w.payments && w.accepting.None? && Fits(w.log, Accept(id, p.complete))
    ensures var w := Exec(START, steps);
            var again := Do(Do(w, ManualAccept(p.complete, id)), ClaimPayment);
            again.payments == if p.assign in w.paid then w.payments else w.payments + [p.(proof := None)]
  {
    RunKeepsInv(steps);
    var w := Exec(START, steps);
    AcceptedAgain(w, Replay(w.log), p, id);
  }

  lemma AcceptedAgain(w: World, r: Board, p: Payment, id: Id)
    requires Indexed(r) && w.board == Marked(r, w.paid) && PaymentHolds(r, p) && w.accepting.None?
             && Fits(w.log, Accept(id, p.complete))
    ensures var again := Do(Do(w, ManualAccept(p.complete, id)), ClaimPayment);
            again.payments == if p.assign in w.paid then w.payments else w.payments + [p.(proof := None)]
  {
  }

  lemma ExecFirst(w: World, steps: seq<Step>, n: nat)
    requires 0 < n <= |steps|
    ensures Exec(w, steps[..n]) == Do(Exec(w, steps[..n - 1]), steps[n - 1])
  {
    assert steps[..n][..n - 1] == steps[..n - 1];
  }

  /** One assign posted, claimed, completed and accepted by the operator, and paid. */
  predicate PaysOnce(steps: seq<Step>, worker: Key) {
    && |steps| >= 5
    && steps[0] == Append(Assign(1, true, 5, 0, "", None)) && steps[1] == Append(Claim(2, 1, worker, 10, None))
    && steps[2] == Append(Complete(3, 2, worker, Malformed)) && steps[3] == ManualAccept(3, 4)
       && steps[4] == ClaimPayment
  }

  ghost predicate CompletedBoard(w: World, worker: Key) {
    && w.log == [Assign(1, true, 5, 0, "", None), Claim(2, 1, worker, 10, None), Complete(3, 2, worker, Malformed)]
    && w.board.work.Keys == {1} && w.board.completes == map[3 := 1] && w.board.pending == map[3 := 1]
    && w.board.work[1] == Job(None).(status := Completed, claimant := worker, claim := 2, complete := 3)
    && w.paid == {} && w.payments == [] && w.accepting == None && w.rebuilds == 0
  }

  ghost predicate PaidBoard(w: World) {
    && |w.log| == 4 && (forall i :: 0 <= i < 4 ==> w.log[i].id <= 4) && w.accepting == None
    && |w.payments| == 1 && w.payments[0].assign == 1 && w.payments[0].complete == 3
  }

  lemma WorkIsCompleted(steps: seq<Step>, worker: Key)
    requires PaysOnce(steps, worker)
    ensures CompletedBoard(Exec(START, steps[..3]), worker)
  {
    ExecFirst(START, steps, 1);
    ExecFirst(START, steps, 2);
    ExecFirst(START, steps, 3);
  }

  lemma WorkIsPaid(w: World, worker: Key)
    requires CompletedBoard(w, worker) && worker != ""
    ensures PaidBoard(Do(Do(w, ManualAccept(3, 4)), ClaimPayment))
  {
    assert Fits(w.log, Accept(4, 3));
    var accepted := Do(w, ManualAccept(3, 4));
    assert Payable(accepted.board, 3) && accepted.board.work[1].claimant == worker;
  }

  lemma CountOfTwo(p: Payment, q: Payment)
    requires p.assign == q.assign
    ensures Count([p] + [q], p.assign) == 2
  {
    var two := [p] + [q];
    assert [p][..0] == [] && Count([p], p.assign) == 1;
    assert two[..1] == [p] && two[1] == q;
  }

  lemma RebuiltAndPaid(steps: seq<Step>, before: World, p: Payment, id: Id)
    requires |steps| >= 3 && before == Exec(START, steps[..|steps| - 3]) && p in before.payments
    requires before.accepting.None? && Fits(before.log, Accept(id, p.complete))
    requires var n := |steps|;
             steps[n - 3] == Rebuild && steps[n - 2] == ManualAccept(p.complete, id) && steps[n - 1] == ClaimPayment
    ensures Exec(START, steps).payments == before.payments + [p.(proof := None)]
  {
    var n := |steps|;
    var rebuilt := Do(before, Rebuild);
    assert rebuilt == before.(board := Replay(before.log), paid := {}, rebuilds := before.rebuilds + 1);
    ExecFirst(START, steps, n - 2);
    PaysAgainExactlyAfterRebuild(steps[..n - 2], p, id);
    ExecFirst(START, steps, n - 1);
    ExecFirst(START, steps, n);
    assert steps[..n] == steps;
  }

  lemma WorkIsPaidByRun(steps: seq<Step>, worker: Key)
    requires PaysOnce(steps, worker) && worker != ""
    ensures PaidBoard(Exec(START, steps[..5]))
  {
    WorkIsCompleted(steps, worker);
    WorkIsPaid(Exec(START, steps[..3]), worker);
    ExecFirst(START, steps, 4);
    ExecFirst(START, steps, 5);
  }

  /** The double payment itself: post, claim, complete, accept and pay, rebuild, accept and pay again. */
  lemma PaidTwice(worker: Key, steps: seq<Step>)
    requires worker != "" && |steps| == 8 && PaysOnce(steps, worker)
    requires steps[5] == Rebuild && steps[6] == ManualAccept(3, 5) && steps[7] == ClaimPayment
    ensures Count(Exec(START, steps).payments, 1) == 2
  {
    WorkIsPaidByRun(steps, worker);
    var paid := Exec(START, steps[..5]);
    var p := paid.payments[0];
    RebuiltAndPaid(steps, paid, p, 5);
    assert paid.payments == [p];
    CountOfTwo(p, p.(proof := None));
  }

  /** The paid marks are lost only to a rebuild. */
  lemma PaidUntilRebuild(w: World, step: Step)
    requires !step.Rebuild?
    ensures w.paid <= Do(w, step).paid && Do(w, step).rebuilds == w.rebuilds
  {
  }

  // ----- The running engine -----

  /** validateCompletedCompressionAssign and resolveSubmittedCompression decide alike as early returns. */
  method ResolveSubmittedCompression(w: Work, env: Env) returns (sub: Submission)
    requires !w.result.Malformed?
    ensures sub == Resolved(w, env)
    ensures sub.Held? && !env.confidential ==> HeldBytes(w, env, sub.bytes)
  {
    match w.result
    case PutReference(put) =>
      if put !in env.inventory {
        return Refused(SubmissionUnavailable);
      }
      var entry := env.inventory[put];
      if entry.seller != w.claimant || entry.id == w.entry {
        return Refused(SubmissionNotOwned);
      }
      if entry.content == "" {
        return Refused(SubmissionUnavailable);
      }
      sub := Held(entry.content);
    case Inline(decoded, size, digestOf) =>
      if decoded.None? || |decoded.value| != size || digestOf != decoded.value {
        return Refused(Integrity);
      }
      sub := Held(decoded.value);
  }

  /** The exchange engine as far as assigns are concerned. */
  class Engine {
    var log: seq<Msg>
    var board: Board
    var payments: seq<Payment>
    ghost var paid: set<Id>
    ghost var snapshots: set<(Id, Work)>
    ghost var rebuilds: nat

    ghost function View(): World
      reads this
    {
      World(log, board, paid, payments, None, snapshots, rebuilds)
    }

    constructor ()
      ensures View() == START
    {
      log, board, payments := [], EMPTY, [];
      paid, snapshots, rebuilds := {}, {}, 0;
    }

    method Emit(m: Msg)
      modifies `log, `board
      ensures View() == Appended(old(View()), m)
    {
      log := log + [m];
      board := Folded(board, m);
    }

    method ClaimAssignPayment(complete: Id) returns (work: Option<Work>)
      modifies `board, `paid
      ensures work.Some? <==> Payable(old(board), complete)
      ensures work.Some? ==> work.value == old(board).work[old(board).completes[complete]]
                             && board == PaidOff(old(board), complete)
                                && paid == old(paid) + {old(board).completes[complete]}
      ensures work.None? ==> board == old(board) && paid == old(paid)
    {
      if complete !in board.completes {
        return None;
      }
      var assign := board.completes[complete];
      if assign !in board.work || !board.work[assign].status.Accepted? {
        return None;
      }
      work := Some(board.work[assign]);
      board := board.(work := board.work[assign := work.value.(status := Paid)],
          completes := board.completes - {complete});
      paid := paid + {assign};
    }

    /** `proof` is what the caller validated against, if it validated anything. */
    method HandleAssignAccept(complete: Id, proof: Option<Env>)
      modifies `board, `paid, `payments
      ensures View() == PaymentClaimed(old(View()).(accepting := Some(Accepting(complete, proof))))
    {
      var assign := if complete in board.completes then board.completes[complete] else 0;
      var work := ClaimAssignPayment(complete);
      if work.None? {
        return;
      }
      var amount := if work.value.price > 0 then work.value.price else work.value.reward;
      if amount <= 0 {
        return;
      }
      if work.value.claimant == "" {
        return;
      }
      payments := payments + [Payment(assign, complete, work.value, amount, proof)];
    }

    /** `emits` says whether the store takes the message; an empty completion id is refused before it is asked. */
    method AcceptAssignLocked(complete: Id, id: Id, proof: Option<Env>, emits: bool) returns (ok: bool)
      modifies `log, `board, `paid, `payments
      ensures ok == (complete != NO_ID && emits)
      ensures View() == if ok then AcceptedAndPaid(old(View()), complete, id, proof) else old(View())
    {
      if complete == NO_ID || !emits {
        return false;
      }
      Emit(Accept(id, complete));
      HandleAssignAccept(complete, proof);
      ok := true;
    }

    method RejectCompletedAssignLocked(complete: Id, id: Id, emits: bool) returns (ok: bool)
      modifies `log, `board
      ensures ok == (complete != NO_ID && emits)
      ensures View() == if ok then Appended(old(View()), Reject(id, complete)) else old(View())
      ensures ok && complete in old(board).pending && old(board).pending[complete] in old(board).work
              && old(board).work[old(board).pending[complete]].status == Completed ==>
                var a := old(board).pending[complete];
                && a in board.work && board.work[a].status == Open && board.work[a].claimant == ""
                && SameTerms(old(board).work[a], board.work[a])
                && complete !in board.pending && complete !in board.completes
    {
      if complete == NO_ID || !emits {
        return false;
      }
      Emit(Reject(id, complete));
      ok := true;
    }

    /**
     One tick over a snapshot read before the lock, with fresh ids for what it emits; `emits` says which emits the
     store takes.
     */
    method RunAutoAcceptAssigns(completed: seq<(Id, Work)>, env: Env, ids: seq<Id>, emits: seq<bool>)
      requires |ids| == |emits| == |completed|
      modifies `log, `board, `paid, `payments
      ensures View() == Ticked(old(View()), completed, env, ids, emits)
    {
      for i := 0 to |completed|
        invariant View() == Ticked(old(View()), completed[..i], env, ids[..i], emits[..i])
      {
        var work := completed[i].1;
        if work.compress {
          var verdict := Verdict(work, env);
          if verdict.Some? {
            var _ := RejectCompletedAssignLocked(work.complete, ids[i], emits[i]);
          } else {
            var _ := AcceptAssignLocked(work.complete, ids[i], Some(env), emits[i]);
          }
        }
        TickedOneMore(old(View()), completed, env, ids, emits, i);
      }
      assert completed[..|completed|] == completed && ids[..|ids|] == ids && emits[..|emits|] == emits;
    }

    /** A rebuild of the state from the log, window by window; the first one starts from an empty board. */
    method RebuildState()
      modifies `board, `paid, `rebuilds
      ensures View() == Do(old(View()), Rebuild)
    {
      board := EMPTY;
      var start := 0;
      while start < |log|
        invariant start <= |log| && board == Replay(log[..start]) && paid == old(paid) && rebuilds == old(rebuilds)
      {
        start := FoldWindow(start, WindowEnd(start, |log|));
      }
      assert log[..|log|] == log;
      paid, rebuilds := {}, rebuilds + 1;
    }

    method FoldWindow(start: nat, end: nat) returns (next: nat)
      requires start < end <= |log| && board == Replay(log[..start])
      modifies `board
      ensures next == end && board == Replay(log[..end])
    {
      for i := start to end
        invariant board == Replay(log[..i])
      {
        ghost var seen := log[..i + 1];
        assert seen[..|seen| - 1] == log[..i] && seen[|seen| - 1] == log[i];
        board := Folded(board, log[i]);
      }
      next := end;
    }
  }

  /** acceptAssignLocked: the accept is emitted and folded, then its payment is claimed in the same call. */
  function AcceptedAndPaid(w: World, complete: Id, id: Id, proof: Option<Env>): World {
    PaymentClaimed(Appended(w, Accept(id, complete)).(accepting := Some(Accepting(complete, proof))))
  }

  function TickedOne(w: World, seen: (Id, Work), env: Env, id: Id, emits: bool): World {
    if !seen.1.compress || seen.1.complete == NO_ID || !emits then w
    else if Verdict(seen.1, env).Some? then Appended(w, Reject(id, seen.1.complete))
    else AcceptedAndPaid(w, seen.1.complete, id, Some(env))
  }

  function Ticked(w: World, completed: seq<(Id, Work)>, env: Env, ids: seq<Id>, emits: seq<bool>): World
    requires |ids| == |emits| == |completed|
    decreases |ids|
  {
    if ids == [] then w
    else
      var last := |ids| - 1;
      TickedOne(Ticked(w, completed[..last], env, ids[..last], emits[..last]), completed[last], env, ids[last],
          emits[last])
  }

  lemma TickedOneMore(w: World, completed: seq<(Id, Work)>, env: Env, ids: seq<Id>, emits: seq<bool>, i: nat)
    requires |ids| == |emits| == |completed| && i < |ids|
    ensures Ticked(w, completed[..i + 1], env, ids[..i + 1], emits[..i + 1])
            == TickedOne(Ticked(w, completed[..i], env, ids[..i], emits[..i]), completed[i], env, ids[i], emits[i])
  {
    assert completed[..i + 1][..i] == completed[..i] && ids[..i + 1][..i] == ids[..i]
        && emits[..i + 1][..i] == emits[..i];
  }

  ghost predicate FreshId(log: seq<Msg>, id: Id) {
    forall j :: 0 <= j < |log| ==> log[j].id != id
  }

  lemma TickedOneFrame(w: World, seen: (Id, Work), env: Env, id: Id, emits: bool)
    requires w.accepting.None?
    ensures var after := TickedOne(w, seen, env, id, emits);
            && after.accepting.None? && after.snapshots == w.snapshots && after.rebuilds == w.rebuilds
            && (forall other :: other != id && FreshId(w.log, other) ==> FreshId(after.log, other))
  {
  }

  /** What one record of a tick does, in the machine's steps, unless it is skipped or its emit fails. */
  lemma TickedOneIsSteps(w: World, seen: (Id, Work), env: Env, id: Id)
    requires w.accepting.None? && seen in w.snapshots && seen.1.compress && seen.1.complete != NO_ID
             && FreshId(w.log, id)
    ensures TickedOne(w, seen, env, id, true) ==
            if Verdict(seen.1, env).Some? then Do(w, TickReject(seen, env, id))
            else Do(Do(w, TickAccept(seen, env, id)), ClaimPayment)
  {
  }

  lemma TickedOneKeepsInv(w: World, seen: (Id, Work), env: Env, id: Id, emits: bool)
    requires Inv(w) && w.accepting.None? && seen in w.snapshots && FreshId(w.log, id)
    ensures Inv(TickedOne(w, seen, env, id, emits))
  {
    if !seen.1.compress || seen.1.complete == NO_ID || !emits {
      assert TickedOne(w, seen, env, id, emits) == w;
    } else {
      TickedOneIsSteps(w, seen, env, id);
      StepKeepsInv(w, TickReject(seen, env, id));
      TwoStepsKeepInv(w, TickAccept(seen, env, id), ClaimPayment);
    }
  }

  /** A tick over a completion as it stands on the board pays what passes, once, and reopens what fails, unpaid. */
  lemma TickDecides(w: World, complete: Id, env: Env, id: Id)
    requires Indexed(w.board) && complete in w.board.pending && complete != NO_ID
    requires var work := w.board.work[w.board.pending[complete]];
             work.compress && PayAmount(work) > 0 && work.claimant != ""
    ensures var a := w.board.pending[complete]; var work := w.board.work[a];
            var after := TickedOne(w, (a, work), env, id, true);
            if PassesAllGates(work, env) then
              && after.board.work[a].status == Paid && |after.payments| == |w.payments| + 1
              && after.payments[..|w.payments|] == w.payments
              && var p := after.payments[|w.payments|];
                 p.assign == a && p.complete == complete && p.work.claimant == work.claimant
                 && p.amount == if work.price > 0 then work.price else work.reward
            else after.board.work[a].status == Open && after.payments == w.payments
  {
    var a := w.board.pending[complete];
    var work := w.board.work[a];
    VerdictIsAllGates(work, env);
    if PassesAllGates(work, env) {
      AcceptMakesPayable(w.board, complete, id);
    } else {
      assert w.board.work[a].complete == complete;
    }
  }

  lemma TwoStepsKeepInv(w: World, first: Step, second: Step)
    requires Inv(w)
    ensures Inv(Do(Do(w, first), second))
  {
    StepKeepsInv(w, first);
    StepKeepsInv(Do(w, first), second);
  }

  /** So a whole tick, over any snapshot however stale, keeps everything proved of the machine's runs. */
  lemma {:induction false} TickKeepsInv(w: World, completed: seq<(Id, Work)>, env: Env, ids: seq<Id>, emits: seq<bool>)
    requires Inv(w) && w.accepting.None? && |ids| == |emits| == |completed|
    requires forall i :: 0 <= i < |completed| ==> completed[i] in w.snapshots
    requires forall i, j :: 0 <= i < j < |ids| ==> ids[i] != ids[j]
    requires forall i :: 0 <= i < |ids| ==> FreshId(w.log, ids[i])
    ensures var after := Ticked(w, completed, env, ids, emits);
            && Inv(after) && after.accepting.None? && after.snapshots == w.snapshots && after.rebuilds == w.rebuilds
            && (forall other :: other !in ids && FreshId(w.log, other) ==> FreshId(after.log, other))
    decreases |ids|
  {
    if ids != [] {
      var last := |ids| - 1;
      TickKeepsInv(w, completed[..last], env, ids[..last], emits[..last]);
      var mid := Ticked(w, completed[..last], env, ids[..last], emits[..last]);
      TickedOneKeepsInv(mid, completed[last], env, ids[last], emits[last]);
      TickedOneFrame(mid, completed[last], env, ids[last], emits[last]);
    }
  }
}
