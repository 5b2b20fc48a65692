/**
 Credit, holds, pay and restarts as they interleave.  Buyer-accepts run in
 whichever goroutine dispatches them and share no lock; the operator's mints and
 the pay of labour take turns under another lock.  An emit is taken together
 with the live fold that follows it, as nothing reads the log before a restart.
 */
module CreditRuns {
  import opened Credit
  import opened Wrappers

  /** How far a goroutine is with the buyer-accept it dispatches, and what it has read. */
  datatype Accept =
    | Deciding(buyer: Key, hold: int, balance: int)
    | Lending(buyer: Key, hold: int, shortfall: int)
    | Holding(buyer: Key, hold: int)
    | Reserving(buyer: Key, hold: int, version: nat)
    | Debiting(buyer: Key, hold: int, version: nat)

  /**
   How far the pay of an accepted assign is: credited, logged, then repaying from loan `next` of the `bound` there
   were.
   */
  datatype Pay =
    | Logging(worker: Key, amount: int)
    | Withholding(worker: Key, amount: int)
    | Repaying(worker: Key, remaining: int, next: nat, bound: nat)

  /**
   `owing` is what the log takes from a key and its live balance has not given
   yet: holds made durable and not debited, pay credited and not logged.
   `versions` counts the writes to a balance.
   */
  datatype World = World(books: Books, owing: map<Key, int>, versions: map<Key, nat>, accepts: map<nat, Accept>,
        pay: Option<Pay>)

  datatype Step =
    | Start(t: nat, eligible: bool, buyer: Key, hold: int)
    | Decide(t: nat)
    | Lend(t: nat)
    | ReadHold(t: nat)
    | EmitHold(t: nat)
    | Debit(t: nat)
    | Fail(t: nat)
    | MintTo(recipient: Key, amount: int)
    | PayBegin(worker: Key, amount: int)
    | PayLog
    | PayRead
    | PayNext(fails: bool)
    | Restart

  function Version(w: World, k: Key): nat {
    if k in w.versions then w.versions[k] else 0
  }

  /** Only a member's buyer-accept is dispatched: the operator's own records are folded and skipped. */
  predicate Enabled(w: World, step: Step) {
    match step
    case Start(t, _, buyer, _) => t !in w.accepts && buyer != "" && buyer != w.books.operator
    case Decide(t) => t in w.accepts && w.accepts[t].Deciding?
    case Lend(t) => t in w.accepts && w.accepts[t].Lending?
    case ReadHold(t) => t in w.accepts && w.accepts[t].Holding?
    case EmitHold(t) => t in w.accepts && w.accepts[t].Reserving?
    case Debit(t) => t in w.accepts && w.accepts[t].Debiting?
    case Fail(t) => t in w.accepts && (w.accepts[t].Lending? || w.accepts[t].Reserving?)
    case MintTo(recipient, amount) => w.pay.None? && recipient != "" && amount > 0
    case PayBegin(worker, amount) => w.pay.None? && worker != "" && amount > 0
    case PayLog => w.pay.Some? && w.pay.value.Logging?
    case PayRead => w.pay.Some? && w.pay.value.Withholding?
    case PayNext(_) => w.pay.Some? && w.pay.value.Repaying?
    case Restart => true
  }

  function Wrote(w: World, k: Key, books: Books): World {
    w.(books := books, versions := w.versions[k := Version(w, k) + 1])
  }

  function Now(w: World, t: nat, a: Accept): World {
    w.(accepts := w.accepts[t := a])
  }

  function Started(w: World, step: Step): World
    requires step.Start?
  {
    var balance := Balance(w.books.live, step.buyer);
    Now(w, step.t, if !step.eligible || step.hold <= 0 || balance >= step.hold then Holding(step.buyer, step.hold)
                   else Deciding(step.buyer, step.hold, balance))
  }

  function Decided(w: World, t: nat): World
    requires t in w.accepts && w.accepts[t].Deciding?
  {
    var a := w.accepts[t];
    var outcome := ShortfallFor(Outstanding(w.books.live.loans, a.buyer), a.balance, a.hold);
    Now(w, t, if outcome.Minted? then Lending(a.buyer, a.hold, outcome.shortfall) else Holding(a.buyer, a.hold))
  }

  function Lent(w: World, t: nat): World
    requires t in w.accepts && w.accepts[t].Lending?
  {
    var a := w.accepts[t];
    Now(Wrote(w, a.buyer, EmitAndFold(w.books, LoanMint(a.buyer, a.shortfall))), t, Holding(a.buyer, a.hold))
  }

  function HoldRead(w: World, t: nat): World
    requires t in w.accepts && w.accepts[t].Holding?
  {
    var a := w.accepts[t];
    if Balance(w.books.live, a.buyer) < a.hold then w.(accepts := w.accepts - {t})
    else Now(w, t, Reserving(a.buyer, a.hold, Version(w, a.buyer)))
  }

  function HoldEmitted(w: World, t: nat): World
    requires t in w.accepts && w.accepts[t].Reserving?
  {
    var a := w.accepts[t];
    Now(w, t, Debiting(a.buyer, a.hold, a.version)).(
      books := w.books.(log := w.books.log + [Hold(a.buyer, a.hold)]),
      owing := if a.hold > 0 then Plus(w.owing, a.buyer, a.hold) else w.owing)
  }

  /** The debit is refused when the balance was written since it was read; the hold stays in the log. */
  function Debited(w: World, t: nat): World
    requires t in w.accepts && w.accepts[t].Debiting?
  {
    var a := w.accepts[t];
    var done := w.(accepts := w.accepts - {t});
    if a.version != Version(w, a.buyer) || a.buyer !in w.books.live.balances
        || Balance(w.books.live, a.buyer) < a.hold then done
    else Wrote(done, a.buyer,
        w.books.(live := Add(w.books.live, a.buyer, -a.hold))).(owing := Plus(w.owing, a.buyer, -a.hold))
  }

  function Failed(w: World, t: nat): World
    requires t in w.accepts
  {
    var a := w.accepts[t];
    if a.Lending? then Now(w, t, Holding(a.buyer, a.hold)) else w.(accepts := w.accepts - {t})
  }

  function PayBegun(w: World, worker: Key, amount: int): World {
    Wrote(w, worker, w.books.(live := Add(w.books.live, worker, amount))).(
      owing := Plus(w.owing, worker, amount), pay := Some(Logging(worker, amount)))
  }

  function PayLogged(w: World): World
    requires w.pay.Some? && w.pay.value.Logging?
  {
    var p := w.pay.value;
    w.(books := w.books.(log := w.books.log + [AssignPay(p.worker, p.amount)], labour := w.books.labour + p.amount),
       owing := Plus(w.owing, p.worker, -p.amount), pay := Some(Withholding(p.worker, p.amount)))
  }

  function PayDecided(w: World): World
    requires w.pay.Some? && w.pay.value.Withholding?
  {
    var p := w.pay.value;
    var withheld := Withheld(w.books.live.loans, p.worker, p.amount);
    w.(pay := if withheld > 0 then Some(Repaying(p.worker, withheld, 0, |w.books.live.loans|)) else None)
  }

  /** What the pass takes for its next loan; zero if that is settled, somebody else's, or not there. */
  function NextRepayment(w: World): int
    requires w.pay.Some? && w.pay.value.Repaying?
  {
    var p := w.pay.value;
    if p.next >= |w.books.live.loans| then 0 else Min(p.remaining, OwedBy(w.books.live.loans[p.next], p.worker))
  }

  function PaidNext(w: World, fails: bool): World
    requires w.pay.Some? && w.pay.value.Repaying?
  {
    var p, amount := w.pay.value, NextRepayment(w);
    if p.remaining <= 0 || p.next >= p.bound then w.(pay := None)
    else if amount <= 0 || fails then w.(pay := Some(p.(next := p.next + 1)))
    else
      var books := EmitAndFold(w.books, LoanRepay(p.next, amount));
      var paid := w.(pay := Some(p.(remaining := p.remaining - amount, next := p.next + 1)));
      if books.live == w.books.live then paid.(books := books) else Wrote(paid, p.worker, books)
  }

  /** Every goroutine is gone, and the live ledger is what the log says. */
  function Rebooted(w: World): World {
    World(Restarted(w.books), map[], map[], map[], None)
  }

  /** A step that is not enabled does nothing. */
  function Do(w: World, step: Step): World {
    if !Enabled(w, step) then w
    else
      match step
      case Start(_, _, _, _) => Started(w, step)
      case Decide(t) => Decided(w, t)
      case Lend(t) => Lent(w, t)
      case ReadHold(t) => HoldRead(w, t)
      case EmitHold(t) => HoldEmitted(w, t)
      case Debit(t) => Debited(w, t)
      case Fail(t) => Failed(w, t)
      case MintTo(recipient, amount) => Wrote(w, recipient, MintScripped(w.books, recipient, amount))
      case PayBegin(worker, amount) => PayBegun(w, worker, amount)
      case PayLog => PayLogged(w)
      case PayRead => PayDecided(w)
      case PayNext(fails) => PaidNext(w, fails)
      case Restart => Rebooted(w)
  }

  function Exec(w: World, steps: seq<Step>): World
    decreases |steps|
  {
    if steps == [] then w else Do(Exec(w, steps[..|steps| - 1]), steps[|steps| - 1])
  }

  function New(operator: Key): World {
    World(NewBooks(operator), map[], map[], map[], None)
  }

  // ----- Failures, mints and restarts -----

  /** A failed emit leaves the books alone: a credit's lets the hold be tried without it, a hold's ends the accept. */
  lemma EmitsMayFail(w: World, t: nat)
    requires t in w.accepts
    ensures var a := w.accepts[t];
            Do(w, Fail(t)) ==
            if a.Lending? then w.(accepts := w.accepts[t := Holding(a.buyer, a.hold)])
            else if a.Reserving? then w.(accepts := w.accepts - {t}) else w
  {
  }

  /** A mint waits for a pay under way and no buyer-accept; a restart waits for nothing and forgets every goroutine. */
  lemma MintsAndRestarts(w: World, recipient: Key, amount: int)
    ensures Do(w, MintTo(recipient, amount)).books ==
            if w.pay.None? then MintScripped(w.books, recipient, amount) else w.books
    ensures Do(w, Restart) == World(Restarted(w.books), map[], map[], map[], None)
  {
  }

  // ----- The principal on loan -----

  lemma StepKeepsOnLoan(w: World, step: Step)
    requires w.books.live.loanPrincipal == OnLoan(w.books.live.loans)
    ensures var live := Do(w, step).books.live; live.loanPrincipal == OnLoan(live.loans)
  {
    if Enabled(w, step) {
      match step {
        case Lend(t) =>
          FoldKeepsOnLoan(w.books.live, LoanMint(w.accepts[t].buyer, w.accepts[t].shortfall), w.books.operator, false);
        case MintTo(recipient, amount) =>
          FoldKeepsOnLoan(w.books.live, Mint(recipient, amount), w.books.operator, false);
        case PayNext(_) =>
          FoldKeepsOnLoan(w.books.live, LoanRepay(w.pay.value.next, NextRepayment(w)), w.books.operator, false);
        case Restart => ReplayKeepsOnLoan(w.books.log, w.books.operator);
        case _ =>
      }
    }
  }

  /**
   In every run, overlapping or not, the total the store keeps of principal on
   loan is the sum of the principals of its active loans, live and as a restart
   would rebuild it.
   */
  lemma {:induction false} PrincipalOnLoanIsExact(operator: Key, steps: seq<Step>)
    ensures var books := Exec(New(operator), steps).books; var replayed := Replay(books.log, books.operator);
            && books.live.loanPrincipal == OnLoan(books.live.loans)
            && replayed.loanPrincipal == OnLoan(replayed.loans)
    decreases |steps|
  {
    if steps != [] {
      PrincipalOnLoanIsExact(operator, steps[..|steps| - 1]);
      StepKeepsOnLoan(Exec(New(operator), steps[..|steps| - 1]), steps[|steps| - 1]);
    }
    ReplayKeepsOnLoan(Exec(New(operator), steps).books.log, Exec(New(operator), steps).books.operator);
  }

  // ----- The live ledger and the one a restart would rebuild -----

  /** What the log holds back from balances. */
  ghost function HeldIn(log: seq<ScripMsg>): int
    decreases |log|
  {
    if log == [] then 0 else HeldIn(log[..|log| - 1]) + HeldBy(log[|log| - 1])
  }

  function HeldBy(msg: ScripMsg): int {
    if msg.Hold? && msg.buyer != "" && msg.amount > 0 then msg.amount else 0
  }

  lemma HeldOneMore(log: seq<ScripMsg>, msg: ScripMsg)
    ensures HeldIn(log + [msg]) == HeldIn(log) + HeldBy(msg)
  {
  }

  /** The running process and what a restart would make of it. */
  datatype Sides = Sides(operator: Key, live: Ledger, replayed: Ledger, owing: map<Key, int>, labour: int, held: int)

  ghost function SidesOf(w: World): Sides {
    Sides(w.books.operator, w.books.live, Replay(w.books.log, w.books.operator), w.owing, w.books.labour,
        HeldIn(w.books.log))
  }

  /** A replay gives a key what it has live, less what it owes the log, less labour if it is the operator. */
  predicate AgreesAt(s: Sides, k: Key) {
    Balance(s.replayed, k) == Balance(s.live, k) - At(s.owing, k) - if k == s.operator then s.labour else 0
  }

  ghost predicate LedgersAgree(s: Sides) {
    && LoansInv(s.live.loans)
    && s.replayed.loans == s.live.loans && s.replayed.supply == s.live.supply
       && s.replayed.loanPrincipal == s.live.loanPrincipal
    && (forall k :: AgreesAt(s, k))
    && Total(s.replayed.balances) + s.held == s.replayed.supply
    && Total(s.live.balances) + s.held == s.live.supply + s.labour + Total(s.owing)
  }

  ghost predicate ActorsHold(w: World) {
    && (forall t :: t in w.accepts ==> w.accepts[t].buyer != "" && w.accepts[t].buyer != w.books.operator)
    && (w.pay.Some? ==> w.pay.value.worker != "")
    && (w.pay.Some? && !w.pay.value.Repaying? ==> w.pay.value.amount > 0)
  }

  ghost predicate Agrees(w: World) {
    LedgersAgree(SidesOf(w)) && ActorsHold(w)
  }

  /** The same amount moves at one key, in the balances a message reaches and in what is owed. */
  lemma MoveAgrees(s: Sides, s': Sides, k: Key, x: int, y: int, z: int)
    requires forall j :: AgreesAt(s, j)
    requires s'.operator == s.operator && s'.labour == s.labour && y == x - z
    requires forall j :: At(s'.live.balances, j) == At(s.live.balances, j) + if j == k then x else 0
    requires forall j :: At(s'.replayed.balances, j) == At(s.replayed.balances, j) + if j == k then y else 0
    requires forall j :: At(s'.owing, j) == At(s.owing, j) + if j == k then z else 0
    ensures forall j :: AgreesAt(s', j)
  {
    forall j ensures AgreesAt(s', j) {
      assert AgreesAt(s, j);
    }
  }

  /** A message that mints is folded alike by both ledgers. */
  lemma MintAgrees(s: Sides, msg: ScripMsg)
    requires LedgersAgree(s) && (msg.Mint? || msg.LoanMint?)
    ensures LedgersAgree(s.(live := Apply(s.live, msg, s.operator, false),
            replayed := Apply(s.replayed, msg, s.operator, true)))
  {
    var k, amount := if msg.Mint? then msg.recipient else msg.borrower, if msg.Mint? then msg.amount else msg.principal;
    var s' := s.(live := Apply(s.live, msg, s.operator, false), replayed := Apply(s.replayed, msg, s.operator, true));
    if k != "" && amount > 0 {
      TotalAfterPlus(s.live.balances, k, amount);
      TotalAfterPlus(s.replayed.balances, k, amount);
      MoveAgrees(s, s', k, amount, amount, 0);
    }
  }

  /** A repayment the live balance covers moves both ledgers alike; one it does not cover parts them. */
  lemma RepayAgrees(s: Sides, i: nat, amount: int)
    requires LedgersAgree(s) && i < |s.live.loans| && 0 < amount <= Owed(s.live.loans[i])
    ensures LedgersAgree(s.(live := Apply(s.live, LoanRepay(i, amount), s.operator, false),
                            replayed := Apply(s.replayed, LoanRepay(i, amount), s.operator, true)))
            <==> Balance(s.live, s.live.loans[i].borrower) >= amount
  {
    var k := s.live.loans[i].borrower;
    var s' := s.(live := Apply(s.live, LoanRepay(i, amount), s.operator, false),
                 replayed := Apply(s.replayed, LoanRepay(i, amount), s.operator, true));
    if Balance(s.live, k) >= amount {
      TotalAfterPlus(s.live.balances, k, -amount);
      TotalAfterPlus(s.replayed.balances, k, -amount);
      MoveAgrees(s, s', k, -amount, -amount, 0);
    }
  }

  /** The live ledger alone moves, and what is owed with it: pay credited before it is logged, a hold debited after. */
  lemma OwingMoveAgrees(s: Sides, k: Key, amount: int)
    requires LedgersAgree(s)
    ensures LedgersAgree(s.(live := Add(s.live, k, amount), owing := Plus(s.owing, k, amount)))
  {
    TotalAfterPlus(s.live.balances, k, amount);
    TotalAfterPlus(s.owing, k, amount);
    MoveAgrees(s, s.(live := Add(s.live, k, amount), owing := Plus(s.owing, k, amount)), k, amount, 0, amount);
  }

  lemma HoldAgrees(s: Sides, k: Key, amount: int)
    requires LedgersAgree(s) && k != "" && amount > 0
    ensures LedgersAgree(s.(replayed := Apply(s.replayed, Hold(k, amount), s.operator, true),
                            owing := Plus(s.owing, k, amount), held := s.held + amount))
  {
    TotalAfterPlus(s.replayed.balances, k, -amount);
    TotalAfterPlus(s.owing, k, amount);
    MoveAgrees(s, s.(replayed := Add(s.replayed, k, -amount), owing := Plus(s.owing, k, amount)), k, 0, -amount,
        amount);
    var s' := s.(replayed := Add(s.replayed, k, -amount), owing := Plus(s.owing, k, amount), held := s.held + amount);
    forall j ensures AgreesAt(s', j) {
      assert AgreesAt(s'.(held := s.held), j);
    }
  }

  function PayLogSides(s: Sides, k: Key, amount: int): Sides {
    s.(replayed := Apply(s.replayed, AssignPay(k, amount), s.operator, true),
       owing := Plus(s.owing, k, -amount), labour := s.labour + amount)
  }

  /** Logging a pay makes the operator pay it on replay, and settles what its worker owed. */
  lemma PayLogBalances(s: Sides, k: Key, amount: int, j: Key)
    requires AgreesAt(s, j) && k != "" && amount > 0
    ensures AgreesAt(PayLogSides(s, k, amount), j)
  {
  }

  lemma PayLogAgrees(s: Sides, k: Key, amount: int)
    requires LedgersAgree(s) && k != "" && amount > 0
    ensures LedgersAgree(PayLogSides(s, k, amount))
  {
    var s' := PayLogSides(s, k, amount);
    var debited := Plus(s.replayed.balances, s.operator, -amount);
    TotalAfterPlus(s.replayed.balances, s.operator, -amount);
    TotalAfterPlus(debited, k, amount);
    TotalAfterPlus(s.owing, k, -amount);
    assert s'.replayed.balances == Plus(debited, k, amount);
    forall j ensures AgreesAt(s', j) {
      PayLogBalances(s, k, amount, j);
    }
  }

  lemma LendAgrees(w: World, t: nat)
    requires Agrees(w) && Enabled(w, Lend(t))
    ensures Agrees(Lent(w, t))
  {
    var msg := LoanMint(w.accepts[t].buyer, w.accepts[t].shortfall);
    EmitMovesSides(w, Lent(w, t), msg);
    MintAgrees(SidesOf(w), msg);
  }

  lemma EmitAgrees(w: World, t: nat)
    requires Agrees(w) && Enabled(w, EmitHold(t))
    ensures Agrees(HoldEmitted(w, t))
  {
    EmitMoves(w, t);
    if w.accepts[t].hold > 0 { HoldAgrees(SidesOf(w), w.accepts[t].buyer, w.accepts[t].hold); }
  }

  lemma EmitMoves(w: World, t: nat)
    requires Enabled(w, EmitHold(t)) && w.accepts[t].buyer != ""
    ensures var k, hold, s := w.accepts[t].buyer, w.accepts[t].hold, SidesOf(w);
            SidesOf(HoldEmitted(w, t)) ==
            if hold <= 0 then s
            else s.(replayed := Apply(s.replayed, Hold(k, hold), s.operator, true), owing := Plus(s.owing, k, hold),
                held := s.held + hold)
  {
    var msg := Hold(w.accepts[t].buyer, w.accepts[t].hold);
    ReplayOneMore(w.books.log, msg, w.books.operator);
    HeldOneMore(w.books.log, msg);
  }

  lemma DebitAgrees(w: World, t: nat)
    requires Agrees(w) && Enabled(w, Debit(t))
    ensures Agrees(Debited(w, t))
  {
    OwingMoveAgrees(SidesOf(w), w.accepts[t].buyer, -w.accepts[t].hold);
  }

  lemma MintToAgrees(w: World, recipient: Key, amount: int)
    requires Agrees(w) && Enabled(w, MintTo(recipient, amount))
    ensures Agrees(Do(w, MintTo(recipient, amount)))
  {
    EmitMovesSides(w, Do(w, MintTo(recipient, amount)), Mint(recipient, amount));
    MintAgrees(SidesOf(w), Mint(recipient, amount));
  }

  lemma PayBeginAgrees(w: World, worker: Key, amount: int)
    requires Agrees(w) && Enabled(w, PayBegin(worker, amount))
    ensures Agrees(PayBegun(w, worker, amount))
  {
    OwingMoveAgrees(SidesOf(w), worker, amount);
  }

  lemma PayLogMoves(w: World)
    requires Enabled(w, PayLog)
    ensures var p, s := w.pay.value, SidesOf(w);
            SidesOf(PayLogged(w)) == PayLogSides(s, p.worker, p.amount)
  {
    var p := w.pay.value;
    ReplayOneMore(w.books.log, AssignPay(p.worker, p.amount), w.books.operator);
    HeldOneMore(w.books.log, AssignPay(p.worker, p.amount));
  }

  lemma RestartAgrees(w: World)
    requires Agrees(w)
    ensures Agrees(Rebooted(w))
  {
    var s := SidesOf(Rebooted(w));
    assert s.live == s.replayed == SidesOf(w).replayed;
    assert forall k :: AgreesAt(s, k);
  }

  /** The one step that can part the ledgers: a repayment for more than the worker has left. */
  predicate Covered(w: World, step: Step) {
    step.PayNext? && Repays(w, step.fails) ==> NextRepayment(w) <= Balance(w.books.live, w.pay.value.worker)
  }

  /** The next step of the pass emits a repayment. */
  predicate Repays(w: World, fails: bool) {
    && Enabled(w, PayNext(fails)) && !fails && w.pay.value.remaining > 0 && w.pay.value.next < w.pay.value.bound
    && NextRepayment(w) > 0
  }

  lemma RepayBooks(w: World)
    requires Repays(w, false)
    ensures var w' := PaidNext(w, false);
            w'.books == EmitAndFold(w.books, LoanRepay(w.pay.value.next, NextRepayment(w))) && w'.owing == w.owing
  {
  }

  lemma EmitMovesSides(w: World, w': World, msg: ScripMsg)
    requires w'.books == EmitAndFold(w.books, msg) && w'.owing == w.owing && !msg.Hold?
    ensures var s := SidesOf(w);
            SidesOf(w') == s.(live := Apply(s.live, msg, s.operator, false),
                replayed := Apply(s.replayed, msg, s.operator, true))
  {
    ReplayOneMore(w.books.log, msg, w.books.operator);
    HeldOneMore(w.books.log, msg);
  }

  lemma RepayStepAgrees(w: World)
    requires Agrees(w) && Repays(w, false)
    ensures Agrees(PaidNext(w, false)) <==> Covered(w, PayNext(false))
  {
    RepayBooks(w);
    EmitMovesSides(w, PaidNext(w, false), LoanRepay(w.pay.value.next, NextRepayment(w)));
    RepayAgrees(SidesOf(w), w.pay.value.next, NextRepayment(w));
  }

  /** Of all steps of all goroutines, exactly an uncovered repayment parts the live ledger from its log. */
  lemma StepAgreesExactlyWhenCovered(w: World, step: Step)
    requires Agrees(w)
    ensures Agrees(Do(w, step)) <==> Covered(w, step)
  {
    if Enabled(w, step) {
      match step {
        case Lend(t) => LendAgrees(w, t);
        case EmitHold(t) => EmitAgrees(w, t);
        case Debit(t) => DebitAgrees(w, t);
        case MintTo(recipient, amount) => MintToAgrees(w, recipient, amount);
        case Restart => RestartAgrees(w);
        case PayNext(fails) => PassStepAgrees(w, fails);
        case Start(_, _, _, _) => ReadsAgree(w, step);
        case Decide(_) => ReadsAgree(w, step);
        case ReadHold(_) => ReadsAgree(w, step);
        case Fail(_) => ReadsAgree(w, step);
        case PayRead => ReadsAgree(w, step);
        case PayBegin(worker, amount) => PayBeginAgrees(w, worker, amount);
        case PayLog =>
          PayLogMoves(w);
          PayLogAgrees(SidesOf(w), w.pay.value.worker, w.pay.value.amount);
      }
    }
  }

  lemma PassStepAgrees(w: World, fails: bool)
    requires Agrees(w) && Enabled(w, PayNext(fails))
    ensures Agrees(PaidNext(w, fails)) <==> Covered(w, PayNext(fails))
  {
    if Repays(w, fails) {
      RepayStepAgrees(w);
    } else {
      assert SidesOf(PaidNext(w, fails)) == SidesOf(w);
    }
  }

  /** Steps that only read the books. */
  predicate Reads(step: Step) {
    step.Start? || step.Decide? || step.ReadHold? || step.Fail? || step.PayRead?
  }

  lemma ReadsAgree(w: World, step: Step)
    requires Agrees(w) && Enabled(w, step) && Reads(step)
    ensures Agrees(Do(w, step))
  {
    assert SidesOf(Do(w, step)) == SidesOf(w);
  }

  // ----- One operation at a time on any one key -----

  /** What an operation on a key reads and writes. */
  datatype Account = Account(balance: int, debt: int, owing: int, version: nat)

  function AccountOf(w: World, k: Key): Account {
    Account(Balance(w.books.live, k), Outstanding(w.books.live.loans, k), At(w.owing, k), Version(w, k))
  }

  /** What a step does to the account of the key it works on. */
  function Effect(w: World, step: Step, v: Account): Account
    requires Enabled(w, step)
  {
    match step
    case Lend(t) =>
      var s := w.accepts[t].shortfall;
      if s <= 0 then v.(version := v.version + 1) else Account(v.balance + s, v.debt + s, v.owing, v.version + 1)
    case EmitHold(t) => v.(owing := v.owing + if w.accepts[t].hold > 0 then w.accepts[t].hold else 0)
    case Debit(t) =>
      var a := w.accepts[t];
      if Debits(w, t) then v.(balance := v.balance - a.hold, owing := v.owing - a.hold, version := v.version + 1) else v
    case MintTo(_, amount) => v.(balance := v.balance + amount, version := v.version + 1)
    case PayBegin(_, amount) => v.(balance := v.balance + amount, owing := v.owing + amount, version := v.version + 1)
    case PayLog => v.(owing := v.owing - w.pay.value.amount)
    case PayNext(fails) =>
      if Repays(w, fails) then
        Account(v.balance - NextRepayment(w), v.debt - NextRepayment(w), v.owing, v.version + 1)
      else v
    case _ => v
  }

  predicate Debits(w: World, t: nat)
    requires t in w.accepts && w.accepts[t].Debiting?
  {
    var a := w.accepts[t];
    a.version == Version(w, a.buyer) && a.buyer in w.books.live.balances && Balance(w.books.live, a.buyer) >= a.hold
  }

  /** The key a step works on. */
  function KeyOf(w: World, step: Step): Key
    requires Enabled(w, step) && !step.Restart?
  {
    match step
    case Start(_, _, buyer, _) => buyer
    case MintTo(recipient, _) => recipient
    case PayBegin(worker, _) => worker
    case PayLog => w.pay.value.worker
    case PayRead => w.pay.value.worker
    case PayNext(_) => w.pay.value.worker
    case Decide(t) => w.accepts[t].buyer
    case Lend(t) => w.accepts[t].buyer
    case ReadHold(t) => w.accepts[t].buyer
    case EmitHold(t) => w.accepts[t].buyer
    case Debit(t) => w.accepts[t].buyer
    case Fail(t) => w.accepts[t].buyer
  }

  lemma OutstandingOneMore(loans: seq<Loan>, loan: Loan, k: Key)
    ensures Outstanding(loans + [loan], k) == Outstanding(loans, k) + OwedBy(loan, k)
  {
    assert (loans + [loan])[..|loans|] == loans;
  }

  lemma LoanMoves(l: Ledger, operator: Key, buyer: Key, principal: int, k: Key)
    requires buyer != ""
    ensures var l' := Apply(l, LoanMint(buyer, principal), operator, false);
            var lent := if k == buyer && principal > 0 then principal else 0;
            Balance(l', k) == Balance(l, k) + lent && Outstanding(l'.loans, k) == Outstanding(l.loans, k) + lent
  {
    OutstandingOneMore(l.loans, Loan(buyer, principal, 0, LoanActive), k);
  }

  lemma LentBooks(w: World, t: nat, k: Key)
    requires t in w.accepts && w.accepts[t].Lending?
    ensures var a, w' := w.accepts[t], Lent(w, t);
            && w'.books.live == Apply(w.books.live, LoanMint(a.buyer, a.shortfall), w.books.operator, false)
            && w'.owing == w.owing && Version(w', k) == Version(w, k) + if k == a.buyer then 1 else 0
  {
  }

  lemma LendMoves(w: World, t: nat, k: Key)
    requires t in w.accepts && w.accepts[t].Lending? && w.accepts[t].buyer != ""
    ensures var a, v := w.accepts[t], AccountOf(w, k);
            var lent := if k == a.buyer && a.shortfall > 0 then a.shortfall else 0;
            AccountOf(Lent(w, t), k) == Account(v.balance + lent, v.debt + lent, v.owing, v.version + if k == a.buyer
                then 1 else 0)
  {
    LentBooks(w, t, k);
    LoanMoves(w.books.live, w.books.operator, w.accepts[t].buyer, w.accepts[t].shortfall, k);
  }

  lemma PassMoves(w: World, fails: bool, k: Key)
    requires Enabled(w, PayNext(fails)) && Covered(w, PayNext(fails)) && LoansInv(w.books.live.loans)
    ensures AccountOf(PaidNext(w, fails), k)
            == if k == w.pay.value.worker then Effect(w, PayNext(fails), AccountOf(w, k)) else AccountOf(w, k)
  {
    if Repays(w, fails) {
      var p, amount := w.pay.value, NextRepayment(w);
      RepayOne(w.books.live, w.books.operator, p.worker, p.next, amount);
      assert MovedAt(w.books.live, Apply(w.books.live, LoanRepay(p.next, amount), w.books.operator, false), p.worker,
          amount, k);
    }
  }

  lemma WriteMoves(w: World, step: Step, k: Key)
    requires Agrees(w) && Enabled(w, step)
    requires step.EmitHold? || step.Debit? || step.MintTo? || step.PayBegin? || step.PayLog?
    ensures AccountOf(Do(w, step), k) == if k == KeyOf(w, step) then Effect(w, step, AccountOf(w, k))
            else AccountOf(w, k)
  {
  }

  lemma ReadMoves(w: World, step: Step, k: Key)
    requires Enabled(w, step) && Reads(step)
    ensures AccountOf(Do(w, step), k) == AccountOf(w, k)
    ensures Effect(w, step, AccountOf(w, k)) == AccountOf(w, k)
  {
  }

  ghost predicate Moves(w: World, step: Step, k: Key)
    requires Enabled(w, step) && !step.Restart?
  {
    AccountOf(Do(w, step), k) == if k == KeyOf(w, step) then Effect(w, step, AccountOf(w, k)) else AccountOf(w, k)
  }

  lemma LendStepMoves(w: World, step: Step, k: Key)
    requires Agrees(w) && Enabled(w, step) && step.Lend?
    ensures Moves(w, step, k)
  {
    LendMoves(w, step.t, k);
    assert Do(w, step) == Lent(w, step.t);
    assert KeyOf(w, step) == w.accepts[step.t].buyer;
  }

  lemma PassStepMoves(w: World, step: Step, k: Key)
    requires Agrees(w) && Enabled(w, step) && step.PayNext? && Covered(w, step)
    ensures Moves(w, step, k)
  {
    PassMoves(w, step.fails, k);
  }

  lemma WriteStepMoves(w: World, step: Step, k: Key)
    requires Agrees(w) && Enabled(w, step) && !step.Restart? && !step.Lend? && !step.PayNext?
    ensures Moves(w, step, k)
  {
    if Reads(step) {
      ReadMoves(w, step, k);
    } else {
      WriteMoves(w, step, k);
    }
  }

  /** A step moves the account of its own key, as described, and no other. */
  lemma StepMoves(w: World, step: Step, k: Key)
    requires Agrees(w) && Enabled(w, step) && !step.Restart? && Covered(w, step)
    ensures Moves(w, step, k)
  {
    if step.Lend? {
      LendStepMoves(w, step, k);
    } else if step.PayNext? {
      PassStepMoves(w, step, k);
    } else {
      WriteStepMoves(w, step, k);
    }
  }

  /** Holds for which the sum tested against the cap cannot wrap. */
  const MAX_HOLD := MAX_INT64 - CREDIT_MAX_OUTSTANDING_PER_BUYER

  predicate AcceptHolds(a: Accept, v: Account) {
    && 0 < a.hold <= MAX_HOLD
    && match a
       case Deciding(_, hold, balance) => v.owing == 0 && balance == v.balance < hold
       case Lending(_, hold, shortfall) =>
         v.owing == 0 && shortfall == hold - v.balance > 0 && v.debt + shortfall <= CREDIT_MAX_OUTSTANDING_PER_BUYER
       case Holding(_, _) => v.owing == 0
       case Reserving(_, hold, version) => v.owing == 0 && version == v.version && v.balance >= hold
       case Debiting(_, hold, version) => v.owing == hold && version == v.version && v.balance >= hold
  }

  predicate PayHolds(p: Pay, v: Account, operator: Key) {
    match p
    case Logging(worker, amount) => v.owing == amount && (worker != operator ==> v.balance >= amount)
    case Withholding(worker, amount) => v.owing == 0 && (worker != operator ==> v.balance >= amount)
    case Repaying(worker, remaining, _, _) => v.owing == 0 && worker != operator && remaining <= v.balance
  }

  predicate Buys(w: World, k: Key) {
    exists t :: t in w.accepts && w.accepts[t].buyer == k
  }

  predicate Earns(w: World, k: Key) {
    w.pay.Some? && w.pay.value.worker == k
  }

  predicate AccountHolds(v: Account, operator: Key, k: Key) {
    && 0 <= v.debt <= CREDIT_MAX_OUTSTANDING_PER_BUYER
    && if k == operator then v.debt == 0 else v.balance >= 0
  }

  /** At most one operation works on the key. */
  ghost predicate Single(w: World, k: Key) {
    && (forall t, u :: t in w.accepts && u in w.accepts && w.accepts[t].buyer == k && w.accepts[u].buyer == k ==>
          t == u)
    && !(Buys(w, k) && Earns(w, k))
  }

  /** The state of a key, whoever works on it. */
  ghost predicate KeyHolds(w: World, k: Key) {
    && AccountHolds(AccountOf(w, k), w.books.operator, k) && Single(w, k)
    && (!Buys(w, k) && !Earns(w, k) ==> At(w.owing, k) == 0)
    && (forall t :: t in w.accepts && w.accepts[t].buyer == k ==> AcceptHolds(w.accepts[t], AccountOf(w, k)))
    && (Earns(w, k) ==> PayHolds(w.pay.value, AccountOf(w, k), w.books.operator))
  }

  ghost predicate Orderly(w: World) {
    Agrees(w) && forall k :: KeyHolds(w, k)
  }

  /**
   An operation begins on a key only when no other is under way on it; and its hold is positive and within the bound.
   */
  predicate Alone(w: World, step: Step) {
    match step
    case Start(_, _, buyer, hold) => !Buys(w, buyer) && !Earns(w, buyer) && 0 < hold <= MAX_HOLD
    case MintTo(recipient, _) => !Buys(w, recipient) && !Earns(w, recipient)
    case PayBegin(worker, _) => !Buys(w, worker) && !Earns(w, worker)
    case _ => true
  }

  lemma OrderlyIsCovered(w: World, step: Step)
    requires Orderly(w)
    ensures Covered(w, step)
  {
    if step.PayNext? && Repays(w, step.fails) { assert KeyHolds(w, w.pay.value.worker); }
  }

  /** A step of a buyer-accept moves or ends that one alone; any other step leaves them all. */
  lemma AcceptsMove(w: World, step: Step)
    requires Enabled(w, step) && !step.Restart?
    ensures var w' := Do(w, step);
            && w'.books.operator == w.books.operator
            && (forall t :: t in w'.accepts && w'.accepts[t].buyer != KeyOf(w, step) ==>
                  t in w.accepts && w.accepts[t] == w'.accepts[t])
            && (forall t :: t in w.accepts && w.accepts[t].buyer != KeyOf(w, step) ==>
                  t in w'.accepts && w.accepts[t] == w'.accepts[t])
  {
  }

  lemma PayMoves(w: World, step: Step)
    requires Enabled(w, step) && !step.Restart?
    ensures Do(w, step).pay == w.pay || ((w.pay.None? || w.pay.value.worker == KeyOf(w, step))
                                        && (Do(w, step).pay.None? || Do(w, step).pay.value.worker == KeyOf(w, step)))
  {
  }

  /** Whoever works on another key stays as it was. */
  lemma OthersStay(w: World, step: Step, k: Key)
    requires Enabled(w, step) && !step.Restart? && k != KeyOf(w, step)
    ensures var w' := Do(w, step);
            && (Buys(w', k) <==> Buys(w, k)) && (Earns(w', k) <==> Earns(w, k)) && (Earns(w, k) ==> w'.pay == w.pay)
            && forall t :: t in w'.accepts && w'.accepts[t].buyer == k ==>
               t in w.accepts && w.accepts[t] == w'.accepts[t]
  {
    AcceptsMove(w, step);
    PayMoves(w, step);
  }

  /** Steps on one key leave what holds of another. */
  lemma OtherKeyHolds(w: World, step: Step, k: Key)
    requires Orderly(w) && Enabled(w, step) && !step.Restart? && k != KeyOf(w, step)
    ensures KeyHolds(Do(w, step), k)
  {
    OrderlyIsCovered(w, step);
    StepMoves(w, step, k);
    OthersStay(w, step, k);
    AcceptsMove(w, step);
    assert KeyHolds(w, k);
  }

  /** The account after a step of the buyer-accept t, and t's own state if it goes on. */
  ghost predicate AcceptLeaves(w: World, w': World, t: nat, k: Key) {
    var v := AccountOf(w', k);
    AccountHolds(v, w.books.operator, k) && if t in w'.accepts then AcceptHolds(w'.accepts[t], v) else v.owing == 0
  }

  lemma StartLeaves(w: World, step: Step)
    requires Orderly(w) && step.Start? && Enabled(w, step) && Alone(w, step)
    ensures AcceptLeaves(w, Do(w, step), step.t, step.buyer)
  {
    ReadMoves(w, step, step.buyer);
    assert KeyHolds(w, step.buyer);
  }

  lemma AcceptStepLeaves(w: World, step: Step, t: nat)
    requires Orderly(w) && Enabled(w, step) && t in w.accepts
    requires step in {Decide(t), Lend(t), ReadHold(t), EmitHold(t), Debit(t), Fail(t)}
    ensures AcceptLeaves(w, Do(w, step), t, w.accepts[t].buyer)
  {
    var k := w.accepts[t].buyer;
    assert KeyHolds(w, k);
    StepMoves(w, step, k);
    if step.Decide? { ShortfallExactly(Outstanding(w.books.live.loans, k), w.accepts[t].balance, w.accepts[t].hold); }
  }

  /** The account after a step of the pay, and the pay's own state if it goes on. */
  ghost predicate PayLeaves(w: World, w': World, k: Key) {
    var v := AccountOf(w', k);
    AccountHolds(v, w.books.operator, k)
        && if w'.pay.Some? then PayHolds(w'.pay.value, v, w.books.operator) else v.owing == 0
  }

  lemma PayStepLeaves(w: World, step: Step)
    requires Orderly(w) && Enabled(w, step) && Alone(w, step) && (step.PayBegin? || step.PayLog? || step.PayRead?)
    ensures PayLeaves(w, Do(w, step), KeyOf(w, step))
  {
    assert KeyHolds(w, KeyOf(w, step));
    OrderlyIsCovered(w, step);
    StepMoves(w, step, KeyOf(w, step));
  }

  lemma PassKeepsDebt(w: World, fails: bool, k: Key)
    requires Orderly(w) && Enabled(w, PayNext(fails))
    ensures AccountOf(PaidNext(w, fails), k).debt >= 0
  {
    OrderlyIsCovered(w, PayNext(fails));
    StepAgreesExactlyWhenCovered(w, PayNext(fails));
    OutstandingNotNegative(PaidNext(w, fails).books.live.loans, k);
  }

  lemma PassStepLeaves(w: World, fails: bool)
    requires Orderly(w) && Enabled(w, PayNext(fails))
    ensures PayLeaves(w, PaidNext(w, fails), w.pay.value.worker)
  {
    var k := w.pay.value.worker;
    assert KeyHolds(w, k);
    OrderlyIsCovered(w, PayNext(fails));
    PassMoves(w, fails, k);
    PassKeepsDebt(w, fails, k);
  }

  /** A buyer-accept that was alone on its key still is ... */
  lemma AcceptKeyHolds(w: World, w': World, t: nat, k: Key)
    requires AcceptLeaves(w, w', t, k) && w'.books.operator == w.books.operator && !Earns(w', k)
    requires forall u :: u in w'.accepts && w'.accepts[u].buyer == k ==> u == t
    requires t in w'.accepts ==> w'.accepts[t].buyer == k
    ensures KeyHolds(w', k)
  {
  }

  /** ... and so is a pay. */
  lemma PayKeyHolds(w: World, w': World, k: Key)
    requires PayLeaves(w, w', k) && w'.books.operator == w.books.operator && !Buys(w', k)
             && (w'.pay.Some? ==> w'.pay.value.worker == k)
    ensures KeyHolds(w', k)
  {
  }

  predicate IsPay(step: Step) {
    step.PayBegin? || step.PayLog? || step.PayRead? || step.PayNext?
  }

  lemma PayFrame(w: World, step: Step)
    requires Enabled(w, step) && (IsPay(step) || step.MintTo?)
    ensures var w' := Do(w, step);
            && w'.accepts == w.accepts && w'.books.operator == w.books.operator
            && (w'.pay.Some? ==> w'.pay.value.worker == KeyOf(w, step))
  {
  }

  lemma AcceptFrame(w: World, step: Step)
    requires Enabled(w, step) && !IsPay(step) && !step.MintTo? && !step.Restart?
    ensures var w' := Do(w, step);
            && w'.pay == w.pay && w'.books.operator == w.books.operator
            && (forall u :: u != step.t && u in w'.accepts ==> u in w.accepts && w'.accepts[u] == w.accepts[u])
            && (step.t in w'.accepts ==> w'.accepts[step.t].buyer == KeyOf(w, step))
  {
  }

  lemma OperatorStepLeaves(w: World, step: Step)
    requires Orderly(w) && Enabled(w, step) && Alone(w, step) && (IsPay(step) || step.MintTo?)
    ensures PayLeaves(w, Do(w, step), KeyOf(w, step)) && !Buys(w, KeyOf(w, step))
  {
    assert KeyHolds(w, KeyOf(w, step));
    if step.MintTo? {
      StepMoves(w, step, step.recipient);
    } else if step.PayNext? {
      PassStepLeaves(w, step.fails);
    } else {
      PayStepLeaves(w, step);
    }
  }

  lemma OwnKeyHolds(w: World, step: Step)
    requires Orderly(w) && Enabled(w, step) && Alone(w, step) && !step.Restart?
    ensures KeyHolds(Do(w, step), KeyOf(w, step))
  {
    var w', k := Do(w, step), KeyOf(w, step);
    assert KeyHolds(w, k);
    if step.MintTo? || IsPay(step) {
      PayFrame(w, step);
      OperatorStepLeaves(w, step);
      PayKeyHolds(w, w', k);
    } else {
      AcceptFrame(w, step);
      if step.Start? {
        StartLeaves(w, step);
      } else {
        AcceptStepLeaves(w, step, step.t);
      }
      AcceptKeyHolds(w, w', step.t, k);
    }
  }

  /** What a restart gives a key that is orderly: no operation, nothing owed, nothing overdrawn unless by labour. */
  lemma RestartKeyHolds(w: World, k: Key)
    requires Orderly(w)
    ensures KeyHolds(Rebooted(w), k)
  {
    assert KeyHolds(w, k);
    assert AgreesAt(SidesOf(w), k);
    if Buys(w, k) {
      var t :| t in w.accepts && w.accepts[t].buyer == k;
      assert AcceptHolds(w.accepts[t], AccountOf(w, k));
    }
  }

  lemma StepKeepsOrderly(w: World, step: Step)
    requires Orderly(w) && Alone(w, step)
    ensures Orderly(Do(w, step))
  {
    OrderlyIsCovered(w, step);
    StepAgreesExactlyWhenCovered(w, step);
    if Enabled(w, step) {
      forall k ensures KeyHolds(Do(w, step), k) {
        if step.Restart? {
          RestartKeyHolds(w, k);
        } else if k == KeyOf(w, step) {
          OwnKeyHolds(w, step);
        } else {
          OtherKeyHolds(w, step, k);
        }
      }
    }
  }

  // ----- Whole runs -----

  /** A run in which every repayment is covered when it is folded. */
  predicate CoveredRun(w: World, steps: seq<Step>)
    decreases |steps|
  {
    steps == [] || (CoveredRun(w, steps[..|steps| - 1]) && Covered(Exec(w, steps[..|steps| - 1]), steps[|steps| - 1]))
  }

  /** A run in which no operation begins on a key while another is under way on it. */
  predicate AloneRun(w: World, steps: seq<Step>)
    decreases |steps|
  {
    steps == [] || (AloneRun(w, steps[..|steps| - 1]) && Alone(Exec(w, steps[..|steps| - 1]), steps[|steps| - 1]))
  }

  /** What a replay of the log conserves, and what the live ledger has beyond it. */
  ghost predicate Conserving(w: World, k: Key) {
    var s := SidesOf(w);
    && Total(s.replayed.balances) + s.held == s.replayed.supply == s.live.supply
    && Total(s.live.balances) + s.held == s.live.supply + s.labour + Total(s.owing)
    && Balance(s.replayed, k) == Balance(s.live, k) - At(s.owing, k) - (if k == s.operator then s.labour else 0)
    && Outstanding(s.replayed.loans, k) == Outstanding(s.live.loans, k) >= 0
  }

  lemma NewAgrees(operator: Key)
    requires operator != ""
    ensures Agrees(New(operator))
  {
    assert forall k :: AgreesAt(SidesOf(New(operator)), k);
  }

  lemma {:induction false} CoveredRunAgrees(operator: Key, steps: seq<Step>)
    requires operator != "" && CoveredRun(New(operator), steps)
    ensures Agrees(Exec(New(operator), steps))
    decreases |steps|
  {
    if steps == [] {
      NewAgrees(operator);
    } else {
      CoveredRunAgrees(operator, steps[..|steps| - 1]);
      StepAgreesExactlyWhenCovered(Exec(New(operator), steps[..|steps| - 1]), steps[|steps| - 1]);
    }
  }

  /**
   Over every run in which repayments are covered, however goroutines
   interleave: supply is what a replay gives out and holds back, and the live
   balances exceed it by exactly the labour logged since the last restart and
   what is owed to the log.
   */
  lemma RunConserves(operator: Key, steps: seq<Step>, k: Key)
    requires operator != "" && CoveredRun(New(operator), steps)
    ensures Conserving(Exec(New(operator), steps), k)
  {
    var w := Exec(New(operator), steps);
    CoveredRunAgrees(operator, steps);
    assert AgreesAt(SidesOf(w), k);
    OutstandingNotNegative(w.books.live.loans, k);
  }

  lemma {:induction false} AloneRunIsOrderly(operator: Key, steps: seq<Step>)
    requires operator != "" && AloneRun(New(operator), steps)
    ensures Orderly(Exec(New(operator), steps)) && CoveredRun(New(operator), steps)
    decreases |steps|
  {
    if steps == [] {
      NewAgrees(operator);
    } else {
      var w, step := Exec(New(operator), steps[..|steps| - 1]), steps[|steps| - 1];
      AloneRunIsOrderly(operator, steps[..|steps| - 1]);
      OrderlyIsCovered(w, step);
      StepKeepsOrderly(w, step);
    }
  }

  lemma {:induction false} RunKeepsOperator(operator: Key, steps: seq<Step>)
    ensures Exec(New(operator), steps).books.operator == operator
    decreases |steps|
  {
    if steps != [] {
      RunKeepsOperator(operator, steps[..|steps| - 1]);
      LogMoves(Exec(New(operator), steps[..|steps| - 1]), steps[|steps| - 1]);
    }
  }

  /**
   Where operations on different keys interleave freely and those on one key do
   not overlap: everything above holds; no debt passes the cap; the operator
   owes nothing; nobody else is overdrawn, neither live nor by a restart at any
   point; and a key nobody works on is owed nothing by the log.
   */
  lemma OneAtATimeConserves(operator: Key, steps: seq<Step>, k: Key)
    requires operator != "" && AloneRun(New(operator), steps)
    ensures var w := Exec(New(operator), steps);
            && Conserving(w, k)
            && Outstanding(w.books.live.loans, k) <= CREDIT_MAX_OUTSTANDING_PER_BUYER
               && Outstanding(w.books.live.loans, operator) == 0
            && (k != operator ==> Balance(w.books.live, k) >= 0 && Balance(Rebooted(w).books.live, k) >= 0)
            && (!Buys(w, k) && !Earns(w, k) ==> At(w.owing, k) == 0)
  {
    var w := Exec(New(operator), steps);
    AloneRunIsOrderly(operator, steps);
    RunKeepsOperator(operator, steps);
    RunConserves(operator, steps, k);
    RestartKeyHolds(w, k);
    assert KeyHolds(w, k) && KeyHolds(w, operator);
  }

  // ----- Where operations on one key overlap -----

  /** A mint keeps the cap exactly when the shortfall decided on still fits the debt there is by then. */
  lemma LendKeepsCapExactly(w: World, t: nat)
    requires Agrees(w) && Enabled(w, Lend(t)) && w.accepts[t].shortfall > 0
    ensures var a := w.accepts[t];
            Outstanding(Lent(w, t).books.live.loans, a.buyer) <= CREDIT_MAX_OUTSTANDING_PER_BUYER
            <==> Outstanding(w.books.live.loans, a.buyer) + a.shortfall <= CREDIT_MAX_OUTSTANDING_PER_BUYER
  {
    LendMoves(w, t, w.accepts[t].buyer);
  }

  /** What a step makes the log take from a key. */
  function Draws(w: World, step: Step, k: Key): int {
    if step.EmitHold? && Enabled(w, step) && w.accepts[step.t].buyer == k
        && w.accepts[step.t].hold > 0 then w.accepts[step.t].hold
    else if step.PayNext? && Repays(w, step.fails) && w.pay.value.worker == k then NextRepayment(w)
    else 0
  }

  /** The message a step emits, if it emits one. */
  function Emits(w: World, step: Step): Option<ScripMsg> {
    if !Enabled(w, step) then None
    else
      match step
      case Lend(t) => Some(LoanMint(w.accepts[t].buyer, w.accepts[t].shortfall))
      case EmitHold(t) => Some(Hold(w.accepts[t].buyer, w.accepts[t].hold))
      case MintTo(recipient, amount) => Some(Mint(recipient, amount))
      case PayLog => Some(AssignPay(w.pay.value.worker, w.pay.value.amount))
      case PayNext(fails) => if Repays(w, fails) then Some(LoanRepay(w.pay.value.next, NextRepayment(w))) else None
      case _ => None
  }

  lemma LogMoves(w: World, step: Step)
    ensures Do(w, step).books.operator == w.books.operator
    ensures Do(w, step).books.log == if Emits(w, step).Some? then w.books.log + [Emits(w, step).value] else w.books.log
  {
  }

  /** On a replay a message takes from a member only what it draws. */
  lemma FoldDraws(w: World, step: Step, l: Ledger, k: Key)
    requires Enabled(w, step) && Emits(w, step).Some? && l.loans == w.books.live.loans && k != w.books.operator
    requires forall t :: t in w.accepts ==> w.accepts[t].buyer != ""
    ensures var after := Balance(Apply(l, Emits(w, step).value, w.books.operator, true), k);
            if Draws(w, step, k) > 0 then after == Balance(l, k) - Draws(w, step, k) else after >= Balance(l, k)
  {
  }

  lemma ReplayedMoves(w: World, step: Step, k: Key)
    requires Agrees(w) && k != w.books.operator
    ensures var before, after := Balance(Rebooted(w).books.live, k), Balance(Rebooted(Do(w, step)).books.live, k);
            && (if Draws(w, step, k) > 0 then after == before - Draws(w, step, k) else after >= before)
            && (Emits(w, step).None? && !step.Restart? ==> after == before)
  {
    LogMoves(w, step);
    if Emits(w, step).Some? {
      ReplayOneMore(w.books.log, Emits(w, step).value, w.books.operator);
      FoldDraws(w, step, SidesOf(w).replayed, k);
    }
  }

  /**
   A step leaves a member that a restart would not overdraw that way exactly when the log draws no more than a restart
   would leave it.
   */
  lemma StepKeepsSolventExactly(w: World, step: Step, k: Key)
    requires Agrees(w) && k != w.books.operator && Balance(Rebooted(w).books.live, k) >= 0
    ensures Balance(Rebooted(Do(w, step)).books.live, k) >= 0
            <==> Draws(w, step, k) <= Balance(Rebooted(w).books.live, k)
  {
    ReplayedMoves(w, step, k);
  }

  function Both(w: World, first: Step, second: Step): World {
    Do(Do(w, first), second)
  }

  /** Two buyer-accepts of one buyer, both decided before either mints. */
  function LentTwice(operator: Key, buyer: Key): World {
    var decided := Both(Both(New(operator), Start(1, true, buyer, 200_000), Start(2, true, buyer, 200_000)), Decide(1),
        Decide(2));
    Both(decided, Lend(1), Lend(2))
  }

  lemma BothDecide(w: World, buyer: Key)
    requires buyer != "" && buyer != w.books.operator && w.accepts == map[]
    requires Balance(w.books.live, buyer) == 0 && Outstanding(w.books.live.loans, buyer) == 0
    ensures var w' := Both(Both(w, Start(1, true, buyer, 200_000), Start(2, true, buyer, 200_000)), Decide(1),
            Decide(2));
            w' == w.(accepts := map[1 := Lending(buyer, 200_000, 200_000), 2 := Lending(buyer, 200_000, 200_000)])
  {
    ShortfallExactly(0, 0, 200_000);
  }

  lemma BothLend(w: World, buyer: Key)
    requires buyer != "" && w.accepts
             == map[1 := Lending(buyer, 200_000, 200_000), 2 := Lending(buyer, 200_000, 200_000)]
    ensures Outstanding(Both(w, Lend(1), Lend(2)).books.live.loans, buyer)
            == Outstanding(w.books.live.loans, buyer) + 400_000
  {
    LendMoves(w, 1, buyer);
    LendMoves(Lent(w, 1), 2, buyer);
  }

  /** Neither sees the other's loan, so both are within the cap, and the debt ends at 400000. */
  lemma OverlappingCreditsPassTheCap(operator: Key, buyer: Key)
    requires buyer != "" && buyer != operator
    ensures Outstanding(LentTwice(operator, buyer).books.live.loans, buyer) == 400_000
  {
    BothDecide(New(operator), buyer);
    BothLend(New(operator).(accepts :=
        map[1 := Lending(buyer, 200_000, 200_000), 2 := Lending(buyer, 200_000, 200_000)]), buyer);
  }

  /** A buyer with 100, and two buyer-accepts of 80 that both read it before either debits it. */
  function HeldTwice(operator: Key, buyer: Key): World {
    var started := Both(Do(New(operator), MintTo(buyer, 100)), Start(1, false, buyer, 80), Start(2, false, buyer, 80));
    Both(Both(Both(started, ReadHold(1), ReadHold(2)), EmitHold(1), EmitHold(2)), Debit(1), Debit(2))
  }

  ghost predicate BothAccept(w: World, a: Accept, b: Accept) {
    Agrees(w) && w.accepts == map[1 := a, 2 := b] && w.pay.None?
  }

  lemma SameBooksAgree(w: World, w': World)
    requires Agrees(w) && w'.books == w.books && w'.owing == w.owing && ActorsHold(w')
    ensures Agrees(w')
  {
    assert SidesOf(w') == SidesOf(w);
  }

  lemma BothRead(w: World, buyer: Key)
    requires Agrees(w) && buyer != "" && buyer != w.books.operator && w.accepts == map[] && w.pay.None?
             && Balance(w.books.live, buyer) == 100
    ensures var w' := Both(Both(w, Start(1, false, buyer, 80), Start(2, false, buyer, 80)), ReadHold(1), ReadHold(2));
            var a := Reserving(buyer, 80, Version(w, buyer));
            w'.books == w.books && w'.versions == w.versions && BothAccept(w', a, a)
  {
    var two := Both(w, Start(1, false, buyer, 80), Start(2, false, buyer, 80));
    assert two == w.(accepts := map[1 := Holding(buyer, 80), 2 := Holding(buyer, 80)]);
    var a := Reserving(buyer, 80, Version(w, buyer));
    var w' := Both(two, ReadHold(1), ReadHold(2));
    assert w' == w.(accepts := map[1 := a, 2 := a]);
    SameBooksAgree(w, w');
  }

  /** One of them emits its hold, and the other has still read the latest balance. */
  lemma OneEmits(w: World, t: nat, buyer: Key, a: Accept)
    requires Agrees(w) && t in w.accepts && w.accepts[t] == a == Reserving(buyer, 80, Version(w, buyer))
    ensures var w' := Do(w, EmitHold(t));
            && Agrees(w') && w'.accepts == w.accepts[t := Debiting(buyer, 80, a.version)] && w'.pay == w.pay
            && Version(w', buyer) == a.version && w'.books.live == w.books.live
            && Balance(Rebooted(w').books.live, buyer) == Balance(Rebooted(w).books.live, buyer) - 80
  {
    StepAgreesExactlyWhenCovered(w, EmitHold(t));
    ReplayedMoves(w, EmitHold(t), buyer);
  }

  lemma BothEmit(w: World, buyer: Key, a: Accept)
    requires BothAccept(w, a, a) && a == Reserving(buyer, 80, Version(w, buyer))
    requires Balance(w.books.live, buyer) == Balance(Rebooted(w).books.live, buyer) == 100
    ensures var w' := Both(w, EmitHold(1), EmitHold(2)); var d := Debiting(buyer, 80, a.version);
            && BothAccept(w', d, d) && a.version == Version(w', buyer)
            && Balance(w'.books.live, buyer) == 100 && Balance(Rebooted(w').books.live, buyer) == -60
  {
    var mid, d := Do(w, EmitHold(1)), Debiting(buyer, 80, a.version);
    OneEmits(w, 1, buyer, a);
    assert mid.accepts == map[1 := d, 2 := a];
    OneEmits(mid, 2, buyer, a);
    assert map[1 := d, 2 := a][2 := d] == map[1 := d, 2 := d];
  }

  /** The second debit finds the balance written by the first. */
  lemma OneDebits(w: World, buyer: Key, version: nat)
    requires BothAccept(w, Debiting(buyer, 80, version), Debiting(buyer, 80, version)) && version == Version(w, buyer)
    requires Balance(w.books.live, buyer) == 100
    ensures var w' := Both(w, Debit(1), Debit(2));
            && Balance(w'.books.live, buyer) == 20
            && Balance(Rebooted(w').books.live, buyer) == Balance(Rebooted(w).books.live, buyer)
  {
    assert buyer in w.books.live.balances;
  }

  lemma MintedReads100(operator: Key, buyer: Key)
    requires operator != "" && buyer != "" && buyer != operator
    ensures var w := Do(New(operator), MintTo(buyer, 100));
            Agrees(w) && w.accepts == map[] && w.pay.None?
                && Balance(w.books.live, buyer) == Balance(Rebooted(w).books.live, buyer) == 100
  {
    NewAgrees(operator);
    var w := Do(New(operator), MintTo(buyer, 100));
    StepAgreesExactlyWhenCovered(New(operator), MintTo(buyer, 100));
    assert AgreesAt(SidesOf(w), buyer);
  }

  /** Both holds are durable and only one is debited: the buyer holds 20 until a restart, and then owes 60. */
  lemma OverlappingHoldsOverdraw(operator: Key, buyer: Key)
    requires operator != "" && buyer != "" && buyer != operator
    ensures var w := HeldTwice(operator, buyer);
            Balance(w.books.live, buyer) == 20 && Balance(Rebooted(w).books.live, buyer) == -60
  {
    var minted := Do(New(operator), MintTo(buyer, 100));
    var version := Version(minted, buyer);
    MintedReads100(operator, buyer);
    BothRead(minted, buyer);
    var read := Both(Both(minted, Start(1, false, buyer, 80), Start(2, false, buyer, 80)), ReadHold(1), ReadHold(2));
    BothEmit(read, buyer, Reserving(buyer, 80, version));
    OneDebits(Both(read, EmitHold(1), EmitHold(2)), buyer, version);
  }

  // ----- Operations nobody interrupts -----

  /** The steps of one buyer-accept; those its decisions leave out do nothing. */
  function Accepted(w: World, t: nat, eligible: bool, buyer: Key, hold: int): World {
    Both(Both(Both(w, Start(t, eligible, buyer, hold), Decide(t)), Lend(t), ReadHold(t)), EmitHold(t), Debit(t))
  }

  lemma CreditsFirst(w: World, t: nat, eligible: bool, buyer: Key, hold: int)
    requires t !in w.accepts && buyer != "" && buyer != w.books.operator
    ensures var w' := Do(Both(w, Start(t, eligible, buyer, hold), Decide(t)), Lend(t));
            && w'.books == Credited(w.books, eligible, buyer, hold) && w'.pay == w.pay
            && w'.accepts == w.accepts[t := Holding(buyer, hold)]
  {
    var one := Do(w, Start(t, eligible, buyer, hold));
    if one.accepts[t].Deciding? {
      var two := Do(one, Decide(t));
      assert two.books == w.books;
      assert Do(two, Lend(t)).accepts == w.accepts[t := Holding(buyer, hold)];
    } else {
      assert one == w.(accepts := w.accepts[t := Holding(buyer, hold)]);
    }
  }

  lemma HoldsNext(w: World, t: nat)
    requires t in w.accepts && w.accepts[t].Holding?
    ensures var w' := Both(Do(w, ReadHold(t)), EmitHold(t), Debit(t));
            && w'.books == HoldTried(w.books, w.accepts[t].buyer, w.accepts[t].hold, false) && w'.pay == w.pay
            && w'.accepts == w.accepts - {t}
  {
    var a := w.accepts[t];
    if Balance(w.books.live, a.buyer) >= a.hold {
      var emitted := Both(w, ReadHold(t), EmitHold(t));
      assert emitted.accepts[t] == Debiting(a.buyer, a.hold, Version(emitted, a.buyer));
    }
  }

  /** Left alone, a buyer-accept is the credit its books call for and then the hold. */
  lemma AcceptIsARun(w: World, t: nat, eligible: bool, buyer: Key, hold: int)
    requires t !in w.accepts && buyer != "" && buyer != w.books.operator
    ensures var w' := Accepted(w, t, eligible, buyer, hold);
            && w'.books == HoldTried(Credited(w.books, eligible, buyer, hold), buyer, hold, false)
            && w'.accepts == w.accepts && w'.pay == w.pay
  {
    CreditsFirst(w, t, eligible, buyer, hold);
    var lent := Do(Both(w, Start(t, eligible, buyer, hold), Decide(t)), Lend(t));
    HoldsNext(lent, t);
    assert w.accepts[t := Holding(buyer, hold)] - {t} == w.accepts;
  }

  /** What is left of a repayment pass, each loan in turn, until it ends. */
  function Passed(w: World, failing: set<nat>, n: nat): World
    decreases n
  {
    if n == 0 || w.pay.None? || !w.pay.value.Repaying? then w
    else Passed(Do(w, PayNext(w.pay.value.next in failing)), failing, n - 1)
  }

  /** One loan of a pass, as the pass function takes it. */
  lemma PassesOne(w: World, failing: set<nat>)
    requires w.pay.Some? && w.pay.value.Repaying? && w.pay.value.bound == |w.books.live.loans|
    requires w.pay.value.remaining > 0 && w.pay.value.next < w.pay.value.bound
    ensures var p, w' := w.pay.value, Do(w, PayNext(w.pay.value.next in failing));
            && w'.pay.Some? && w'.pay.value.Repaying? && w'.pay.value.worker == p.worker
               && w'.pay.value.next == p.next + 1
            && w'.pay.value.bound == |w'.books.live.loans| == p.bound
            && RepayFrom(w'.books, p.worker, w'.pay.value.remaining, failing, p.next + 1)
               == RepayFrom(w.books, p.worker, p.remaining, failing, p.next)
  {
  }

  lemma {:induction false} PassIsARun(w: World, failing: set<nat>, n: nat)
    requires w.pay.Some? && w.pay.value.Repaying? && w.pay.value.bound == |w.books.live.loans| && n > 0
    requires w.pay.value.next <= |w.books.live.loans| < w.pay.value.next + n
    ensures var p := w.pay.value; var w' := Passed(w, failing, n);
            w'.pay.None? && w'.books == RepayFrom(w.books, p.worker, p.remaining, failing, p.next)
    decreases n
  {
    var p, next := w.pay.value, Do(w, PayNext(w.pay.value.next in failing));
    if p.remaining > 0 && p.next < p.bound {
      PassesOne(w, failing);
      PassIsARun(next, failing, n - 1);
    } else {
      PassEnds(w, w.pay.value.next in failing);
    }
  }

  lemma PassEnds(w: World, fails: bool)
    requires w.pay.Some? && w.pay.value.Repaying?
    requires w.pay.value.remaining <= 0 || w.pay.value.next >= w.pay.value.bound
    ensures Do(w, PayNext(fails)) == w.(pay := None)
  {
  }

  function Paid(w: World, worker: Key, amount: int, failing: set<nat>): World {
    Passed(Both(Do(w, PayBegin(worker, amount)), PayLog, PayRead), failing, |w.books.live.loans| + 1)
  }

  /** So is a pay the payment of labour with its repayments. */
  lemma PayIsARun(w: World, worker: Key, amount: int, failing: set<nat>)
    requires w.pay.None?
    ensures Paid(w, worker, amount, failing).books == LabourPaid(w.books, worker, amount, failing)
  {
    if amount > 0 && worker != "" {
      var paid := Both(Do(w, PayBegin(worker, amount)), PayLog, PayRead);
      assert paid.books == BountyPaid(w.books, worker, amount);
      if paid.pay.Some? { PassIsARun(paid, failing, |w.books.live.loans| + 1); }
    }
  }

  // ----- A hold in the middle of a pay -----

  /** A worker in debt to a hundred is paid a hundred, and buys with it before the repayment is taken. */
  function HeldDuringPay(operator: Key, worker: Key): World {
    var indebted := Accepted(New(operator), 1, true, worker, 100);
    var credited := Do(indebted, PayBegin(worker, 100));
    var bought := Both(Both(credited, Start(1, false, worker, 100), ReadHold(1)), EmitHold(1), Debit(1));
    Both(bought, PayLog, PayRead)
  }

  lemma BothAgree(w: World, first: Step, second: Step)
    requires Agrees(w) && !first.PayNext? && !second.PayNext?
    ensures Agrees(Both(w, first, second))
  {
    StepAgreesExactlyWhenCovered(w, first);
    StepAgreesExactlyWhenCovered(Do(w, first), second);
  }

  lemma IndebtedAgrees(operator: Key, worker: Key)
    requires operator != "" && worker != "" && worker != operator
    ensures var w := Accepted(New(operator), 1, true, worker, 100);
            && Agrees(w) && w.accepts == map[] && w.pay.None? && w.books == BoughtOnCredit(operator, worker, 100)
            && w.books.live.loans == [Loan(worker, 100, 0, LoanActive)] && Balance(w.books.live, worker) == 0
  {
    var w := New(operator);
    NewAgrees(operator);
    BothAgree(w, Start(1, true, worker, 100), Decide(1));
    BothAgree(Both(w, Start(1, true, worker, 100), Decide(1)), Lend(1), ReadHold(1));
    BothAgree(Both(Both(w, Start(1, true, worker, 100), Decide(1)), Lend(1), ReadHold(1)), EmitHold(1), Debit(1));
    AcceptIsARun(w, 1, true, worker, 100);
    BoughtOnCreditOwes(operator, worker, 100);
  }

  ghost predicate Spendable(w: World, worker: Key) {
    && Agrees(w) && w.accepts == map[] && worker != "" && worker != w.books.operator
    && w.books.live.loans == [Loan(worker, 100, 0, LoanActive)]
  }

  lemma BoughtMeanwhile(w: World, worker: Key)
    requires Spendable(w, worker) && Balance(w.books.live, worker) == 100 && w.pay == Some(Logging(worker, 100))
    ensures var w' := Both(Both(w, Start(1, false, worker, 100), ReadHold(1)), EmitHold(1), Debit(1));
            Spendable(w', worker) && Balance(w'.books.live, worker) == 0 && w'.pay == w.pay
  {
    var started := Do(w, Start(1, false, worker, 100));
    BothAgree(w, Start(1, false, worker, 100), ReadHold(1));
    BothAgree(Both(w, Start(1, false, worker, 100), ReadHold(1)), EmitHold(1), Debit(1));
    assert started == w.(accepts := map[1 := Holding(worker, 100)]);
    HoldsNext(started, 1);
  }

  lemma HalfIsWithheld(loans: seq<Loan>, worker: Key)
    requires loans == [Loan(worker, 100, 0, LoanActive)]
    ensures Withheld(loans, worker, 100) == 50
  {
    var none: seq<Loan> := [];
    assert loans[..0] == none && Outstanding(none, worker) == 0 && Outstanding(loans, worker) == 100;
    WithheldIsHalfExactlyWhenCharged(loans, worker, 100);
  }

  lemma PassBegins(w: World, worker: Key)
    requires w.books.live.loans == [Loan(worker, 100, 0, LoanActive)] && w.pay == Some(Logging(worker, 100))
    ensures var w' := Both(w, PayLog, PayRead);
            w'.books.live == w.books.live && w'.pay == Some(Repaying(worker, 50, 0, 1))
  {
    HalfIsWithheld(w.books.live.loans, worker);
  }

  lemma RepaymentIsUncovered(w: World, worker: Key)
    requires Agrees(w) && w.books.live.loans == [Loan(worker, 100, 0, LoanActive)] && Balance(w.books.live, worker) == 0
    requires w.pay == Some(Repaying(worker, 50, 0, 1))
    ensures !Covered(w, PayNext(false)) && !Agrees(Do(w, PayNext(false)))
  {
    StepAgreesExactlyWhenCovered(w, PayNext(false));
  }

  lemma PayBegins(w: World, worker: Key)
    requires Spendable(w, worker) && Balance(w.books.live, worker) == 0 && w.pay.None?
    ensures var w' := Do(w, PayBegin(worker, 100));
            Spendable(w', worker) && Balance(w'.books.live, worker) == 100 && w'.pay == Some(Logging(worker, 100))
  {
    StepAgreesExactlyWhenCovered(w, PayBegin(worker, 100));
  }

  lemma CreditedAgrees(operator: Key, worker: Key)
    requires operator != "" && worker != "" && worker != operator
    ensures var w := Do(Accepted(New(operator), 1, true, worker, 100), PayBegin(worker, 100));
            Spendable(w, worker) && Balance(w.books.live, worker) == 100 && w.pay == Some(Logging(worker, 100))
  {
    IndebtedAgrees(operator, worker);
    PayBegins(Accepted(New(operator), 1, true, worker, 100), worker);
  }

  lemma MeanwhileAgrees(w: World, worker: Key)
    requires Spendable(w, worker) && Balance(w.books.live, worker) == 0 && w.pay == Some(Logging(worker, 100))
    ensures var w' := Both(w, PayLog, PayRead);
            Agrees(w') && !Covered(w', PayNext(false)) && !Agrees(Do(w', PayNext(false)))
  {
    BothAgree(w, PayLog, PayRead);
    PassBegins(w, worker);
    RepaymentIsUncovered(Both(w, PayLog, PayRead), worker);
  }

  /** The repayment is in the log, and the live ledger drops it. */
  lemma HoldDuringPayDropsRepayment(operator: Key, worker: Key)
    requires operator != "" && worker != "" && worker != operator
    ensures var w := HeldDuringPay(operator, worker);
            Agrees(w) && !Covered(w, PayNext(false)) && !Agrees(Do(w, PayNext(false)))
  {
    var credited := Do(Accepted(New(operator), 1, true, worker, 100), PayBegin(worker, 100));
    CreditedAgrees(operator, worker);
    BoughtMeanwhile(credited, worker);
    MeanwhileAgrees(Both(Both(credited, Start(1, false, worker, 100), ReadHold(1)), EmitHold(1), Debit(1)), worker);
  }
}
