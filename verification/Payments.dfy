/** Paying by card (`chargeCard`, `settleWith`, `settlePending`, internal/control/payments.go; `CreatePayment`,
`SetTransaction`, `Settle`, `Grant`, internal/store/credit.go).

`Account` is what the store keeps for one organisation, and `Ledger` its methods. `Next` is one step of the requests,
replicas and rounds that use it side by side; they stop anywhere, lose answers and act on what they read long before.
*/
module Payments {
  import opened Text
  import Money

  /** A grant is credit without a payment. A top-up and a charge are paid on the payment page, or a saved card is charged for them. */
  datatype Kind = TopUp | Auto | Charge(charge: nat, period: nat, onPage: bool) | Grant

  predicate OnCard(kind: Kind) { kind.Auto? || (kind.Charge? && !kind.onPage) }

  /** What a saved card is charged for: at most one charge of it is under way. */
  datatype Slot = NoSlot | AutoSlot | ChargeSlot(charge: nat)

  function SlotOf(kind: Kind): Slot {
    if kind.Auto? then AutoSlot else if OnCard(kind) then ChargeSlot(kind.charge) else NoSlot
  }

  datatype PaymentState = Pending | Paid | Failed

  /** No transaction is tied to a payment while `tx` is zero. */
  datatype Payment = Payment(kind: Kind, bill: Money.Payment, state: PaymentState, tx: nat)

  /** A transaction, as it is read back. */
  datatype Status = Open | Fulfilled(currency: string, authorized: real) | Dead

  /** `blocked` are the slots whose error stops the next charge; `periods` counts the paid periods of each recurring
  charge. */
  datatype Account = Account(payments: seq<Payment>, balance: int, blocked: set<Slot>, periods: map<nat, nat>)

  predicate Underway(payments: seq<Payment>, slot: Slot) {
    exists i :: 0 <= i < |payments| && SlotOf(payments[i].kind) == slot && payments[i].state == Pending
  }

  /** Whether the store takes a new payment. */
  predicate Due(a: Account, kind: Kind) {
    match kind
    case TopUp => true
    case Grant => false
    case Auto => AutoSlot !in a.blocked && !Underway(a.payments, AutoSlot)
    case Charge(c, period, onPage) =>
      && !Underway(a.payments, ChargeSlot(c))
      && (!onPage ==> c in a.periods && a.periods[c] == period && ChargeSlot(c) !in a.blocked)
  }

  function Create(a: Account, kind: Kind, bill: Money.Payment): Account {
    a.(payments := a.payments + [Payment(kind, bill, Pending, 0)])
  }

  function Tie(a: Account, id: nat, tx: nat): Account
    requires id < |a.payments|
  {
    if a.payments[id].state == Pending then a.(payments := a.payments[id := a.payments[id].(tx := tx)]) else a
  }

  predicate Ends(p: Payment, paid: bool) { p.state == Pending || (p.state == Failed && paid) }

  function Credited(a: Account, p: Payment): Account {
    if !p.kind.Charge? then a.(balance := a.balance + p.bill.amount)
    else if p.kind.charge in a.periods && a.periods[p.kind.charge] == p.kind.period
    then a.(periods := a.periods[p.kind.charge := p.kind.period + 1])
    else a
  }

  /** Ends a payment, once: a paid one is credited and lifts every block, and a card that failed blocks its slot. */
  function Settle(a: Account, id: nat, paid: bool, retry: bool): Account
    requires id < |a.payments|
  {
    var p := a.payments[id];
    if !Ends(p, paid) then a
    else
      var b := a.(payments := a.payments[id := p.(state := if paid then Paid else Failed)]);
      if paid then Credited(b, p).(blocked := {})
      else if OnCard(p.kind) && !retry then b.(blocked := b.blocked + {SlotOf(p.kind)})
      else b
  }

  function AddGrant(a: Account, micros: int): Account {
    a.(payments := a.payments + [Payment(Grant, Money.Payment(micros, 0, 0), Paid, 0)], balance := a.balance + micros)
  }

  predicate InFull(fl: real -> real, p: Payment, status: Status) {
    status.Fulfilled? && Money.PaidInFull(fl, p.bill, status.currency, status.authorized)
  }

  function SettleWith(fl: real -> real, a: Account, id: nat, status: Status): Account
    requires id < |a.payments|
  {
    match status
    case Open => a
    case _ => Settle(a, id, InFull(fl, a.payments[id], status), false)
  }

  /** What the round that looks at pending payments has listed: the transaction, and how old the payment is. */
  datatype Listed = Listed(id: nat, tx: nat, unstartedLong: bool, aDayOld: bool)

  /** An untied payment was interrupted, and a charge that has not ended in a day stops. */
  function Check(fl: real -> real, a: Account, l: Listed, read: Option<Status>): Account
    requires l.id < |a.payments|
  {
    if l.tx == 0 then (if l.unstartedLong then Settle(a, l.id, false, true) else a)
    else match read
      case None => a
      case Some(status) => if status == Open && l.aDayOld then Settle(a, l.id, false, false) else SettleWith(fl, a, l.id, status)
  }

  function CheckAll(fl: real -> real, a: Account, list: seq<Listed>, answers: seq<Option<Status>>, n: nat): (b: Account)
    requires n <= |list| == |answers| && forall i :: 0 <= i < |list| ==> list[i].id < |a.payments|
    ensures |b.payments| == |a.payments|
  {
    if n == 0 then a else Check(fl, CheckAll(fl, a, list, answers, n - 1), list[n - 1], answers[n - 1])
  }

  /** How an account stands after the round has looked at a listed payment. */
  ghost predicate Looked(fl: real -> real, was: Account, now: Account, l: Listed, read: Option<Status>)
    requires l.id < |was.payments|
  {
    var p := was.payments[l.id];
    if p.state == PaymentState.Paid || (l.tx != 0 && read == None) then now == was
    else if l.tx == 0 then
      if l.unstartedLong && p.state == Pending then EndsFailed(was, now, l.id, false) else now == was
    else if InFull(fl, p, read.value) then EndsPaid(was, now, l.id)
    else if p.state == Pending && (read.value != Open || l.aDayOld) then EndsFailed(was, now, l.id, true)
    else now == was
  }

  lemma CheckEndsAsRead(fl: real -> real, a: Account, l: Listed, read: Option<Status>)
    requires l.id < |a.payments|
    ensures Looked(fl, a, Check(fl, a, l, read), l, read)
  {}

  /** The payment has ended, and is paid if it says so. */
  ghost predicate HasEnded(a: Account, id: nat, paid: bool)
    requires id < |a.payments|
  {
    a.payments[id].state != Pending && (paid ==> a.payments[id].state == PaymentState.Paid)
  }

  /** What the round has ended stays ended while it looks at the others. */
  lemma {:induction false} RoundEnds(fl: real -> real, a: Account, list: seq<Listed>, answers: seq<Option<Status>>, n: nat, i: nat)
    requires i < n <= |list| == |answers| && forall k :: 0 <= k < |list| ==> list[k].id < |a.payments|
    ensures var l, p, b := list[i], a.payments[list[i].id], CheckAll(fl, a, list, answers, n);
            && b.payments[l.id] == p.(state := b.payments[l.id].state)
            && (p.state == PaymentState.Paid ==> b.payments[l.id].state == PaymentState.Paid)
            && (l.tx == 0 && l.unstartedLong ==> HasEnded(b, l.id, false))
            && (l.tx != 0 && answers[i].Some? && (answers[i].value != Open || l.aDayOld) ==>
                  HasEnded(b, l.id, InFull(fl, p, answers[i].value)))
  {
    RoundKeeps(fl, a, list, answers, n - 1, list[i].id);
    var before := CheckAll(fl, a, list, answers, n - 1);
    CheckEndsAsRead(fl, before, list[n - 1], answers[n - 1]);
    CheckKeeps(fl, before, list[n - 1], answers[n - 1], list[i].id);
    if i < n - 1 {
      RoundEnds(fl, a, list, answers, n - 1, i);
    }
  }

  lemma CheckKeeps(fl: real -> real, a: Account, l: Listed, read: Option<Status>, id: nat)
    requires l.id < |a.payments| && id < |a.payments|
    ensures var b := Check(fl, a, l, read);
            && b.payments[id] == a.payments[id].(state := b.payments[id].state)
            && (a.payments[id].state == PaymentState.Paid ==> b.payments[id].state == PaymentState.Paid)
            && (a.payments[id].state != Pending ==> b.payments[id].state != Pending)
  {}

  lemma {:induction false} RoundKeeps(
      fl: real -> real, a: Account, list: seq<Listed>, answers: seq<Option<Status>>, n: nat, id: nat)
    requires n <= |list| == |answers| && forall k :: 0 <= k < |list| ==> list[k].id < |a.payments|
    requires id < |a.payments|
    ensures var b := CheckAll(fl, a, list, answers, n);
            && b.payments[id] == a.payments[id].(state := b.payments[id].state)
            && (a.payments[id].state == PaymentState.Paid ==> b.payments[id].state == PaymentState.Paid)
  {
    if n > 0 {
      RoundKeeps(fl, a, list, answers, n - 1, id);
      CheckKeeps(fl, CheckAll(fl, a, list, answers, n - 1), list[n - 1], answers[n - 1], id);
    }
  }

  // What a charge of the card meets on the way.

  datatype Answer = TurnedAway | Refused | NoAnswer | Read(status: Status)

  /** What PostFinance and the store answer a charge: the transaction, if it could be created and tied, and the charge. */
  datatype Course = Course(tx: nat, tied: bool, answer: Answer)

  class Ledger {
    var payments: seq<Payment>
    var balance: int
    var blocked: set<Slot>
    var periods: map<nat, nat>

    function View(): Account
      reads this
    {
      Account(payments, balance, blocked, periods)
    }

    constructor (periods: map<nat, nat>)
      ensures View() == Account([], 0, {}, periods)
    {
      payments, balance, blocked := [], 0, {};
      this.periods := periods;
    }

    /** `ready` says what else the store asks before it charges a card: that there is one, that the account runs low or
    the period has started, and that no charge was tried a short while ago. */
    method CreatePayment(kind: Kind, bill: Money.Payment, ready: bool) returns (id: Option<nat>)
      modifies this
      ensures if Due(old(View()), kind) && (OnCard(kind) ==> ready) then id == Some(|old(payments)|) && View() == Create(old(View()), kind, bill)
              else id == None && View() == old(View())
    {
      if !Due(View(), kind) || (OnCard(kind) && !ready) {
        return None;
      }
      id := Some(|payments|);
      payments := payments + [Payment(kind, bill, Pending, 0)];
    }

    method SetTransaction(id: nat, tx: nat) returns (ok: bool)
      requires id < |payments|
      modifies this
      ensures ok <==> old(payments[id].state) == Pending
      ensures View() == Tie(old(View()), id, tx)
    {
      ok := payments[id].state == Pending;
      if ok {
        payments := payments[id := payments[id].(tx := tx)];
      }
    }

    method End(id: nat, paid: bool, retry: bool)
      requires id < |payments|
      modifies this
      ensures View() == Settle(old(View()), id, paid, retry)
    {
      var p := payments[id];
      if p.state == Paid || (p.state == Failed && !paid) {
        return;
      }
      payments := payments[id := p.(state := if paid then Paid else Failed)];
      if paid {
        if p.kind.Charge? {
          if p.kind.charge in periods && periods[p.kind.charge] == p.kind.period {
            periods := periods[p.kind.charge := p.kind.period + 1];
          }
        } else {
          balance := balance + p.bill.amount;
        }
        blocked := {};
      } else if OnCard(p.kind) && !retry {
        blocked := blocked + {SlotOf(p.kind)};
      }
    }

    method EndWith(fl: real -> real, id: nat, status: Status)
      requires id < |payments|
      modifies this
      ensures View() == SettleWith(fl, old(View()), id, status)
    {
      match status {
        case Fulfilled(currency, authorized) =>
          if !Money.PaidInFull(fl, payments[id].bill, currency, authorized) {
            End(id, false, false);
          } else {
            End(id, true, false);
          }
        case Dead => End(id, false, false);
        case Open =>
      }
    }

    method Give(micros: int)
      modifies this
      ensures View() == AddGrant(old(View()), micros)
    {
      payments := payments + [Payment(Grant, Money.Payment(micros, 0, 0), Paid, 0)];
      balance := balance + micros;
    }

    /** Looks at the listed payments in turn; `answers` is what PostFinance says of each, if it can be reached. */
    method SettlePending(fl: real -> real, list: seq<Listed>, answers: seq<Option<Status>>)
      requires |list| == |answers| && forall i :: 0 <= i < |list| ==> list[i].id < |payments|
      modifies this
      ensures View() == CheckAll(fl, old(View()), list, answers, |list|)
    {
      ghost var was := View();
      for i := 0 to |list|
        invariant View() == CheckAll(fl, was, list, answers, i)
      {
        var l := list[i];
        if l.tx == 0 {
          if l.unstartedLong {
            End(l.id, false, true);
          }
          continue;
        }
        if answers[i].None? {
          continue;
        }
        if answers[i].value == Open && l.aDayOld {
          End(l.id, false, false);
          continue;
        }
        EndWith(fl, l.id, answers[i].value);
      }
    }

    /** Charges a saved card. Where it is known that nothing was charged the next round tries again, a refusal blocks
    the slot, and without an answer the payment stays pending. */
    method ChargeCard(fl: real -> real, kind: Kind, bill: Money.Payment, ready: bool, course: Course)
      returns (id: Option<nat>)
      requires OnCard(kind)
      modifies this
      ensures id == if Due(old(View()), kind) && ready then Some(|old(payments)|) else None
      ensures id == None ==> View() == old(View())
      ensures id != None ==> Charged(fl, old(View()), View(), kind, bill, course)
    {
      id := CreatePayment(kind, bill, ready);
      if id == None {
        return;
      }
      var tied := false;
      if course.tx != 0 && course.tied {
        tied := SetTransaction(id.value, course.tx);
      }
      if !tied {
        End(id.value, false, true);
        return;
      }
      match course.answer {
        case TurnedAway => End(id.value, false, true);
        case Refused => End(id.value, false, false);
        case NoAnswer =>
        case Read(status) => EndWith(fl, id.value, status);
      }
    }
  }

  /** The slots that a failed payment of this kind blocks. */
  function Blocked(kind: Kind): set<Slot> {
    match kind
    case Auto => {AutoSlot}
    case Charge(c, _, false) => {ChargeSlot(c)}
    case _ => {}
  }

  /** The payment failed, and what it stands for is blocked or not. */
  ghost predicate EndsFailed(was: Account, now: Account, id: nat, blocks: bool)
    requires id < |was.payments|
  {
    var p := was.payments[id];
    now == was.(payments := was.payments[id := p.(state := PaymentState.Failed)],
                blocked := was.blocked + if blocks then Blocked(p.kind) else {})
  }

  /** The payment is paid and every block is lifted; a charge that was due moves on by one period, and any other payment
  adds its amount to the balance. */
  ghost predicate EndsPaid(was: Account, now: Account, id: nat)
    requires id < |was.payments|
  {
    var p := was.payments[id];
    && now.payments == was.payments[id := p.(state := PaymentState.Paid)] && now.blocked == {}
    && match p.kind
       case Charge(c, period, _) =>
         && now.balance == was.balance && now.periods.Keys == was.periods.Keys
         && forall d :: d in was.periods ==>
              now.periods[d] == was.periods[d] + if d == c && was.periods[c] == period then 1 else 0
       case _ => now.balance == was.balance + p.bill.amount && now.periods == was.periods
  }

  /** How an account stands after a charge of a card. */
  ghost predicate Charged(fl: real -> real, was: Account, now: Account, kind: Kind, bill: Money.Payment, course: Course) {
    var started := course.tx != 0 && course.tied;
    var id, pending := |was.payments|, Payment(kind, bill, Pending, if started then course.tx else 0);
    var with := was.(payments := was.payments + [pending]);
    match if started then course.answer else TurnedAway
    case TurnedAway => EndsFailed(with, now, id, false)
    case Refused => EndsFailed(with, now, id, true)
    case NoAnswer => now == with
    case Read(Open) => now == with
    case Read(status) => if InFull(fl, pending, status) then EndsPaid(with, now, id) else EndsFailed(with, now, id, true)
  }

  // Everything side by side.

  /** How far the request or round that started a payment is. */
  datatype Stage = Starting | Has(tx: nat) | Ready | Failing(retry: bool) | Over

  /** What lifted the block that a failed charge set. */
  datatype Lifter = Administrator | PaymentOf(id: nat)

  /** What the store does not know of a payment: whether the card's charge was ever submitted, what PostFinance says, what
  was read of that, and what became of the payment. */
  datatype Extra = Extra(
    stage: Stage, submitted: bool, status: Status, readOpen: bool, readEnd: bool,
    aged: bool, listed: bool, late: bool, retried: bool, lifted: Option<Lifter>)

  datatype World = World(account: Account, extras: seq<Extra>, spent: int)

  datatype Action =
    | NewCharge(charge: nat)
    | NewPayment(kind: Kind, bill: Money.Payment)
    | GetTx(id: nat, tx: nat)
    | StartFails(id: nat)
    | TieTx(id: nat, lost: bool)
    | Submit(id: nat)
    | TurnAway(id: nat)
    | Refuse(id: nat)
    | Fail(id: nat)
    | Stop(id: nat)
    | EndTx(id: nat, status: Status)
    | GrowOld(id: nat)
    | ListUntied(id: nat)
    | GiveUp(id: nat)
    | ReadTx(id: nat)
    | SettleRead(id: nat)
    | StopLooking(id: nat)
    | Unblock(slot: Slot)
    | GiveCredit(micros: int)
    | Spend(micros: int)

  const NEW := Extra(Starting, false, Open, false, false, false, false, false, false, None)

  ghost predicate Blocks(p: Payment) { OnCard(p.kind) && p.state == Failed }

  /** Marks the failed charges whose block is lifted. */
  ghost function Lift(w: World, slots: set<Slot>, lifter: Lifter): seq<Extra>
    requires |w.extras| == |w.account.payments|
  {
    seq(|w.extras|, i requires 0 <= i < |w.extras| =>
      var p := w.account.payments[i];
      if Blocks(p) && SlotOf(p.kind) in slots && w.extras[i].lifted == None then w.extras[i].(lifted := Some(lifter)) else w.extras[i])
  }

  ghost function SettleIn(w: World, id: nat, paid: bool, retry: bool): World
    requires |w.extras| == |w.account.payments| && id < |w.extras|
  {
    var p := w.account.payments[id];
    var now := w.(account := Settle(w.account, id, paid, retry));
    if !Ends(p, paid) then w
    else if paid then now.(extras := Lift(now, w.account.blocked, PaymentOf(id)))
    else now.(extras := w.extras[id := w.extras[id].(retried := retry, lifted := None)])
  }

  ghost function Put(w: World, id: nat, x: Extra): World
    requires id < |w.extras|
  {
    w.(extras := w.extras[id := x])
  }

  ghost function Of(a: Action): Option<nat> {
    match a
    case NewCharge(_) => None
    case NewPayment(_, _) => None
    case Unblock(_) => None
    case GiveCredit(_) => None
    case Spend(_) => None
    case _ => Some(a.id)
  }

  /** A step of the organisation's account. */
  ghost function NextAccount(w: World, a: Action): World
    requires |w.extras| == |w.account.payments|
  {
    match a
    case NewCharge(c) => if c in w.account.periods then w else w.(account := w.account.(periods := w.account.periods[c := 0]))
    case NewPayment(kind, bill) =>
      if Due(w.account, kind) then w.(account := Create(w.account, kind, bill), extras := w.extras + [NEW]) else w
    case Unblock(slot) =>
      w.(account := w.account.(blocked := w.account.blocked - {slot}), extras := Lift(w, {slot}, Administrator))
    case GiveCredit(micros) => w.(account := AddGrant(w.account, micros), extras := w.extras + [NEW.(stage := Over)])
    case Spend(micros) => w.(account := w.account.(balance := w.account.balance - micros), spent := w.spent + micros)
    case _ => w
  }

  /** A payment on the page is started only once the page's address is known, so it may fail when it is tied already. */
  ghost predicate MayFailToStart(p: Payment, x: Extra) {
    x.stage == Starting || x.stage.Has? || (x.stage == Ready && !OnCard(p.kind))
  }

  /** A step of who started the payment. */
  ghost function NextOfStarter(w: World, a: Action, id: nat): World
    requires |w.extras| == |w.account.payments| && id < |w.extras|
  {
    var p, x := w.account.payments[id], w.extras[id];
    match a
    case GetTx(_, tx) => if x.stage == Starting && tx != 0 then Put(w, id, x.(stage := Has(tx))) else w
    case StartFails(_) => if MayFailToStart(p, x) then Put(w, id, x.(stage := Failing(OnCard(p.kind)))) else w
    case TieTx(_, lost) =>
      if !x.stage.Has? then w
      else if p.state != Pending then Put(w, id, x.(stage := Failing(OnCard(p.kind))))
      else Put(w, id, x.(stage := if lost then Failing(OnCard(p.kind)) else Ready, late := x.listed))
             .(account := Tie(w.account, id, x.stage.tx))
    case Submit(_) => if x.stage == Ready && OnCard(p.kind) then Put(w, id, x.(stage := Over, submitted := true)) else w
    case TurnAway(_) => if x.stage == Ready && OnCard(p.kind) then Put(w, id, x.(stage := Failing(true))) else w
    case Refuse(_) => if x.stage == Ready && OnCard(p.kind) then Put(w, id, x.(stage := Failing(false))) else w
    case Fail(_) => if x.stage.Failing? then SettleIn(Put(w, id, x.(stage := Over)), id, false, x.stage.retry) else w
    case Stop(_) => Put(w, id, x.(stage := Over))
    case _ => w
  }

  /** A step of PostFinance, or of anyone who reads from it: the webhook, a page, the round. */
  ghost function NextOfReader(fl: real -> real, w: World, a: Action, id: nat): World
    requires |w.extras| == |w.account.payments| && id < |w.extras|
  {
    var p, x := w.account.payments[id], w.extras[id];
    match a
    case EndTx(_, status) =>
      if x.status == Open && p.tx != 0 && (x.submitted || !OnCard(p.kind)) then Put(w, id, x.(status := status)) else w
    case GrowOld(_) => Put(w, id, x.(aged := true))
    case ListUntied(_) => if x.aged && p.state == Pending && p.tx == 0 then Put(w, id, x.(listed := true)) else w
    case GiveUp(_) => if x.listed then SettleIn(w, id, false, true) else w
    case ReadTx(_) =>
      if p.tx == 0 then w else Put(w, id, if x.status == Open then x.(readOpen := true) else x.(readEnd := true))
    case SettleRead(_) => if x.readEnd then SettleIn(w, id, InFull(fl, p, x.status), false) else w
    case StopLooking(_) => if x.readOpen && OnCard(p.kind) then SettleIn(w, id, false, false) else w
    case _ => w
  }

  ghost function Next(fl: real -> real, w: World, a: Action): World
    requires |w.extras| == |w.account.payments|
  {
    match Of(a)
    case None => NextAccount(w, a)
    case Some(id) =>
      if id >= |w.extras| then w
      else if a.EndTx? || a.GrowOld? || a.ListUntied? || a.GiveUp? || a.ReadTx? || a.SettleRead? || a.StopLooking?
      then NextOfReader(fl, w, a, id)
      else NextOfStarter(w, a, id)
  }

  ghost function Run(fl: real -> real, actions: seq<Action>): (w: World)
    ensures |w.extras| == |w.account.payments|
  {
    if actions == [] then World(Account([], 0, {}, map[]), [], 0)
    else Next(fl, Run(fl, actions[..|actions| - 1]), actions[|actions| - 1])
  }

  // What every step keeps.

  ghost predicate PaymentInv(fl: real -> real, p: Payment, x: Extra) {
    && (x.submitted ==> p.tx != 0 && OnCard(p.kind) && x.stage == Over)
    && (x.stage == Starting || x.stage.Has? ==> p.tx == 0)
    && (x.stage.Has? ==> x.stage.tx != 0)
    && (x.stage == Ready ==> p.tx != 0)
    && (p.tx == 0 ==> x.status == Open && !x.readOpen && !x.readEnd)
    && (x.status != Open && OnCard(p.kind) ==> x.submitted)
    && (x.readEnd ==> x.status != Open)
    && (x.listed ==> x.aged && (p.tx != 0 ==> x.late))
    && (x.late ==> x.listed && p.tx != 0)
    && (x.retried ==> p.state != Pending && (x.submitted || x.stage == Ready ==> x.late))
    && (p.state == Paid && p.kind != Grant ==> p.tx != 0 && x.readEnd && InFull(fl, p, x.status))
    && (p.kind == Grant ==> p.state == Paid && x.stage == Over)
  }

  ghost predicate PaymentsInv(fl: real -> real, w: World)
    requires |w.extras| == |w.account.payments|
  {
    forall i :: 0 <= i < |w.extras| ==> PaymentInv(fl, w.account.payments[i], w.extras[i])
  }

  /** A failed charge blocks its slot, unless it may be retried or something lifted the block. */
  ghost predicate BlockInv(p: Payment, x: Extra, a: Account) {
    && (Blocks(p) ==> x.retried || SlotOf(p.kind) in a.blocked || x.lifted.Some?)
    && (x.lifted.Some? && x.lifted.value.PaymentOf? ==>
          x.lifted.value.id < |a.payments| && a.payments[x.lifted.value.id].state == Paid
          && a.payments[x.lifted.value.id].kind != Grant)
  }

  ghost predicate BlocksInv(w: World)
    requires |w.extras| == |w.account.payments|
  {
    forall i :: 0 <= i < |w.extras| ==> BlockInv(w.account.payments[i], w.extras[i], w.account)
  }

  /** A failed charge that neither may be retried nor was lifted. */
  ghost predicate Holding(p: Payment, x: Extra, slot: Slot) {
    Blocks(p) && SlotOf(p.kind) == slot && !x.retried && x.lifted == None
  }

  /** Only such a charge keeps a slot blocked. */
  ghost predicate HeldInv(w: World)
    requires |w.extras| == |w.account.payments|
  {
    forall slot :: slot in w.account.blocked ==> exists i :: 0 <= i < |w.extras| && Holding(w.account.payments[i], w.extras[i], slot)
  }

  function Credit(p: Payment): int { if p.state == Paid && !p.kind.Charge? then p.bill.amount else 0 }

  function Credits(payments: seq<Payment>, n: nat): int
    requires n <= |payments|
  {
    if n == 0 then 0 else Credits(payments, n - 1) + Credit(payments[n - 1])
  }

  ghost predicate Balanced(w: World) {
    w.account.balance == Credits(w.account.payments, |w.account.payments|) - w.spent
  }

  lemma {:induction false} CreditsExtend(a: seq<Payment>, b: seq<Payment>, n: nat)
    requires n <= |a| && n <= |b| && forall i :: 0 <= i < n ==> Credit(a[i]) == Credit(b[i])
    ensures Credits(a, n) == Credits(b, n)
  {
    if n > 0 { CreditsExtend(a, b, n - 1); }
  }

  lemma {:induction false} CreditsChange(a: seq<Payment>, id: nat, p: Payment, n: nat)
    requires id < n <= |a|
    ensures Credits(a[id := p], n) == Credits(a, n) - Credit(a[id]) + Credit(p)
  {
    if id == n - 1 { CreditsExtend(a, a[id := p], n - 1); } else { CreditsChange(a, id, p, n - 1); }
  }

  lemma CreditsAdd(a: seq<Payment>, p: Payment)
    ensures Credits(a + [p], |a| + 1) == Credits(a, |a|) + Credit(p)
  {
    CreditsExtend(a, a + [p], |a|);
  }

  ghost predicate Inv(fl: real -> real, w: World) {
    && |w.extras| == |w.account.payments|
    && PaymentsInv(fl, w) && BlocksInv(w) && HeldInv(w) && Balanced(w)
  }

  /** A slot that stays blocked is held by the charge that held it, as long as that does not change. */
  lemma StillHeld(w: World, now: World, slot: Slot)
    requires |w.extras| == |w.account.payments| && |now.extras| == |now.account.payments| >= |w.extras|
    requires HeldInv(w) && slot in w.account.blocked
    requires forall i :: 0 <= i < |w.extras| && Holding(w.account.payments[i], w.extras[i], slot) ==>
               Holding(now.account.payments[i], now.extras[i], slot)
    ensures exists i :: 0 <= i < |now.extras| && Holding(now.account.payments[i], now.extras[i], slot)
  {
    var i :| 0 <= i < |w.extras| && Holding(w.account.payments[i], w.extras[i], slot);
    assert Holding(now.account.payments[i], now.extras[i], slot);
  }

  lemma SettleKeepsHeld(w: World, id: nat, paid: bool, retry: bool)
    requires |w.extras| == |w.account.payments| && id < |w.extras|
    requires HeldInv(w) && Ends(w.account.payments[id], paid)
    ensures HeldInv(SettleIn(w, id, paid, retry))
  {
    var now := SettleIn(w, id, paid, retry);
    forall slot | slot in now.account.blocked
      ensures exists i :: 0 <= i < |now.extras| && Holding(now.account.payments[i], now.extras[i], slot)
    {
      if slot in w.account.blocked {
        StillHeld(w, now, slot);
      } else {
        assert Holding(now.account.payments[id], now.extras[id], slot);
      }
    }
  }

  lemma SettleKeepsInv(fl: real -> real, w: World, id: nat, paid: bool, retry: bool)
    requires Inv(fl, w) && id < |w.extras|
    requires paid ==> w.account.payments[id].tx != 0 && w.extras[id].readEnd && InFull(fl, w.account.payments[id], w.extras[id].status)
    requires !paid && retry ==> (w.extras[id].submitted || w.extras[id].stage == Ready ==> w.extras[id].late)
    ensures Inv(fl, SettleIn(w, id, paid, retry))
  {
    var p := w.account.payments[id];
    if Ends(p, paid) {
      var q := p.(state := if paid then PaymentState.Paid else PaymentState.Failed);
      CreditsChange(w.account.payments, id, q, |w.extras|);
      var now := SettleIn(w, id, paid, retry);
      assert now.account.payments == w.account.payments[id := q];
      assert Balanced(now);
      assert PaymentsInv(fl, now);
      SettleKeepsBlocks(w, id, paid, retry);
      SettleKeepsHeld(w, id, paid, retry);
    }
  }

  lemma SettleKeepsBlocks(w: World, id: nat, paid: bool, retry: bool)
    requires |w.extras| == |w.account.payments| && id < |w.extras|
    requires BlocksInv(w) && Ends(w.account.payments[id], paid) && w.account.payments[id].kind != Grant
    ensures BlocksInv(SettleIn(w, id, paid, retry))
  {
    var now := SettleIn(w, id, paid, retry);
    forall i | 0 <= i < |now.extras| ensures BlockInv(now.account.payments[i], now.extras[i], now.account) {
      assert BlockInv(w.account.payments[i], w.extras[i], w.account);
    }
  }

  lemma PutKeepsInv(fl: real -> real, w: World, id: nat, x: Extra)
    requires Inv(fl, w) && id < |w.extras| && PaymentInv(fl, w.account.payments[id], x)
    requires x.lifted == w.extras[id].lifted && x.retried == w.extras[id].retried
    ensures Inv(fl, Put(w, id, x))
  {
    var now := Put(w, id, x);
    forall i | 0 <= i < |now.extras|
      ensures PaymentInv(fl, now.account.payments[i], now.extras[i])
      ensures BlockInv(now.account.payments[i], now.extras[i], now.account)
    {
      assert BlockInv(w.account.payments[i], w.extras[i], w.account);
    }
    forall slot | slot in now.account.blocked
      ensures exists i :: 0 <= i < |now.extras| && Holding(now.account.payments[i], now.extras[i], slot)
    {
      StillHeld(w, now, slot);
    }
  }

  lemma ReaderKeepsInv(fl: real -> real, w: World, a: Action, id: nat)
    requires Inv(fl, w) && id < |w.extras|
    ensures Inv(fl, NextOfReader(fl, w, a, id))
  {
    var p, x := w.account.payments[id], w.extras[id];
    assert PaymentInv(fl, p, x);
    match a {
      case EndTx(_, status) =>
        if x.status == Open && p.tx != 0 && (x.submitted || !OnCard(p.kind)) { PutKeepsInv(fl, w, id, x.(status := status)); }
      case GrowOld(_) => PutKeepsInv(fl, w, id, x.(aged := true));
      case ListUntied(_) => if x.aged && p.state == Pending && p.tx == 0 { PutKeepsInv(fl, w, id, x.(listed := true)); }
      case GiveUp(_) => if x.listed { SettleKeepsInv(fl, w, id, false, true); }
      case ReadTx(_) =>
        if p.tx != 0 { PutKeepsInv(fl, w, id, if x.status == Open then x.(readOpen := true) else x.(readEnd := true)); }
      case SettleRead(_) => if x.readEnd { SettleKeepsInv(fl, w, id, InFull(fl, p, x.status), false); }
      case StopLooking(_) => if x.readOpen && OnCard(p.kind) { SettleKeepsInv(fl, w, id, false, false); }
      case _ =>
    }
  }

  lemma TieKeepsInv(fl: real -> real, w: World, id: nat, lost: bool)
    requires Inv(fl, w) && id < |w.extras| && w.extras[id].stage.Has? && w.account.payments[id].state == Pending
    ensures Inv(fl, NextOfStarter(w, TieTx(id, lost), id))
  {
    var p, x := w.account.payments[id], w.extras[id];
    var q := p.(tx := x.stage.tx);
    var now := NextOfStarter(w, TieTx(id, lost), id);
    assert PaymentInv(fl, p, x);
    assert now.account.payments == w.account.payments[id := q];
    CreditsChange(w.account.payments, id, q, |w.extras|);
    forall i | 0 <= i < |now.extras|
      ensures PaymentInv(fl, now.account.payments[i], now.extras[i])
      ensures BlockInv(now.account.payments[i], now.extras[i], now.account)
    {
      assert BlockInv(w.account.payments[i], w.extras[i], w.account);
    }
    forall slot | slot in now.account.blocked
      ensures exists i :: 0 <= i < |now.extras| && Holding(now.account.payments[i], now.extras[i], slot)
    {
      StillHeld(w, now, slot);
    }
  }

  lemma StarterKeepsInv(fl: real -> real, w: World, a: Action, id: nat)
    requires Inv(fl, w) && id < |w.extras|
    ensures Inv(fl, NextOfStarter(w, a, id))
  {
    var p, x := w.account.payments[id], w.extras[id];
    assert PaymentInv(fl, p, x);
    match a {
      case GetTx(_, tx) => if x.stage == Starting && tx != 0 { PutKeepsInv(fl, w, id, x.(stage := Has(tx))); }
      case StartFails(_) =>
        if MayFailToStart(p, x) { PutKeepsInv(fl, w, id, x.(stage := Failing(OnCard(p.kind)))); }
      case TieTx(_, lost) =>
        if x.stage.Has? {
          if p.state == Pending { TieKeepsInv(fl, w, id, lost); } else { PutKeepsInv(fl, w, id, x.(stage := Failing(OnCard(p.kind)))); }
        }
      case Submit(_) => if x.stage == Ready && OnCard(p.kind) { PutKeepsInv(fl, w, id, x.(stage := Over, submitted := true)); }
      case TurnAway(_) => if x.stage == Ready && OnCard(p.kind) { PutKeepsInv(fl, w, id, x.(stage := Failing(true))); }
      case Refuse(_) => if x.stage == Ready && OnCard(p.kind) { PutKeepsInv(fl, w, id, x.(stage := Failing(false))); }
      case Fail(_) =>
        if x.stage.Failing? {
          PutKeepsInv(fl, w, id, x.(stage := Over));
          SettleKeepsInv(fl, Put(w, id, x.(stage := Over)), id, false, x.stage.retry);
        }
      case Stop(_) => PutKeepsInv(fl, w, id, x.(stage := Over));
      case _ =>
    }
  }

  lemma UnblockKeepsInv(fl: real -> real, w: World, slot: Slot)
    requires Inv(fl, w)
    ensures Inv(fl, NextAccount(w, Unblock(slot)))
  {
    var now := NextAccount(w, Unblock(slot));
    forall i | 0 <= i < |now.extras|
      ensures PaymentInv(fl, now.account.payments[i], now.extras[i])
      ensures BlockInv(now.account.payments[i], now.extras[i], now.account)
    {
      assert PaymentInv(fl, w.account.payments[i], w.extras[i]);
      assert BlockInv(w.account.payments[i], w.extras[i], w.account);
    }
    forall other | other in now.account.blocked
      ensures exists i :: 0 <= i < |now.extras| && Holding(now.account.payments[i], now.extras[i], other)
    {
      StillHeld(w, now, other);
    }
  }

  lemma AddKeepsInv(fl: real -> real, w: World, p: Payment, x: Extra, balance: int)
    requires Inv(fl, w) && PaymentInv(fl, p, x) && p.state != Failed && x.lifted == None
    requires balance == w.account.balance + Credit(p)
    ensures Inv(fl, w.(account := w.account.(payments := w.account.payments + [p], balance := balance), extras := w.extras + [x]))
  {
    var now := w.(account := w.account.(payments := w.account.payments + [p], balance := balance), extras := w.extras + [x]);
    CreditsAdd(w.account.payments, p);
    forall i | 0 <= i < |now.extras|
      ensures PaymentInv(fl, now.account.payments[i], now.extras[i])
      ensures BlockInv(now.account.payments[i], now.extras[i], now.account)
    {
      if i < |w.extras| {
        assert PaymentInv(fl, w.account.payments[i], w.extras[i]);
        assert BlockInv(w.account.payments[i], w.extras[i], w.account);
      }
    }
    forall slot | slot in now.account.blocked
      ensures exists i :: 0 <= i < |now.extras| && Holding(now.account.payments[i], now.extras[i], slot)
    {
      StillHeld(w, now, slot);
    }
  }

  lemma NewKeepsInv(fl: real -> real, w: World, kind: Kind, bill: Money.Payment)
    requires Inv(fl, w) && kind != Grant
    ensures Inv(fl, w.(account := Create(w.account, kind, bill), extras := w.extras + [NEW]))
  {
    AddKeepsInv(fl, w, Payment(kind, bill, Pending, 0), NEW, w.account.balance);
  }

  lemma AccountKeepsInv(fl: real -> real, w: World, a: Action)
    requires Inv(fl, w)
    ensures Inv(fl, NextAccount(w, a))
  {
    match a {
      case NewPayment(kind, bill) =>
        if Due(w.account, kind) { NewKeepsInv(fl, w, kind, bill); }
      case GiveCredit(micros) =>
        AddKeepsInv(fl, w, Payment(Grant, Money.Payment(micros, 0, 0), PaymentState.Paid, 0), NEW.(stage := Over), w.account.balance + micros);
      case Unblock(slot) => UnblockKeepsInv(fl, w, slot);
      case _ => OtherKeepsInv(fl, w, NextAccount(w, a));
    }
  }

  lemma OtherKeepsInv(fl: real -> real, w: World, now: World)
    requires Inv(fl, w) && now.extras == w.extras
    requires now.account.payments == w.account.payments && now.account.blocked == w.account.blocked
    requires now.account.balance + now.spent == w.account.balance + w.spent
    ensures Inv(fl, now)
  {
    forall i | 0 <= i < |now.extras| ensures BlockInv(now.account.payments[i], now.extras[i], now.account) {
      assert BlockInv(w.account.payments[i], w.extras[i], w.account);
    }
    forall slot | slot in now.account.blocked
      ensures exists i :: 0 <= i < |now.extras| && Holding(now.account.payments[i], now.extras[i], slot)
    {
      StillHeld(w, now, slot);
    }
  }

  lemma NextKeepsInv(fl: real -> real, w: World, a: Action)
    requires Inv(fl, w)
    ensures Inv(fl, Next(fl, w, a))
  {
    match Of(a) {
      case None => AccountKeepsInv(fl, w, a);
      case Some(id) =>
        if id < |w.extras| {
          ReaderKeepsInv(fl, w, a, id);
          StarterKeepsInv(fl, w, a, id);
        }
    }
  }

  lemma {:induction false} Reachable(fl: real -> real, actions: seq<Action>)
    ensures Inv(fl, Run(fl, actions))
  {
    if actions != [] {
      Reachable(fl, actions[..|actions| - 1]);
      NextKeepsInv(fl, Run(fl, actions[..|actions| - 1]), actions[|actions| - 1]);
    }
  }

  // What follows.

  /** The balance is the grants and the amounts of paid top-ups, less what was spent. A payment is paid only from a
  transaction that was read as fulfilled for all that was asked; being paid or not, it is credited as it stands, once. */
  lemma CreditIsConserved(fl: real -> real, actions: seq<Action>)
    ensures var w := Run(fl, actions);
            w.account.balance == Credits(w.account.payments, |w.account.payments|) - w.spent
    ensures var w := Run(fl, actions);
            forall i :: 0 <= i < |w.account.payments| && w.account.payments[i].state == Paid && w.account.payments[i].kind != Grant ==>
              w.account.payments[i].tx != 0 && InFull(fl, w.account.payments[i], w.extras[i].status)
  {
    Reachable(fl, actions);
    var w := Run(fl, actions);
    forall i | 0 <= i < |w.account.payments| && w.account.payments[i].state == Paid && w.account.payments[i].kind != Grant
      ensures w.account.payments[i].tx != 0 && InFull(fl, w.account.payments[i], w.extras[i].status)
    {
      assert PaymentInv(fl, w.account.payments[i], w.extras[i]);
    }
  }

  /** No step takes back that a payment is paid or changes what it is for. */
  lemma PaidStays(fl: real -> real, w: World, a: Action, id: nat)
    requires |w.extras| == |w.account.payments| && id < |w.extras|
    ensures |Next(fl, w, a).account.payments| == |Next(fl, w, a).extras| >= |w.extras|
    ensures var p, q := w.account.payments[id], Next(fl, w, a).account.payments[id];
            q.kind == p.kind && q.bill == p.bill && (p.state == Paid ==> q.state == Paid)
  {}

  lemma RunAt(fl: real -> real, actions: seq<Action>, n: nat)
    requires n < |actions|
    ensures Run(fl, actions[..n + 1]) == Next(fl, Run(fl, actions[..n]), actions[n])
  {
    assert actions[..n + 1][..n] == actions[..n];
  }

  ghost predicate IsPaid(w: World, id: nat) {
    |w.extras| == |w.account.payments| && id < |w.extras| && w.account.payments[id].state == PaymentState.Paid
  }

  /** The payment's transaction was read as paid in full. */
  ghost predicate ReadAsPaid(fl: real -> real, w: World, id: nat) {
    && |w.extras| == |w.account.payments| && id < |w.extras|
    && w.extras[id].readEnd && InFull(fl, w.account.payments[id], w.extras[id].status)
  }

  lemma SettlesAsPaid(fl: real -> real, w: World, id: nat)
    requires ReadAsPaid(fl, w, id)
    ensures IsPaid(Next(fl, w, SettleRead(id)), id)
  {}

  lemma IsPaidStays(fl: real -> real, w: World, a: Action, id: nat)
    requires IsPaid(w, id)
    ensures IsPaid(Next(fl, w, a), id)
  {
    PaidStays(fl, w, a, id);
  }

  lemma {:induction false} PaidEverAfter(fl: real -> real, actions: seq<Action>, m: nat, id: nat)
    requires m <= |actions| && IsPaid(Run(fl, actions[..m]), id)
    ensures IsPaid(Run(fl, actions), id)
    decreases |actions|
  {
    if m == |actions| {
      assert actions[..m] == actions;
    } else {
      var before := actions[..|actions| - 1];
      assert before[..m] == actions[..m];
      PaidEverAfter(fl, before, m, id);
      IsPaidStays(fl, Run(fl, before), actions[|actions| - 1], id);
    }
  }

  /** However a payment stands, pending or marked failed, it is paid once its transaction was read as paid in full and that
  is acted on, and stays paid ever after. */
  lemma ReadAsPaidStaysPaid(fl: real -> real, actions: seq<Action>, k: nat, id: nat)
    requires k < |actions| && actions[k] == SettleRead(id) && ReadAsPaid(fl, Run(fl, actions[..k]), id)
    ensures IsPaid(Run(fl, actions), id)
  {
    RunAt(fl, actions, k);
    SettlesAsPaid(fl, Run(fl, actions[..k]), id);
    PaidEverAfter(fl, actions, k + 1, id);
  }

  /** What was settled to be retried was never submitted, and will not be, unless it was tied to its transaction after it
  had been listed as interrupted. */
  lemma RetriedWasNotSubmitted(fl: real -> real, actions: seq<Action>, id: nat)
    requires id < |Run(fl, actions).extras| && Run(fl, actions).extras[id].retried
    ensures var x := Run(fl, actions).extras[id];
            x.submitted || x.stage == Ready ==> x.late
  {
    Reachable(fl, actions);
    assert PaymentInv(fl, Run(fl, actions).account.payments[id], Run(fl, actions).extras[id]);
  }

  /** No payment is tied after it is older than what counts as interrupted. */
  ghost predicate Timely(fl: real -> real, actions: seq<Action>) {
    actions == [] ||
      var before := actions[..|actions| - 1];
      var a := actions[|actions| - 1];
      Timely(fl, before) && (a.TieTx? && a.id < |Run(fl, before).extras| ==> !Run(fl, before).extras[a.id].aged)
  }

  /** Then nothing that is retried was submitted. */
  lemma {:induction false} TimelyTiesAreNotLate(fl: real -> real, actions: seq<Action>, id: nat)
    requires Timely(fl, actions) && id < |Run(fl, actions).extras|
    ensures !Run(fl, actions).extras[id].late
  {
    if actions != [] {
      var before := actions[..|actions| - 1];
      var w := Run(fl, before);
      Reachable(fl, before);
      if id < |w.extras| {
        TimelyTiesAreNotLate(fl, before, id);
        assert PaymentInv(fl, w.account.payments[id], w.extras[id]);
        LateOnlyByTie(fl, w, actions[|actions| - 1], id);
      } else {
        NewIsNotLate(fl, w, actions[|actions| - 1], id);
      }
    }
  }

  lemma LateOnlyByTie(fl: real -> real, w: World, a: Action, id: nat)
    requires |w.extras| == |w.account.payments| && id < |w.extras| && !w.extras[id].late
    requires w.extras[id].listed ==> w.extras[id].aged
    ensures id < |Next(fl, w, a).extras|
    ensures Next(fl, w, a).extras[id].late ==> a.TieTx? && a.id == id && w.extras[id].aged
  {
    match Of(a) {
      case None =>
      case Some(k) =>
        if k < |w.extras| {
          StarterTiesLate(w, a, k, id);
          ReaderKeepsLate(fl, w, a, k, id);
        }
    }
  }

  lemma StarterTiesLate(w: World, a: Action, k: nat, id: nat)
    requires |w.extras| == |w.account.payments| && k < |w.extras| && id < |w.extras|
    requires w.extras[id].listed ==> w.extras[id].aged
    ensures var now := NextOfStarter(w, a, k);
            |now.extras| == |w.extras|
            && (now.extras[id].late ==> w.extras[id].late || (a.TieTx? && k == id && w.extras[id].aged))
  {}

  lemma ReaderKeepsLate(fl: real -> real, w: World, a: Action, k: nat, id: nat)
    requires |w.extras| == |w.account.payments| && k < |w.extras| && id < |w.extras|
    ensures var now := NextOfReader(fl, w, a, k);
            |now.extras| == |w.extras| && (now.extras[id].late ==> w.extras[id].late)
  {}

  lemma NewIsNotLate(fl: real -> real, w: World, a: Action, id: nat)
    requires |w.extras| == |w.account.payments| && |w.extras| <= id < |Next(fl, w, a).extras|
    ensures !Next(fl, w, a).extras[id].late
  {}

  /** The card may still be charged, or was and the payment does not show it. */
  ghost predicate MayGoThrough(p: Payment, x: Extra) {
    OnCard(p.kind) && p.state != Paid && (p.state == Pending || x.stage == Ready || (x.submitted && x.status != Dead))
  }

  /** A saved card is charged again for the same, while an earlier charge may go through, only when that charge's block
  was lifted: by an administrator, or by a payment of the organisation that was paid. */
  lemma NoSecondCharge(fl: real -> real, actions: seq<Action>, kind: Kind, id: nat)
    requires Timely(fl, actions) && id < |Run(fl, actions).extras|
    requires var w := Run(fl, actions);
             && OnCard(kind) && Due(w.account, kind) && SlotOf(w.account.payments[id].kind) == SlotOf(kind)
             && MayGoThrough(w.account.payments[id], w.extras[id])
    ensures var w := Run(fl, actions);
            w.extras[id].lifted.Some?
            && match w.extras[id].lifted.value
               case Administrator => true
               case PaymentOf(q) => q < |w.account.payments| && w.account.payments[q].state == Paid && w.account.payments[q].kind != Grant
  {
    Reachable(fl, actions);
    var w := Run(fl, actions);
    assert PaymentInv(fl, w.account.payments[id], w.extras[id]);
    assert BlockInv(w.account.payments[id], w.extras[id], w.account);
    TimelyTiesAreNotLate(fl, actions, id);
  }

  // What the store does.

  /** A pending payment ends as it is told to, and a failed one only as paid; a failure may be retried or blocks. Nothing
  happens to any other. */
  lemma SettleDoes(a: Account, id: nat, paid: bool, retry: bool)
    requires id < |a.payments|
    ensures var now, state := Settle(a, id, paid, retry), a.payments[id].state;
            if state == Pending || (state == PaymentState.Failed && paid) then
              if paid then EndsPaid(a, now, id) else EndsFailed(a, now, id, !retry)
            else now == a
  {}

  /** A payment on the page for a top-up is always recorded, and a grant never is. A card is charged for a top-up when no
  such charge is under way and none blocks it, and for a charge when that is at this period, none is under way and none
  blocks it. A charge is paid on the page when none of the card is under way. */
  lemma DueIff(a: Account, c: nat, period: nat)
    ensures Due(a, TopUp) && !Due(a, Grant)
    ensures Due(a, Auto) == (AutoSlot !in a.blocked && !CardIsToppingUp(a))
    ensures Due(a, Charge(c, period, true)) == !CardIsCharged(a, c)
    ensures Due(a, Charge(c, period, false))
              == (c in a.periods && a.periods[c] == period && ChargeSlot(c) !in a.blocked && !CardIsCharged(a, c))
  {}

  ghost predicate CardIsToppingUp(a: Account) {
    exists i :: 0 <= i < |a.payments| && a.payments[i].state == Pending && a.payments[i].kind == Auto
  }

  ghost predicate CardIsCharged(a: Account, c: nat) {
    exists i :: 0 <= i < |a.payments| && a.payments[i].state == Pending
      && a.payments[i].kind.Charge? && a.payments[i].kind.charge == c && !a.payments[i].kind.onPage
  }

  /** A grant is a paid payment of its amount, which the balance has at once. */
  lemma GrantDoes(a: Account, micros: int)
    ensures var now := AddGrant(a, micros);
            && |now.payments| == |a.payments| + 1 && now.payments[..|a.payments|] == a.payments
            && now.payments[|a.payments|].kind == Grant && now.payments[|a.payments|].state == PaymentState.Paid
            && now.payments[|a.payments|].bill.amount == micros
            && now.balance == a.balance + micros && now.blocked == a.blocked && now.periods == a.periods
  {}

  // What a round and a charge do is what the steps do.

  /** What the round goes by was read before: a list of untied payments, and the transactions. */
  ghost predicate WasRead(w: World, l: Listed, read: Option<Status>)
    requires |w.extras| == |w.account.payments|
  {
    l.id < |w.extras|
    && var p, x := w.account.payments[l.id], w.extras[l.id];
       if l.tx == 0 then l.unstartedLong ==> x.listed
       else match read
         case None => true
         case Some(Open) => l.aDayOld ==> OnCard(p.kind) && x.readOpen
         case Some(status) => x.readEnd && x.status == status
  }

  /** The step of a round that a look at a listed payment stands for; reading it once more is no step of the account. */
  ghost function StepOf(l: Listed, read: Option<Status>): Action {
    if l.tx == 0 then (if l.unstartedLong then GiveUp(l.id) else ReadTx(l.id))
    else match read
      case None => ReadTx(l.id)
      case Some(Open) => if l.aDayOld then StopLooking(l.id) else ReadTx(l.id)
      case Some(_) => SettleRead(l.id)
  }

  lemma ReadsOnly(fl: real -> real, w: World, id: nat)
    requires |w.extras| == |w.account.payments| && id < |w.extras|
    ensures Next(fl, w, ReadTx(id)).account == w.account
  {}

  lemma SettlesIn(w: World, id: nat, paid: bool, retry: bool)
    requires |w.extras| == |w.account.payments| && id < |w.extras|
    ensures SettleIn(w, id, paid, retry).account == Settle(w.account, id, paid, retry)
  {}

  /** Looking at a listed payment comes to giving it up, to stopping, to settling it as it was read, or to nothing. */
  lemma CheckIsAStep(fl: real -> real, w: World, l: Listed, read: Option<Status>)
    requires |w.extras| == |w.account.payments| && WasRead(w, l, read)
    ensures Next(fl, w, StepOf(l, read)).account == Check(fl, w.account, l, read)
  {
    ReadsOnly(fl, w, l.id);
    SettlesIn(w, l.id, false, l.tx == 0);
    SettlesIn(w, l.id, InFull(fl, w.account.payments[l.id], w.extras[l.id].status), false);
  }

  // Periods.

  /** The step settles a charge of the period that is due as paid. */
  ghost predicate PaysPeriod(fl: real -> real, w: World, a: Action, c: nat)
    requires |w.extras| == |w.account.payments| && c in w.account.periods
  {
    PaysNow(fl, w, a) && match w.account.payments[a.id].kind
                         case Charge(d, period, _) => d == c && period == w.account.periods[c]
                         case _ => false
  }

  /** A charge moves to its next period with each step that pays the one that is due, and with no other. */
  lemma PeriodMovesExactly(fl: real -> real, w: World, a: Action, c: nat)
    requires Inv(fl, w) && c in w.account.periods
    ensures c in Next(fl, w, a).account.periods
    ensures Next(fl, w, a).account.periods[c] == w.account.periods[c] + if PaysPeriod(fl, w, a, c) then 1 else 0
  {
    match Of(a) {
      case None =>
      case Some(id) =>
        if id < |w.extras| {
          StarterKeepsPeriods(w, a, id);
          ReaderMovesPeriod(fl, w, a, id, c);
        }
    }
  }

  lemma StarterKeepsPeriods(w: World, a: Action, id: nat)
    requires |w.extras| == |w.account.payments| && id < |w.extras|
    ensures NextOfStarter(w, a, id).account.periods == w.account.periods
  {}

  lemma ReaderMovesPeriod(fl: real -> real, w: World, a: Action, id: nat, c: nat)
    requires |w.extras| == |w.account.payments| && id < |w.extras| && Of(a) == Some(id) && c in w.account.periods
    ensures var periods := NextOfReader(fl, w, a, id).account.periods;
            c in periods && periods[c] == w.account.periods[c] + if PaysPeriod(fl, w, a, c) then 1 else 0
  {}

  /** A card is charged for a period that there is, and a paid one is past. */
  ghost predicate PeriodInv(a: Account, p: Payment) {
    p.kind.Charge? && !p.kind.onPage ==>
      && p.kind.charge in a.periods && p.kind.period <= a.periods[p.kind.charge]
      && (p.state == PaymentState.Paid ==> p.kind.period < a.periods[p.kind.charge])
  }

  ghost predicate PeriodsInv(a: Account) { forall i :: 0 <= i < |a.payments| ==> PeriodInv(a, a.payments[i]) }

  lemma NextKeepsPeriods(fl: real -> real, w: World, a: Action)
    requires Inv(fl, w) && PeriodsInv(w.account)
    ensures PeriodsInv(Next(fl, w, a).account)
  {
    var now := Next(fl, w, a).account;
    forall i | 0 <= i < |now.payments| ensures PeriodInv(now, now.payments[i]) {
      var p := now.payments[i];
      if p.kind.Charge? && !p.kind.onPage {
        if i < |w.extras| {
          assert PeriodInv(w.account, w.account.payments[i]);
          PaidStays(fl, w, a, i);
          PeriodMovesExactly(fl, w, a, p.kind.charge);
          if w.account.payments[i].state != PaymentState.Paid { PaidByThatStep(fl, w, a, i); }
        } else {
          NewIsDue(fl, w, a, i);
        }
      }
    }
  }

  /** A payment becomes paid only by the step that settles it as paid. */
  lemma PaidByThatStep(fl: real -> real, w: World, a: Action, i: nat)
    requires |w.extras| == |w.account.payments| && i < |w.extras| && w.account.payments[i].state != PaymentState.Paid
    ensures i < |Next(fl, w, a).account.payments|
    ensures Next(fl, w, a).account.payments[i].state == PaymentState.Paid ==> PaysNow(fl, w, a) && a.id == i
  {}

  lemma NewIsDue(fl: real -> real, w: World, a: Action, i: nat)
    requires |w.extras| == |w.account.payments| && |w.extras| <= i < |Next(fl, w, a).account.payments|
    ensures var now := Next(fl, w, a).account;
            now.payments[i].kind.Charge? && !now.payments[i].kind.onPage ==> PeriodInv(now, now.payments[i])
  {}

  lemma {:induction false} PeriodsReachable(fl: real -> real, actions: seq<Action>)
    ensures PeriodsInv(Run(fl, actions).account)
  {
    if actions != [] {
      var before := actions[..|actions| - 1];
      PeriodsReachable(fl, before);
      Reachable(fl, before);
      NextKeepsPeriods(fl, Run(fl, before), actions[|actions| - 1]);
    }
  }

  /** Over every run, a period that a card was charged for and that is paid is never due again. */
  lemma PaidPeriodIsPast(fl: real -> real, actions: seq<Action>, id: nat)
    requires id < |Run(fl, actions).account.payments|
    requires var p := Run(fl, actions).account.payments[id]; p.state == PaymentState.Paid && p.kind.Charge? && !p.kind.onPage
    ensures var a := Run(fl, actions).account;
            var kind := a.payments[id].kind;
            kind.charge in a.periods && a.periods[kind.charge] > kind.period && !Due(a, kind)
  {
    PeriodsReachable(fl, actions);
    assert PeriodInv(Run(fl, actions).account, Run(fl, actions).account.payments[id]);
  }

  ghost predicate IsPast(a: Account, c: nat, period: nat) { c in a.periods && a.periods[c] > period }

  lemma {:induction false} PastEverAfter(fl: real -> real, actions: seq<Action>, m: nat, c: nat, period: nat)
    requires m <= |actions| && IsPast(Run(fl, actions[..m]).account, c, period)
    ensures IsPast(Run(fl, actions).account, c, period)
    decreases |actions|
  {
    if m == |actions| {
      assert actions[..m] == actions;
    } else {
      var before := actions[..|actions| - 1];
      assert before[..m] == actions[..m];
      PastEverAfter(fl, before, m, c, period);
      Reachable(fl, before);
      PeriodMovesExactly(fl, Run(fl, before), actions[|actions| - 1], c);
    }
  }

  /** Nor is one that was paid while it was due, on the page too. */
  lemma PaidWhileDueIsPast(fl: real -> real, actions: seq<Action>, k: nat, c: nat)
    requires k < |actions| && c in Run(fl, actions[..k]).account.periods
    requires PaysPeriod(fl, Run(fl, actions[..k]), actions[k], c)
    ensures var was, now := Run(fl, actions[..k]).account, Run(fl, actions).account;
            c in now.periods && now.periods[c] > was.periods[c] && !Due(now, Charge(c, was.periods[c], false))
  {
    RunAt(fl, actions, k);
    Reachable(fl, actions[..k]);
    PeriodMovesExactly(fl, Run(fl, actions[..k]), actions[k], c);
    PastEverAfter(fl, actions, k + 1, c, Run(fl, actions[..k]).account.periods[c]);
  }

  // Exactly when.

  predicate Free(a: Account, slot: Slot) { slot !in a.blocked && !Underway(a.payments, slot) }

  /** Nothing stands against another charge: the payment is paid, or failed and may be retried or was lifted. */
  ghost predicate Done(p: Payment, x: Extra) {
    p.state == Paid || (p.state == Failed && (x.retried || x.lifted.Some?))
  }

  /** A card is charged for the same again exactly when every earlier charge of it is done: what blocks it is always one
  of them, and what does not block it never is. */
  lemma ChargedAgainIff(fl: real -> real, actions: seq<Action>, slot: Slot)
    requires slot != NoSlot
    ensures var w := Run(fl, actions);
            Free(w.account, slot) <==>
              forall i :: 0 <= i < |w.extras| && SlotOf(w.account.payments[i].kind) == slot ==> Done(w.account.payments[i], w.extras[i])
  {
    Reachable(fl, actions);
    var w := Run(fl, actions);
    forall i | 0 <= i < |w.extras| && SlotOf(w.account.payments[i].kind) == slot && Free(w.account, slot)
      ensures Done(w.account.payments[i], w.extras[i])
    {
      assert BlockInv(w.account.payments[i], w.extras[i], w.account);
    }
    if slot in w.account.blocked {
      var i :| 0 <= i < |w.extras| && Holding(w.account.payments[i], w.extras[i], slot);
      assert SlotOf(w.account.payments[i].kind) == slot && !Done(w.account.payments[i], w.extras[i]);
    }
  }

  /** When payments are tied in time, a card is charged for the same again, although one charge of it may go through,
  exactly when that charge failed and its block was lifted, and every other is done. */
  lemma SecondChargeIff(fl: real -> real, actions: seq<Action>, slot: Slot, id: nat)
    requires Timely(fl, actions) && id < |Run(fl, actions).extras| && slot != NoSlot
    requires var w := Run(fl, actions);
             SlotOf(w.account.payments[id].kind) == slot && MayGoThrough(w.account.payments[id], w.extras[id])
    ensures var w := Run(fl, actions);
            Free(w.account, slot) <==>
              && w.account.payments[id].state == Failed && w.extras[id].lifted.Some?
              && forall i :: 0 <= i < |w.extras| && i != id && SlotOf(w.account.payments[i].kind) == slot ==>
                   Done(w.account.payments[i], w.extras[i])
  {
    var w := Run(fl, actions);
    ChargedAgainIff(fl, actions, slot);
    TimelyTiesAreNotLate(fl, actions, id);
    Reachable(fl, actions);
    var p, x := w.account.payments[id], w.extras[id];
    assert PaymentInv(fl, p, x);
    assert Done(p, x) <==> p.state == Failed && x.lifted.Some?;
  }

  /** A payment that is not paid yet, and whose transaction was read as paid in full. */
  ghost predicate PaysNow(fl: real -> real, w: World, a: Action)
    requires |w.extras| == |w.account.payments|
  {
    && a.SettleRead? && a.id < |w.extras| && w.extras[a.id].readEnd
    && w.account.payments[a.id].state != Paid && InFull(fl, w.account.payments[a.id], w.extras[a.id].status)
  }

  /** A block is lifted exactly by the administrator's unblocking it, or by settling a payment as paid. */
  lemma LiftedExactlyBy(fl: real -> real, w: World, a: Action, slot: Slot)
    requires Inv(fl, w) && slot in w.account.blocked
    ensures slot !in Next(fl, w, a).account.blocked <==> a == Unblock(slot) || PaysNow(fl, w, a)
  {
    match Of(a) {
      case None =>
      case Some(id) =>
        if id < |w.extras| {
          StarterLiftsNothing(w, a, id, slot);
          ReaderLiftsExactly(fl, w, a, id, slot);
        }
    }
  }

  lemma StarterLiftsNothing(w: World, a: Action, id: nat, slot: Slot)
    requires |w.extras| == |w.account.payments| && id < |w.extras| && slot in w.account.blocked
    ensures slot in NextOfStarter(w, a, id).account.blocked
  {}

  lemma ReaderLiftsExactly(fl: real -> real, w: World, a: Action, id: nat, slot: Slot)
    requires |w.extras| == |w.account.payments| && id < |w.extras| && slot in w.account.blocked && Of(a) == Some(id)
    ensures slot !in NextOfReader(fl, w, a, id).account.blocked <==> PaysNow(fl, w, a)
  {}

  /** Giving up a payment that was listed as interrupted strands a charge exactly when that was submitted, or is about to
  be, by then. It never does while the payment has no transaction, which the store could ask for as it settles. */
  lemma GiveUpStrandsIff(fl: real -> real, w: World, id: nat)
    requires Inv(fl, w) && id < |w.extras| && w.extras[id].listed && w.account.payments[id].state == Pending
    ensures var x, y := w.extras[id], Next(fl, w, GiveUp(id)).extras[id];
            && y.retried
            && (y.submitted || y.stage == Ready <==> x.submitted || x.stage == Ready)
            && (x.submitted || x.stage == Ready ==> w.account.payments[id].tx != 0)
  {
    assert PaymentInv(fl, w.account.payments[id], w.extras[id]);
  }

  /** From any state, a listed card payment that was tied before it is given up is retried and then submitted. */
  lemma LateTieStrands(fl: real -> real, w: World, id: nat)
    requires Inv(fl, w) && id < |w.extras| && w.extras[id].late && w.extras[id].stage == Ready
    requires w.account.payments[id].state == Pending && OnCard(w.account.payments[id].kind)
    ensures var x := Next(fl, Next(fl, w, GiveUp(id)), Submit(id)).extras[id];
            x.retried && x.submitted
  {
    assert PaymentInv(fl, w.account.payments[id], w.extras[id]);
    GiveUpStrandsIff(fl, w, id);
  }

  // What the assumptions are for.

  ghost predicate NoAdministrator(actions: seq<Action>) { forall a :: a in actions ==> !a.Unblock? }

  lemma RunAdds(fl: real -> real, actions: seq<Action>, a: Action)
    ensures Run(fl, actions + [a]) == Next(fl, Run(fl, actions), a)
    ensures NoAdministrator(actions) && !a.Unblock? ==> NoAdministrator(actions + [a])
  {
    assert (actions + [a])[..|actions|] == actions;
  }

  const SUBMITTED := NEW.(stage := Over, submitted := true)

  /** The world with one payment more. */
  ghost function Grown(w: World, p: Payment, x: Extra): World {
    w.(account := w.account.(payments := w.account.payments + [p]), extras := w.extras + [x])
  }

  lemma StarterSteps(w: World, p: Payment, x: Extra, y: Extra, a: Action)
    requires |w.extras| == |w.account.payments| && p.state == Pending && OnCard(p.kind)
    requires || (a.GetTx? && a.tx != 0 && x.stage == Starting && y == x.(stage := Has(a.tx)))
             || (a.StartFails? && x.stage == Starting && y == x.(stage := Failing(true)))
             || (a.Submit? && x.stage == Ready && y == x.(stage := Over, submitted := true))
             || (a.TurnAway? && x.stage == Ready && y == x.(stage := Failing(true)))
             || (a.Refuse? && x.stage == Ready && y == x.(stage := Failing(false)))
    ensures NextOfStarter(Grown(w, p, x), a, |w.extras|) == Grown(w, p, y)
  {
    assert (w.extras + [x])[|w.extras| := y] == w.extras + [y];
  }

  lemma StarterTies(w: World, p: Payment, x: Extra)
    requires |w.extras| == |w.account.payments| && p.state == Pending && x.stage.Has?
    ensures NextOfStarter(Grown(w, p, x), TieTx(|w.extras|, false), |w.extras|)
         == Grown(w, p.(tx := x.stage.tx), x.(stage := Ready, late := x.listed))
  {
    var y, q := x.(stage := Ready, late := x.listed), p.(tx := x.stage.tx);
    assert (w.extras + [x])[|w.extras| := y] == w.extras + [y];
    assert (w.account.payments + [p])[|w.extras| := q] == w.account.payments + [q];
  }

  lemma TieSteps(fl: real -> real, w: World, kind: Kind, bill: Money.Payment, tx: nat)
    requires |w.extras| == |w.account.payments| && OnCard(kind) && Due(w.account, kind) && tx != 0
    ensures var id, p := |w.extras|, Payment(kind, bill, Pending, 0);
            && Next(fl, w, NewPayment(kind, bill)) == Grown(w, p, NEW)
            && Next(fl, Grown(w, p, NEW), GetTx(id, tx)) == Grown(w, p, NEW.(stage := Has(tx)))
            && Next(fl, Grown(w, p, NEW.(stage := Has(tx))), TieTx(id, false)) == Grown(w, p.(tx := tx), NEW.(stage := Ready))
  {
    var id, p := |w.extras|, Payment(kind, bill, Pending, 0);
    StarterSteps(w, p, NEW, NEW.(stage := Has(tx)), GetTx(id, tx));
    StarterTies(w, p, NEW.(stage := Has(tx)));
  }

  /** Nothing disturbs a charge of the card until it is tied, */
  lemma ChargeIsTied(fl: real -> real, actions: seq<Action>, kind: Kind, bill: Money.Payment, tx: nat) returns (more: seq<Action>)
    requires OnCard(kind) && Due(Run(fl, actions).account, kind) && NoAdministrator(actions) && tx != 0
    ensures NoAdministrator(more)
    ensures Run(fl, more) == Grown(Run(fl, actions), Payment(kind, bill, Pending, tx), NEW.(stage := Ready))
  {
    var w := Run(fl, actions);
    var id := |w.extras|;
    TieSteps(fl, w, kind, bill, tx);
    var a1 := actions + [NewPayment(kind, bill)];
    RunAdds(fl, actions, NewPayment(kind, bill));
    var a2 := a1 + [GetTx(id, tx)];
    RunAdds(fl, a1, GetTx(id, tx));
    more := a2 + [TieTx(id, false)];
    RunAdds(fl, a2, TieTx(id, false));
  }

  /** and then submitted, and its answer is lost. */
  lemma ChargeIsSubmitted(fl: real -> real, actions: seq<Action>, kind: Kind, bill: Money.Payment, tx: nat)
    returns (more: seq<Action>)
    requires OnCard(kind) && Due(Run(fl, actions).account, kind) && NoAdministrator(actions) && tx != 0
    ensures NoAdministrator(more)
    ensures Run(fl, more) == Grown(Run(fl, actions), Payment(kind, bill, Pending, tx), SUBMITTED)
  {
    var w := Run(fl, actions);
    var tied := ChargeIsTied(fl, actions, kind, bill, tx);
    more := tied + [Submit(|w.extras|)];
    RunAdds(fl, tied, Submit(|w.extras|));
    StarterSteps(w, Payment(kind, bill, Pending, tx), NEW.(stage := Ready), SUBMITTED, Submit(|w.extras|));
  }

  // What a charge does.

  lemma FailStep(fl: real -> real, w: World, p: Payment, x: Extra)
    requires |w.extras| == |w.account.payments| && p.state == Pending && OnCard(p.kind) && x.stage.Failing?
    ensures var was := Grown(w, p, x);
            EndsFailed(was.account, Next(fl, was, Fail(|w.extras|)).account, |w.extras|, !x.stage.retry)
  {
    var was, id := Grown(w, p, x), |w.extras|;
    assert was.account.payments[id] == p;
  }

  lemma ReadStep(fl: real -> real, w: World, p: Payment, status: Status)
    requires |w.extras| == |w.account.payments| && p.state == Pending && p.tx != 0 && OnCard(p.kind) && status != Open
    ensures var was, id := Grown(w, p, SUBMITTED), |w.extras|;
            && Next(fl, was, EndTx(id, status)) == Grown(w, p, SUBMITTED.(status := status))
            && Next(fl, Grown(w, p, SUBMITTED.(status := status)), ReadTx(id))
                 == Grown(w, p, SUBMITTED.(status := status, readEnd := true))
  {
    var x := SUBMITTED;
    var y := x.(status := status);
    assert (w.extras + [x])[|w.extras| := y] == w.extras + [y];
    var z := y.(readEnd := true);
    assert (w.extras + [y])[|w.extras| := z] == w.extras + [z];
  }

  lemma SettleStep(fl: real -> real, w: World, p: Payment, status: Status)
    requires |w.extras| == |w.account.payments| && p.state == Pending && p.tx != 0 && OnCard(p.kind) && status != Open
    ensures var was, id := Grown(w, p, SUBMITTED.(status := status, readEnd := true)), |w.extras|;
            var now := Next(fl, was, SettleRead(id)).account;
            if InFull(fl, p, status) then EndsPaid(was.account, now, id) else EndsFailed(was.account, now, id, true)
  {
    var was, id := Grown(w, p, SUBMITTED.(status := status, readEnd := true)), |w.extras|;
    assert was.account.payments[id] == p && was.extras[id] == SUBMITTED.(status := status, readEnd := true);
  }

  /** Whatever course a charge takes, what it does to the account is what a run of its steps does. */
  lemma CourseIsARun(fl: real -> real, actions: seq<Action>, kind: Kind, bill: Money.Payment, course: Course)
    returns (more: seq<Action>)
    requires OnCard(kind) && Due(Run(fl, actions).account, kind) && NoAdministrator(actions)
    ensures NoAdministrator(more)
    ensures Charged(fl, Run(fl, actions).account, Run(fl, more).account, kind, bill, course)
  {
    var w := Run(fl, actions);
    var id, p := |w.extras|, Payment(kind, bill, Pending, course.tx);
    if course.tx == 0 || !course.tied {
      more := StartFailsRun(fl, actions, kind, bill);
    } else {
      match course.answer {
        case TurnedAway => more := TiedThenFails(fl, actions, kind, bill, course.tx, TurnAway(id), true);
        case Refused => more := TiedThenFails(fl, actions, kind, bill, course.tx, Refuse(id), false);
        case NoAnswer => more := ChargeIsSubmitted(fl, actions, kind, bill, course.tx);
        case Read(Open) => more := ChargeIsSubmitted(fl, actions, kind, bill, course.tx);
        case Read(status) =>
          var a := ChargeIsSubmitted(fl, actions, kind, bill, course.tx);
          var b := a + [EndTx(id, status)];
          RunAdds(fl, a, EndTx(id, status));
          var c := b + [ReadTx(id)];
          RunAdds(fl, b, ReadTx(id));
          more := c + [SettleRead(id)];
          RunAdds(fl, c, SettleRead(id));
          ReadStep(fl, w, p, status);
          SettleStep(fl, w, p, status);
      }
    }
  }

  lemma StartFailsRun(fl: real -> real, actions: seq<Action>, kind: Kind, bill: Money.Payment) returns (more: seq<Action>)
    requires OnCard(kind) && Due(Run(fl, actions).account, kind) && NoAdministrator(actions)
    ensures NoAdministrator(more)
    ensures var w := Run(fl, actions);
            EndsFailed(Grown(w, Payment(kind, bill, Pending, 0), NEW).account, Run(fl, more).account, |w.extras|, false)
  {
    var w := Run(fl, actions);
    var id, p := |w.extras|, Payment(kind, bill, Pending, 0);
    TieSteps(fl, w, kind, bill, 1);
    var a := actions + [NewPayment(kind, bill)];
    RunAdds(fl, actions, NewPayment(kind, bill));
    var b := a + [StartFails(id)];
    RunAdds(fl, a, StartFails(id));
    StarterSteps(w, p, NEW, NEW.(stage := Failing(true)), StartFails(id));
    more := b + [Fail(id)];
    RunAdds(fl, b, Fail(id));
    FailStep(fl, w, p, NEW.(stage := Failing(true)));
  }

  lemma TiedThenFails(fl: real -> real, actions: seq<Action>, kind: Kind, bill: Money.Payment, tx: nat, a: Action, retry: bool)
    returns (more: seq<Action>)
    requires OnCard(kind) && Due(Run(fl, actions).account, kind) && NoAdministrator(actions) && tx != 0
    requires a == if retry then TurnAway(|Run(fl, actions).extras|) else Refuse(|Run(fl, actions).extras|)
    ensures NoAdministrator(more)
    ensures var w := Run(fl, actions);
            EndsFailed(Grown(w, Payment(kind, bill, Pending, tx), NEW).account, Run(fl, more).account, |w.extras|, !retry)
  {
    var w := Run(fl, actions);
    var id, p := |w.extras|, Payment(kind, bill, Pending, tx);
    var tied := ChargeIsTied(fl, actions, kind, bill, tx);
    var b := tied + [a];
    RunAdds(fl, tied, a);
    StarterSteps(w, p, NEW.(stage := Ready), NEW.(stage := Failing(retry)), a);
    more := b + [Fail(id)];
    RunAdds(fl, b, Fail(id));
    FailStep(fl, w, p, NEW.(stage := Failing(retry)));
  }

  /** A charge that stops without an end: it failed, and blocks its slot. */
  lemma StopsWithoutEnd(fl: real -> real, bill: Money.Payment) returns (actions: seq<Action>)
    ensures NoAdministrator(actions)
    ensures var w := Run(fl, actions);
            && w.account == Account([Payment(Auto, bill, Failed, 1)], 0, {AutoSlot}, map[])
            && w.extras == [SUBMITTED.(readOpen := true)]
  {
    var none := World(Account([], 0, {}, map[]), [], 0);
    assert Run(fl, []) == none;
    var a := ChargeIsSubmitted(fl, [], Auto, bill, 1);
    var b := a + [ReadTx(0)];
    RunAdds(fl, a, ReadTx(0));
    actions := b + [StopLooking(0)];
    RunAdds(fl, b, StopLooking(0));
    StopLookingBlocks(fl, none, bill);
  }

  lemma StopLookingBlocks(fl: real -> real, w: World, bill: Money.Payment)
    requires w == World(Account([], 0, {}, map[]), [], 0)
    ensures var p, x := Payment(Auto, bill, Pending, 1), SUBMITTED;
            var now := Next(fl, Next(fl, Grown(w, p, x), ReadTx(0)), StopLooking(0));
            && now.account == Account([Payment(Auto, bill, Failed, 1)], 0, {AutoSlot}, map[])
            && now.extras == [SUBMITTED.(readOpen := true)]
  {
    var p, x := Payment(Auto, bill, Pending, 1), SUBMITTED;
    assert Next(fl, Grown(w, p, x), ReadTx(0)) == Grown(w, p, x.(readOpen := true)) by {
      assert [x][0 := x.(readOpen := true)] == [x.(readOpen := true)];
    }
    assert [p][0 := p.(state := PaymentState.Failed)] == [Payment(Auto, bill, Failed, 1)];
  }

  /** Without an administrator, a recurring charge that is paid lifts the block of an automatic top-up which may still go
  through, and the card is charged for another. */
  lemma PaidChargeLiftsTheBlock(fl: real -> real, bill: Money.Payment) returns (actions: seq<Action>)
    requires Money.IsDouble(fl) && Money.WholeCentimes(bill)
    ensures NoAdministrator(actions)
    ensures var w := Run(fl, actions);
            && |w.extras| == 3
            && w.account.payments[0].kind == w.account.payments[2].kind == Auto
            && w.extras[0].submitted && w.extras[0].status == Open && w.extras[2].submitted && w.extras[2].status == Open
  {
    var a := StopsWithoutEnd(fl, bill);
    var b := a + [NewCharge(0)];
    RunAdds(fl, a, NewCharge(0));
    var c := ChargeIsSubmitted(fl, b, Charge(0, 0, false), bill, 1);
    var d := ChargeIsPaid(fl, c, 1, bill);
    actions := ChargeIsSubmitted(fl, d, Auto, bill, 1);
  }

  lemma ChargeIsPaid(fl: real -> real, actions: seq<Action>, id: nat, bill: Money.Payment) returns (more: seq<Action>)
    requires Money.IsDouble(fl) && Money.WholeCentimes(bill) && NoAdministrator(actions)
    requires id < |Run(fl, actions).extras| && Run(fl, actions).extras[id] == SUBMITTED
    requires var p := Run(fl, actions).account.payments[id]; p.bill == bill && p.state == Pending && p.tx != 0
    ensures NoAdministrator(more)
    ensures var w, v := Run(fl, actions), Run(fl, more);
            && |v.extras| == |w.extras| && v.account.blocked == {}
            && v.account.payments == w.account.payments[id := w.account.payments[id].(state := PaymentState.Paid)]
            && forall i :: 0 <= i < |v.extras| && i != id ==> v.extras[i] == w.extras[i].(lifted := v.extras[i].lifted)
  {
    var status := Fulfilled("CHF", fl((Money.Total(bill) / 10_000) as real / 100.0));
    var w := Run(fl, actions);
    FullAmount(fl, w.account.payments[id], status);
    var a := actions + [EndTx(id, status)];
    RunAdds(fl, actions, EndTx(id, status));
    var b := a + [ReadTx(id)];
    RunAdds(fl, a, ReadTx(id));
    more := b + [SettleRead(id)];
    RunAdds(fl, b, SettleRead(id));
    ReadsThenSettles(fl, w, id, status);
    assert Run(fl, more) == Next(fl, Next(fl, Next(fl, w, EndTx(id, status)), ReadTx(id)), SettleRead(id));
  }

  lemma FullAmount(fl: real -> real, p: Payment, status: Status)
    requires Money.IsDouble(fl) && Money.WholeCentimes(p.bill)
    requires status == Fulfilled("CHF", fl((Money.Total(p.bill) / 10_000) as real / 100.0))
    ensures InFull(fl, p, status)
  {
    Money.NothingOverflows(p.bill, 0);
    Money.PaidInFullIff(fl, p.bill, "CHF", Money.Total(p.bill) / 10_000);
  }

  lemma ReadsThenSettles(fl: real -> real, w: World, id: nat, status: Status)
    requires |w.extras| == |w.account.payments| && id < |w.extras| && w.extras[id] == SUBMITTED
    requires var p := w.account.payments[id]; p.state == Pending && p.tx != 0 && InFull(fl, p, status)
    ensures var v := Next(fl, Next(fl, Next(fl, w, EndTx(id, status)), ReadTx(id)), SettleRead(id));
            && |v.extras| == |w.extras| && v.account.blocked == {}
            && v.account.payments == w.account.payments[id := w.account.payments[id].(state := PaymentState.Paid)]
            && forall i :: 0 <= i < |v.extras| && i != id ==> v.extras[i] == w.extras[i].(lifted := v.extras[i].lifted)
  {
    var ended := Put(w, id, SUBMITTED.(status := status));
    assert Next(fl, w, EndTx(id, status)) == ended;
    var read := Put(w, id, SUBMITTED.(status := status, readEnd := true));
    assert Next(fl, ended, ReadTx(id)) == read;
    assert read.extras[id].readEnd;
  }

  /** An account with one automatic top-up. */
  ghost function One(bill: Money.Payment, state: PaymentState, tx: nat, x: Extra): World {
    World(Account([Payment(Auto, bill, state, tx)], 0, {}, map[]), [x], 0)
  }

  lemma PutOne(bill: Money.Payment, state: PaymentState, tx: nat, x: Extra, y: Extra)
    ensures Put(One(bill, state, tx, x), 0, y) == One(bill, state, tx, y)
  {
    assert [x][0 := y] == [y];
  }

  lemma ListedBeforeTied(fl: real -> real, bill: Money.Payment)
    ensures var w := One(bill, Pending, 0, NEW);
            && Next(fl, Next(fl, Next(fl, w, GetTx(0, 1)), GrowOld(0)), ListUntied(0))
                 == One(bill, Pending, 0, NEW.(stage := Has(1), aged := true, listed := true))
  {
    PutOne(bill, Pending, 0, NEW, NEW.(stage := Has(1)));
    PutOne(bill, Pending, 0, NEW.(stage := Has(1)), NEW.(stage := Has(1), aged := true));
    PutOne(bill, Pending, 0, NEW.(stage := Has(1), aged := true), NEW.(stage := Has(1), aged := true, listed := true));
  }

  lemma TiedBeforeGivenUp(fl: real -> real, bill: Money.Payment, x: Extra)
    requires x == NEW.(stage := Has(1), aged := true, listed := true)
    ensures var y := x.(stage := Ready, late := true);
            && Next(fl, One(bill, Pending, 0, x), TieTx(0, false)) == One(bill, Pending, 1, y)
            && Next(fl, One(bill, Pending, 1, y), GiveUp(0)) == One(bill, Failed, 1, y.(retried := true))
            && Next(fl, One(bill, Failed, 1, y.(retried := true)), Submit(0))
                 == One(bill, Failed, 1, y.(retried := true, stage := Over, submitted := true))
  {
    var y := x.(stage := Ready, late := true);
    PutOne(bill, Pending, 0, x, y);
    assert [Payment(Auto, bill, Pending, 0)][0 := Payment(Auto, bill, Pending, 1)] == [Payment(Auto, bill, Pending, 1)];
    assert [Payment(Auto, bill, Pending, 1)][0 := Payment(Auto, bill, Failed, 1)] == [Payment(Auto, bill, Failed, 1)];
    assert [y][0 := y.(retried := true, lifted := None)] == [y.(retried := true)];
    PutOne(bill, Failed, 1, y.(retried := true), y.(retried := true, stage := Over, submitted := true));
  }

  lemma NotTimely(fl: real -> real, actions: seq<Action>, a: Action)
    ensures a.TieTx? && a.id < |Run(fl, actions).extras| && Run(fl, actions).extras[a.id].aged ==> !Timely(fl, actions + [a])
    ensures !Timely(fl, actions) ==> !Timely(fl, actions + [a])
  {
    assert (actions + [a])[..|actions|] == actions;
  }

  /** A charge that is tied late is retried although it was submitted, and the next one is due. */
  lemma LateTieIsChargedTwice(fl: real -> real, bill: Money.Payment) returns (actions: seq<Action>)
    ensures !Timely(fl, actions)
    ensures var w := Run(fl, actions);
            |w.extras| == 1 && w.extras[0].retried && w.extras[0].submitted && w.extras[0].status == Open && Due(w.account, Auto)
  {
    var a := [] + [NewPayment(Auto, bill)];
    RunAdds(fl, [], NewPayment(Auto, bill));
    assert Run(fl, a) == One(bill, Pending, 0, NEW);
    var b := a + [GetTx(0, 1)];
    RunAdds(fl, a, GetTx(0, 1));
    var c := b + [GrowOld(0)];
    RunAdds(fl, b, GrowOld(0));
    var d := c + [ListUntied(0)];
    RunAdds(fl, c, ListUntied(0));
    ListedBeforeTied(fl, bill);
    actions := TiesLate(fl, d, bill);
  }

  lemma TiesLate(fl: real -> real, d: seq<Action>, bill: Money.Payment) returns (actions: seq<Action>)
    requires Run(fl, d) == One(bill, Pending, 0, NEW.(stage := Has(1), aged := true, listed := true))
    ensures !Timely(fl, actions)
    ensures var w := Run(fl, actions);
            |w.extras| == 1 && w.extras[0].retried && w.extras[0].submitted && w.extras[0].status == Open && Due(w.account, Auto)
  {
    TiedBeforeGivenUp(fl, bill, NEW.(stage := Has(1), aged := true, listed := true));
    var e := d + [TieTx(0, false)];
    RunAdds(fl, d, TieTx(0, false));
    NotTimely(fl, d, TieTx(0, false));
    var f := e + [GiveUp(0)];
    RunAdds(fl, e, GiveUp(0));
    NotTimely(fl, e, GiveUp(0));
    actions := f + [Submit(0)];
    RunAdds(fl, f, Submit(0));
    NotTimely(fl, f, Submit(0));
  }
}
