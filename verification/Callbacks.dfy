/** Payment callbacks in any order and number, while ordinary recharges stay out of their key space. */
module Callbacks {
  import opened Model
  import opened Books
  import opened Sums
  import opened PaymentSpec
  import opened Invariants
  import opened PaymentSteps
  import opened PaymentTheorems
  import opened Runs

  // ---- the discipline ----

  predicate IsPaymentKey(key: string) { |key| >= 8 && key[..8] == "PAYMENT:" }

  /** Ordinary recharge keys do not start with "PAYMENT:" and event ids end in no character that trim drops. */
  predicate Disciplined(l: Label) {
    && (l.DoRecharge? ==> !IsPaymentKey(RechargeKey(l.requested, l.uuid)))
    && (l.DoCallback? ==> PlainEvent(l.request.eventId))
  }

  predicate PlainEvent(eventId: string) { eventId == "" || !Trimmable(eventId[|eventId| - 1]) }

  lemma PlainEventKey(eventId: string)
    requires PlainEvent(eventId)
    ensures PaymentKey(eventId) == "PAYMENT:" + eventId && IsPaymentKey("PAYMENT:" + eventId)
  {
    var key := "PAYMENT:" + eventId;
    assert key[0] == 'P' && key[|key| - 1] == if eventId == "" then ':' else eventId[|eventId| - 1];
  }

  lemma EventKeysDiffer(e: string, f: string)
    requires "PAYMENT:" + e == "PAYMENT:" + f
    ensures e == f
  {
    assert e == ("PAYMENT:" + e)[8..] && f == ("PAYMENT:" + f)[8..];
  }

  ghost predicate Backs(payments: map<int, Payment>, p: int, r: RechargeRow) {
    p in payments && r.key == "PAYMENT:" + payments[p].eventId && r.user == payments[p].user
        && r.amount == payments[p].amount
  }

  ghost predicate BackedBy(recharges: map<int, RechargeRow>, b: int, payments: map<int, Payment>, p: int) {
    b in recharges && Backs(payments, p, recharges[b])
  }

  /** Every payment has its recharge, and only payments have recharges with payment keys. */
  ghost predicate Credited(recharges: map<int, RechargeRow>, payments: map<int, Payment>) {
    PaymentsBacked(recharges, payments) && KeysUsedByPayments(recharges, payments)
  }

  ghost predicate PaymentsBacked(recharges: map<int, RechargeRow>, payments: map<int, Payment>) {
    forall p :: p in payments ==> exists b :: BackedBy(recharges, b, payments, p)
  }

  ghost predicate KeysUsedByPayments(recharges: map<int, RechargeRow>, payments: map<int, Payment>) {
    forall b :: b in recharges && IsPaymentKey(recharges[b].key) ==> exists p :: Backs(payments, p, recharges[b])
  }

  lemma CreditedWithRecharge(recharges: map<int, RechargeRow>, payments: map<int, Payment>, b: int, r: RechargeRow)
    requires Credited(recharges, payments) && b !in recharges && !IsPaymentKey(r.key)
    ensures Credited(recharges[b := r], payments)
  {
    var recharges' := recharges[b := r];
    forall p | p in payments ensures exists c :: BackedBy(recharges', c, payments, p) {
      var c :| BackedBy(recharges, c, payments, p);
      assert BackedBy(recharges', c, payments, p);
    }
  }

  lemma BackedWithPayment(recharges: map<int, RechargeRow>, payments: map<int, Payment>, b: int, r: RechargeRow,
                          id: int, p: Payment)
    requires PaymentsBacked(recharges, payments) && b !in recharges && id !in payments
    requires r == RechargeRow(p.user, p.amount, "PAYMENT:" + p.eventId)
    ensures PaymentsBacked(recharges[b := r], payments[id := p])
  {
    var recharges', payments' := recharges[b := r], payments[id := p];
    assert BackedBy(recharges', b, payments', id);
    forall q | q in payments ensures exists c :: BackedBy(recharges', c, payments', q) {
      var c :| BackedBy(recharges, c, payments, q);
      assert BackedBy(recharges', c, payments', q);
    }
  }

  lemma UsedWithPayment(recharges: map<int, RechargeRow>, payments: map<int, Payment>, b: int, r: RechargeRow, id: int,
                        p: Payment)
    requires KeysUsedByPayments(recharges, payments) && b !in recharges && id !in payments
    requires r == RechargeRow(p.user, p.amount, "PAYMENT:" + p.eventId)
    ensures KeysUsedByPayments(recharges[b := r], payments[id := p])
  {
    var recharges', payments' := recharges[b := r], payments[id := p];
    assert Backs(payments', id, r);
    forall c | c in recharges && IsPaymentKey(recharges[c].key) ensures exists q :: Backs(payments', q, recharges'[c]) {
      var q :| Backs(payments, q, recharges[c]);
      assert Backs(payments', q, recharges'[c]);
    }
  }

  lemma BackedAfterRefund(recharges: map<int, RechargeRow>, payments: map<int, Payment>, p: int)
    requires PaymentsBacked(recharges, payments)
    ensures PaymentsBacked(recharges, Refunded(payments, p))
  {
    var payments' := Refunded(payments, p);
    forall q | q in payments' ensures exists c :: BackedBy(recharges, c, payments', q) {
      var c :| BackedBy(recharges, c, payments, q);
      assert BackedBy(recharges, c, payments', q);
    }
  }

  lemma UsedAfterRefund(recharges: map<int, RechargeRow>, payments: map<int, Payment>, p: int)
    requires KeysUsedByPayments(recharges, payments)
    ensures KeysUsedByPayments(recharges, Refunded(payments, p))
  {
    var payments' := Refunded(payments, p);
    forall c | c in recharges && IsPaymentKey(recharges[c].key) ensures exists q :: Backs(payments', q, recharges[c]) {
      var q :| Backs(payments, q, recharges[c]);
      assert Backs(payments', q, recharges[c]);
    }
  }

  /** Under the discipline a new event's key is unused, so a new payment is always credited. */
  lemma NewEventKeyIsFree(cfg: Config, db: Db, eventId: string)
    requires Inv(cfg, db) && Credited(db.recharges, db.payments) && PlainEvent(eventId)
    requires forall p :: !HasEvent(db.payments, p, eventId)
    ensures RechargeOp(PaymentKey(eventId)) !in db.idem
  {
    PlainEventKey(eventId);
    if RechargeOp(PaymentKey(eventId)) in db.idem {
      KeyHasRecharge(cfg, db, PaymentKey(eventId));
      var b :| HasKey(db.recharges, b, PaymentKey(eventId));
      var p :| Backs(db.payments, p, db.recharges[b]);
      EventKeysDiffer(eventId, db.payments[p].eventId);
      assert HasEvent(db.payments, p, eventId);
      assert false;
    }
  }

  lemma KeyHasRecharge(cfg: Config, db: Db, key: string)
    requires Inv(cfg, db) && RechargeOp(key) in db.idem
    ensures exists b :: HasKey(db.recharges, b, key)
  {}

  lemma RecordedPaymentIsNew(db: Db, snap: Db, request: CallbackRequest, id: int, uuid: string, b: int)
    requires Earlier(snap, db) && Callback(db, snap, true, request, id, uuid, b).After(db) != db
    ensures forall p :: !HasEvent(db.payments, p, request.eventId)
    ensures id !in db.payments && IsBusinessUser(db.users, request.user) && request.amount > 0
  {
    hide RechargeWallet, NoteFree, WithNote;
  }

  lemma DisciplinedCallback(cfg: Config, db: Db, snap: Db, verified: bool, request: CallbackRequest, id: int,
                            uuid: string, b: int)
    requires Inv(cfg, db) && Earlier(snap, db) && Credited(db.recharges, db.payments) && PlainEvent(request.eventId)
    ensures var db' := Callback(db, snap, verified, request, id, uuid, b).After(db);
            var r := RechargeRow(request.user, request.amount, "PAYMENT:" + request.eventId);
            && (db' == db || (db' == WithPayment(Credit(db, b, r), id, PaymentRow(request)) && b !in db.recharges
                              && id !in db.payments))
            && Credited(db'.recharges, db'.payments)
  {
    hide Inv, Earlier, RechargeWallet, Callback, PaymentsBacked, KeysUsedByPayments, Credit;
    if Callback(db, snap, verified, request, id, uuid, b).After(db) != db {
      assert verified by { UnverifiedDoesNothing(db, snap, verified, request, id, uuid, b); }
      PlainEventKey(request.eventId);
      RecordedPaymentIsNew(db, snap, request, id, uuid, b);
      NewEventKeyIsFree(cfg, db, request.eventId);
      CallbackCreditsIff(cfg, db, snap, request, id, uuid, b);
      var r := RechargeRow(request.user, request.amount, "PAYMENT:" + request.eventId);
      CallbackBizIdIsFresh(cfg, db, snap, request, id, uuid, b);
      BackedWithPayment(db.recharges, db.payments, b, r, id, PaymentRow(request));
      UsedWithPayment(db.recharges, db.payments, b, r, id, PaymentRow(request));
      CreditRecords(db, b, r);
    }
  }

  lemma UnverifiedDoesNothing(db: Db, snap: Db, verified: bool, request: CallbackRequest, id: int, uuid: string, b: int)
    requires Callback(db, snap, verified, request, id, uuid, b).After(db) != db
    ensures verified
  {}

  lemma CreditRecords(db: Db, b: int, r: RechargeRow)
    ensures Credit(db, b, r).recharges == db.recharges[b := r] && Credit(db, b, r).payments == db.payments
  {}

  lemma CallbackBizIdIsFresh(cfg: Config, db: Db, snap: Db, request: CallbackRequest, id: int, uuid: string, b: int)
    requires Inv(cfg, db) && Earlier(snap, db) && Callback(db, snap, true, request, id, uuid, b).After(db) != db
    requires RechargeOp(PaymentKey(request.eventId)) !in db.idem
    ensures b !in db.recharges
  {
    hide Inv, Earlier, Callback, RechargeWallet, Credit, PaymentKey, RechargeKey;
    CallbackIsRechargePlusPayment(db, snap, true, request, id, uuid, b);
    CallbackKeyIsTrimmed(request.eventId, uuid);
    RechargeOutcome(cfg, db, snap, request.user, request.amount, Some("PAYMENT:" + request.eventId), uuid, b);
    FreshBizId(cfg, db, b);
  }

  lemma FreshBizId(cfg: Config, db: Db, b: int)
    requires Inv(cfg, db) && LedgerKey(BizType.Recharge, b, MINT_ID, Available) !in db.ledger
    ensures b !in db.recharges
  {
    FreshRecharge(db.ledger, db.recharges, b);
  }

  // ---- whole runs ----

  lemma DisciplinedRecharge(cfg: Config, db: Db, snap: Db, user: int, amount: int, requested: Option<string>,
                            uuid: string, b: int)
    requires Inv(cfg, db) && Earlier(snap, db) && Credited(db.recharges, db.payments)
             && !IsPaymentKey(RechargeKey(requested, uuid))
    ensures var db' := RechargeWallet(db, snap, user, amount, requested, uuid, b).After(db);
            Credited(db'.recharges, db'.payments)
  {
    hide Inv, Earlier, RechargeWallet, Credited, Credit, RechargeKey, IsPaymentKey;
    RechargeOutcome(cfg, db, snap, user, amount, requested, uuid, b);
    var r := RechargeRow(user, amount, RechargeKey(requested, uuid));
    if RechargeWallet(db, snap, user, amount, requested, uuid, b).After(db) != db {
      FreshBizId(cfg, db, b);
      CreditedWithRecharge(db.recharges, db.payments, b, r);
      CreditRecords(db, b, r);
    }
  }

  lemma RefundRecords(db: Db, snap: Db, id: int, payment: int, user: int, amount: int, requestKey: string)
    ensures var db' := RefundPayment(db, snap, id, payment, user, amount, requestKey).After(db);
            db'.recharges == db.recharges
                && (db'.payments == db.payments || db'.payments == Refunded(db.payments, payment))
  {
    hide EnsureAccounts, Transfer, TransferFree, NoteFree, CanDebit, Refunded;
  }

  lemma CompensationRecords(db: Db, snap: Db, d: int, operator: int, requestKey: string, amount: int)
    ensures var db' := CompensateDispute(db, snap, d, operator, requestKey, amount).After(db);
            db'.recharges == db.recharges && db'.payments == db.payments
  {
    hide EnsureAccounts, Transfer, TransferFree, NoteFree;
  }

  lemma RefundKeepsCredited(db: Db, snap: Db, id: int, payment: int, user: int, amount: int, requestKey: string)
    requires Credited(db.recharges, db.payments)
    ensures var db' := RefundPayment(db, snap, id, payment, user, amount, requestKey).After(db);
            Credited(db'.recharges, db'.payments)
  {
    hide RefundPayment, PaymentsBacked, KeysUsedByPayments, Refunded;
    RefundRecords(db, snap, id, payment, user, amount, requestKey);
    BackedAfterRefund(db.recharges, db.payments, payment);
    UsedAfterRefund(db.recharges, db.payments, payment);
  }

  lemma OpenDisputeRecords(db: Db, snap: Db, id: int, payment: int, user: int)
    ensures var db' := OpenDispute(db, snap, id, payment, user).After(db);
            db'.recharges == db.recharges && db'.payments == db.payments
  {}

  lemma StepKeepsCredited(cfg: Config, db: Db, snap: Db, l: Label)
    requires Inv(cfg, db) && Earlier(snap, db) && Credited(db.recharges, db.payments) && Disciplined(l)
    ensures var db' := Exec(cfg, db, snap, l); Credited(db'.recharges, db'.payments)
  {
    hide Inv, Earlier, Credited, IsPaymentKey, PlainEvent;
    if PaymentLabel(l) {
      hide RechargeWallet, Callback, RefundPayment, OpenDispute, CompensateDispute, RechargeKey;
      match l
      case DoRecharge(user, amount, requested, uuid, b) =>
        DisciplinedRecharge(cfg, db, snap, user, amount, requested, uuid, b);
      case DoCallback(verified, request, id, uuid, b) =>
        DisciplinedCallback(cfg, db, snap, verified, request, id, uuid, b);
      case DoRefund(id, payment, user, amount, requestKey) =>
        RefundKeepsCredited(db, snap, id, payment, user, amount, requestKey);
      case DoOpenDispute(id, payment, user) => OpenDisputeRecords(db, snap, id, payment, user);
      case DoCompensate(dispute, operator, requestKey, amount) =>
        CompensationRecords(db, snap, dispute, operator, requestKey, amount);
    } else {
      hide Exec;
      OtherLabelsLeaveRecords(cfg, db, snap, l);
    }
  }

  lemma {:induction false} RunKeepsCredited(cfg: Config, tr: seq<Db>, evs: seq<Event>, n: nat)
    requires Run(cfg.platform, tr, evs) && n < |tr| && forall i :: 0 <= i < |evs| ==> Disciplined(evs[i].step)
    ensures Credited(tr[n].recharges, tr[n].payments)
  {
    hide Inv, Earlier, Exec, Disciplined;
    if n > 0 {
      var m := n - 1;
      RunKeepsCredited(cfg, tr, evs, m);
      RunKeepsInv(evs[m].cfg, tr, evs, m);
      assert tr[m + 1] == Exec(evs[m].cfg, tr[m], tr[evs[m].snap], evs[m].step);
      StepKeepsCredited(evs[m].cfg, tr[m], tr[evs[m].snap], evs[m].step);
    }
  }

  // ---- used keys ----

  /** In every run a used key keeps its request for ever.  So once the key of a payment was used for another user or
      amount, no later callback of it, whatever older state it reads, records the payment: it changes nothing, and it
      fails unless it sees a recorded payment. */
  lemma UsedKeyBlocksForGood(cfg: Config, tr: seq<Db>, evs: seq<Event>, i: nat, n: nat, seen: nat,
                             verified: bool, request: CallbackRequest, id: int, uuid: string, b: int)
    requires Run(cfg.platform, tr, evs) && i <= n < |tr| && seen <= n
    requires var key := RechargeOp(PaymentKey(request.eventId));
             key in tr[i].idem && tr[i].idem[key] != RechargeRequest(request.user, request.amount)
    ensures var key := RechargeOp(PaymentKey(request.eventId)); key in tr[n].idem && tr[n].idem[key] == tr[i].idem[key]
    ensures var c := Callback(tr[n], tr[seen], verified, request, id, uuid, b);
            c.After(tr[n]) == tr[n] && (FindPayment(tr[seen].payments, request).None? ==> c.Abort?)
  {
    RunKeepsInv(cfg, tr, evs, n);
    UsedKeyStays(tr[i], tr[n], RechargeOp(PaymentKey(request.eventId)));
    hide Inv, Earlier, Run, Callback, FindPayment, PaymentKey;
    UsedKeyBlocksPayment(tr[n], tr[seen], verified, request, id, uuid, b);
  }

  lemma UsedKeyStays(before: Db, db: Db, key: OpKey)
    requires Earlier(before, db) && key in before.idem
    ensures key in db.idem && db.idem[key] == before.idem[key]
  {}

  // ---- one credit for each payment ----

  function RechargesUnder(recharges: map<int, RechargeRow>, key: string): set<int> {
    set b | b in recharges && recharges[b].key == key
  }

  lemma OneRechargePerKey(users: map<int, Role>, idem: map<OpKey, Fingerprint>, recharges: map<int, RechargeRow>,
                          b: int)
    requires RechargesOk(users, idem, recharges) && b in recharges
    ensures RechargesUnder(recharges, recharges[b].key) == {b}
  {
    assert forall c :: c in recharges && recharges[c].key == recharges[b].key ==> c == b;
  }

  lemma RechargePair(ledger: map<LedgerKey, int>, recharges: map<int, RechargeRow>, b: int)
    requires RechargeRows(ledger, recharges) && b in recharges
    ensures LedgerRows(ledger, BizType.Recharge, b) == PairOf(BizType.Recharge, b, recharges[b].user)
  {
    forall k ensures k in LedgerRows(ledger, BizType.Recharge, b)
        <==> k in PairOf(BizType.Recharge, b, recharges[b].user) {
      assert k.biz.Recharge? && k.bizId == b ==> RowAt(ledger, k) == PairRow(recharges[b].user, recharges[b].amount, k);
    }
  }

  ghost predicate CreditedBy(db: Db, p: int, b: int) {
    && p in db.payments && BackedBy(db.recharges, b, db.payments, p)
    && RechargesUnder(db.recharges, "PAYMENT:" + db.payments[p].eventId) == {b}
    && LedgerRows(db.ledger, BizType.Recharge, b) == PairOf(BizType.Recharge, b, db.payments[p].user)
  }

  /** In every disciplined run, whatever the order, number and snapshots of its callbacks, each recorded payment is
      credited by exactly one recharge of its own user and amount, with one ledger pair, one notification and one event;
      and no two payments share an event id or a provider payment id. */
  lemma EveryPaymentCreditedOnce(cfg: Config, tr: seq<Db>, evs: seq<Event>, n: nat, p: int)
    requires Run(cfg.platform, tr, evs) && n < |tr| && forall i :: 0 <= i < |evs| ==> Disciplined(evs[i].step)
    requires p in tr[n].payments
    ensures exists b :: CreditedBy(tr[n], p, b)
    ensures PaymentNote(p) in tr[n].notes && Notify(PaymentNote(p)) in tr[n].events
    ensures forall q :: q in tr[n].payments && q != p ==>
              tr[n].payments[q].eventId != tr[n].payments[p].eventId
                  && tr[n].payments[q].providerId != tr[n].payments[p].providerId
  {
    RunKeepsCredited(cfg, tr, evs, n);
    RunKeepsInv(cfg, tr, evs, n);
    CreditedPayment(cfg, tr[n], p);
  }

  lemma CreditedPayment(cfg: Config, db: Db, p: int)
    requires Inv(cfg, db) && Credited(db.recharges, db.payments) && p in db.payments
    ensures exists b :: CreditedBy(db, p, b)
    ensures PaymentNote(p) in db.notes && Notify(PaymentNote(p)) in db.events
    ensures forall q :: q in db.payments && q != p ==>
              db.payments[q].eventId != db.payments[p].eventId && db.payments[q].providerId != db.payments[p].providerId
  {
    hide SumBy, UsersOk, NoOverdraft, TotalsOk, ClosedForms, OrderRows, RechargeRows, RefundRows, CompensationRows,
         OrdersOk, EventsOk, SettleKeysOk, RechargesOk, RefundsOk, DisputesOk, KeysUsedByPayments, RechargesUnder,
         LedgerRows, PairOf;
    var b :| BackedBy(db.recharges, b, db.payments, p);
    OneRechargePerKey(db.users, db.idem, db.recharges, b);
    RechargePair(db.ledger, db.recharges, b);
    assert CreditedBy(db, p, b);
  }
}
