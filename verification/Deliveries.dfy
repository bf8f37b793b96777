/** The order and the number of callback deliveries do not matter for the wallets. */
module Deliveries {
  import opened Model
  import opened Sums
  import opened Invariants
  import opened PaymentSpec
  import opened PaymentSteps
  import opened PaymentTheorems
  import opened Callbacks

  /** What the provider knows: each event id names one payment, each payment has one user and amount. */
  datatype Provider = Provider(payments: map<string, Paid>, events: map<string, string>)
  datatype Paid = Paid(user: int, amount: int)

  predicate Announces(provider: Provider, request: CallbackRequest) {
    && request.eventId in provider.events && provider.events[request.eventId] == request.providerId
    && request.providerId in provider.payments
    && provider.payments[request.providerId] == Paid(request.user, request.amount)
  }

  /** A delivery of a callback, with the ids the database and the clock generate for it. */
  datatype Delivery = Delivery(request: CallbackRequest, id: int, uuid: string, bizId: int)

  predicate Honest(provider: Provider, users: map<int, Role>, request: CallbackRequest) {
    && Announces(provider, request) && PlainEvent(request.eventId) && IsBusinessUser(users, request.user)
       && request.amount > 0
    && |request.providerId| <= PROVIDER_WIDTH && |"PAYMENT:" + request.eventId| <= KEY_WIDTH
  }

  /** Every recorded payment is one that the provider knows. */
  predicate Known(provider: Provider, payments: map<int, Payment>) {
    forall p :: p in payments ==>
      Announces(provider, CallbackRequest(payments[p].providerId, payments[p].eventId, payments[p].user,
                                          payments[p].amount))
  }

  predicate Fresh(db: Db, d: Delivery) { d.id !in db.payments && d.bizId !in db.recharges }

  ghost function Deliver(db: Db, d: Delivery): Db { Callback(db, db, true, d.request, d.id, d.uuid, d.bizId).After(db) }

  ghost function DeliverAll(db: Db, ds: seq<Delivery>): Db
    decreases |ds|
  {
    if ds == [] then db else DeliverAll(Deliver(db, ds[0]), ds[1..])
  }

  function ProviderIds(payments: map<int, Payment>): set<string> { set p | p in payments :: payments[p].providerId }
  function Delivered(ds: seq<Delivery>): set<string> { set i | 0 <= i < |ds| :: ds[i].request.providerId }

  predicate Deliverable(provider: Provider, db: Db, ds: seq<Delivery>) {
    && (forall i :: 0 <= i < |ds| ==> Honest(provider, db.users, ds[i].request) && Fresh(db, ds[i]))
    && (forall i, j :: 0 <= i < j < |ds| ==> ds[i].id != ds[j].id && ds[i].bizId != ds[j].bizId)
  }

  // ---- stale reads ----

  /** A callback that reads an older snapshot changes the database as one that reads the present, unless it is a new
      payment that the present lets through while the snapshot misses its user or its used key. */
  lemma SnapshotMattersIff(cfg: Config, db: Db, snap: Db, request: CallbackRequest, id: int, uuid: string, b: int)
    requires Inv(cfg, db) && Earlier(snap, db)
    ensures Callback(db, snap, true, request, id, uuid, b).After(db)
            == Callback(db, db, true, request, id, uuid, b).After(db)
            <==> (FindPayment(db.payments, request).None? && Recordable(db, db, request, id, b)
                  ==> Recordable(db, snap, request, id, b))
  {
    hide Inv, Earlier, Callback, Recordable, FindPayment, WithPayment, Credit, PaymentKey;
    EarlierSelf(db);
    if FindPayment(db.payments, request).Some? {
      KnownPaymentChangesNothing(db, snap, request, id, uuid, b);
      KnownPaymentChangesNothing(db, db, request, id, uuid, b);
    } else {
      CommitsAreNew(cfg, db, snap, request, id, uuid, b);
      CommitsAreNew(cfg, db, db, request, id, uuid, b);
      if Recordable(db, snap, request, id, b) { ShownToThePresent(db, snap, request, id, b); }
    }
  }

  lemma KnownPaymentChangesNothing(db: Db, snap: Db, request: CallbackRequest, id: int, uuid: string, b: int)
    requires FindPayment(db.payments, request).Some?
    ensures Callback(db, snap, true, request, id, uuid, b).After(db) == db
  {
    hide RechargeWallet, NoteFree, FindPayment;
  }

  lemma CommitsAreNew(cfg: Config, db: Db, snap: Db, request: CallbackRequest, id: int, uuid: string, b: int)
    requires Inv(cfg, db) && Earlier(snap, db) && FindPayment(db.payments, request).None?
    ensures var r := RechargeRow(request.user, request.amount, PaymentKey(request.eventId));
            var recorded := WithPayment(if RechargeOp(r.key) in db.idem then db
                                        else Credit(db, b, r), id, PaymentRow(request));
            Callback(db, snap, true, request, id, uuid, b).After(db) == if Recordable(db, snap, request, id, b)
                then recorded else db
    ensures Recordable(db, snap, request, id, b) ==> Callback(db, snap, true, request, id, uuid, b).After(db) != db
  {
    CallbackCommitsIff(cfg, db, snap, request, id, uuid, b);
    if Recordable(db, snap, request, id, b) {
      NewToSnapshot(db, snap, request);
      CommittedIsRecorded(db, snap, request, id, uuid, b);
      CallbackCreditsIff(cfg, db, snap, request, id, uuid, b);
    }
  }

  lemma CommittedIsRecorded(db: Db, snap: Db, request: CallbackRequest, id: int, uuid: string, b: int)
    requires FindPayment(snap.payments, request).None? && Callback(db, snap, true, request, id, uuid, b).Commit?
    ensures Callback(db, snap, true, request, id, uuid, b).After(db) != db
  {
    hide RechargeWallet, NoteFree, FindPayment;
    var d := db.(payments := db.payments[id := PaymentRow(request)]);
    RechargeIgnoresPayments(db, snap, d.payments, request.user, request.amount, Some("PAYMENT:" + request.eventId),
                            uuid, b);
    assert id in Callback(db, snap, true, request, id, uuid, b).db.payments && id !in db.payments;
  }

  lemma ShownToThePresent(db: Db, snap: Db, request: CallbackRequest, id: int, b: int)
    requires Earlier(snap, db) && Recordable(db, snap, request, id, b)
    ensures Recordable(db, db, request, id, b)
  {
    hide TransferFree, PaymentKey;
  }

  /** So it does not matter while ordinary keys stay out of the payments' key space and the user is older than the
      snapshot. */
  lemma SnapshotDoesNotMatter(cfg: Config, db: Db, snap: Db, request: CallbackRequest, id: int, uuid: string, b: int)
    requires Inv(cfg, db) && Earlier(snap, db) && Credited(db.recharges, db.payments) && PlainEvent(request.eventId)
    requires request.user in db.users ==> request.user in snap.users
    ensures Callback(db, snap, true, request, id, uuid, b).After(db)
            == Callback(db, db, true, request, id, uuid, b).After(db)
  {
    hide Inv, PaymentsBacked, KeysUsedByPayments, Callback, TransferFree, PaymentKey, FindPayment, PlainEvent;
    SnapshotMattersIff(cfg, db, snap, request, id, uuid, b);
    if FindPayment(db.payments, request).None? {
      NoEventYet(db, request);
      NewEventKeyIsFree(cfg, db, request.eventId);
    }
  }

  // ---- one delivery ----

  /** What flows to an account when the provider's payment is credited. */
  function Flow(paid: Paid, a: Account): int {
    if a == Account(paid.user, Available) then paid.amount else if a == Account(MINT_ID, Available) then -paid.amount
        else 0
  }
  ghost function FlowTo(a: Account): (string, Paid) -> int { (providerId: string, paid: Paid) => Flow(paid, a) }

  function Received(provider: Provider, ids: set<string>): map<string, Paid> {
    map i | i in ids && i in provider.payments :: provider.payments[i]
  }

  ghost predicate Ready(cfg: Config, provider: Provider, db: Db) {
    Inv(cfg, db) && Credited(db.recharges, db.payments) && Known(provider, db.payments)
  }

  lemma KnownPaymentIsFound(provider: Provider, db: Db, request: CallbackRequest)
    requires Known(provider, db.payments) && Announces(provider, request)
    ensures FindPayment(db.payments, request).Some? <==> request.providerId in ProviderIds(db.payments)
  {
    var byEvent, byId := FindByEvent(db.payments, request.eventId), FindByProviderId(db.payments, request.providerId);
    if byEvent.Some? { assert db.payments[byEvent.value].providerId == request.providerId; }
    if request.providerId in ProviderIds(db.payments) {
      var p :| p in db.payments && db.payments[p].providerId == request.providerId;
      assert HasProviderId(db.payments, p, request.providerId);
    }
  }

  lemma FreshIdsAreFree(cfg: Config, db: Db, d: Delivery)
    requires Inv(cfg, db) && Fresh(db, d) && IsBusinessUser(db.users, d.request.user)
    ensures TransferFree(db, BizType.Recharge, d.bizId, Account(MINT_ID, Available), Account(d.request.user, Available))
    ensures NoteFree(db, PaymentNote(d.id))
  {
    hide SumBy, NoOverdraft, TotalsOk, ClosedForms, OrderRows, RefundRows, CompensationRows, OrdersOk, EventsOk,
         SettleKeysOk, RechargesOk, PaymentsOk, RefundsOk, DisputesOk;
    assert forall k: LedgerKey :: k.biz.Recharge? && k.bizId == d.bizId ==> RowAt(db.ledger, k) == None;
  }

  /** A payment seen for the first time is recorded and credited, under any of its event ids. */
  lemma FirstDelivery(cfg: Config, provider: Provider, db: Db, d: Delivery)
    requires Ready(cfg, provider, db) && Honest(provider, db.users, d.request) && Fresh(db, d)
    requires d.request.providerId !in ProviderIds(db.payments)
    ensures Deliver(db, d) == WithPayment(Credit(db, d.bizId,
                                                 RechargeRow(d.request.user, d.request.amount,
                                                             "PAYMENT:" + d.request.eventId)), d.id,
                                                             PaymentRow(d.request))
  {
    hide Inv, Earlier, PaymentsBacked, KeysUsedByPayments, RechargeWallet, Credit, TransferFree, PlainEvent, PaymentKey,
         Announces, Known, ProviderIds, RechargeKey;
    var request := d.request;
    KnownPaymentIsFound(provider, db, request);
    NoEventYet(db, request);
    PlainEventKey(request.eventId);
    NewEventKeyIsFree(cfg, db, request.eventId);
    FreshIdsAreFree(cfg, db, d);
    CallbackKeyIsTrimmed(request.eventId, d.uuid);
    EarlierSelf(db);
    RechargeOutcome(cfg, db, db, request.user, request.amount, Some("PAYMENT:" + request.eventId), d.uuid, d.bizId);
    RechargeIgnoresPayments(db, db, db.payments[d.id := PaymentRow(request)], request.user, request.amount,
                            Some("PAYMENT:" + request.eventId), d.uuid, d.bizId);
    CreditLeavesNotes(db, d.bizId, RechargeRow(request.user, request.amount, "PAYMENT:" + request.eventId),
                      PaymentNote(d.id));
  }

  lemma NoEventYet(db: Db, request: CallbackRequest)
    requires FindPayment(db.payments, request).None?
    ensures forall p :: !HasEvent(db.payments, p, request.eventId)
  {}

  lemma CreditLeavesNotes(db: Db, b: int, r: RechargeRow, n: NoteKey)
    ensures NoteFree(Credit(db, b, r), n) == NoteFree(db, n)
  {}

  lemma LaterDelivery(provider: Provider, db: Db, d: Delivery)
    requires Known(provider, db.payments) && Announces(provider, d.request)
             && d.request.providerId in ProviderIds(db.payments)
    ensures Deliver(db, d) == db
  {
    hide RechargeWallet, Known, Announces, ProviderIds;
    KnownPaymentIsFound(provider, db, d.request);
  }

  lemma CreditFlows(cfg: Config, db: Db, b: int, r: RechargeRow, a: Account)
    requires Inv(cfg, db) && Creditable(db, b, r) && a in db.accounts
    ensures a in Credit(db, b, r).accounts
            && Credit(db, b, r).accounts[a] == db.accounts[a] + Flow(Paid(r.user, r.amount), a)
  {
    hide SumBy, TotalsOk, ClosedForms, OrderRows, RechargeRows, RefundRows, CompensationRows, OrdersOk, EventsOk,
         SettleKeysOk, RechargesOk, PaymentsOk, RefundsOk, DisputesOk, NotesOk, NoOverdraft;
  }

  ghost predicate Balanced(provider: Provider, db: Db, db': Db) {
    && db'.accounts.Keys == db.accounts.Keys
    && forall a :: a in db.accounts ==>
         db'.accounts[a] - SumBy(Received(provider, ProviderIds(db'.payments)), FlowTo(a))
         == db.accounts[a] - SumBy(Received(provider, ProviderIds(db.payments)), FlowTo(a))
  }

  lemma FirstDeliveryBalances(cfg: Config, provider: Provider, db: Db, d: Delivery)
    requires Ready(cfg, provider, db) && Honest(provider, db.users, d.request) && Fresh(db, d)
    requires d.request.providerId !in ProviderIds(db.payments)
    ensures Balanced(provider, db, Deliver(db, d))
    ensures ProviderIds(Deliver(db, d).payments) == ProviderIds(db.payments) + {d.request.providerId}
  {
    hide SumBy, Inv, PaymentsBacked, KeysUsedByPayments, Credit, Deliver, Known, TransferFree, Honest, Fresh, Flow;
    FirstDelivery(cfg, provider, db, d);
    var r := RechargeRow(d.request.user, d.request.amount, "PAYMENT:" + d.request.eventId);
    FirstDeliveryCredits(cfg, provider, db, d);
    CreditRecords(db, d.bizId, r);
    NewProviderId(db.payments, d);
    var before, after := Received(provider, ProviderIds(db.payments)),
        Received(provider, ProviderIds(db.payments) + {d.request.providerId});
    ReceivedOneMore(provider, db, d);
    CreditKeepsAccountKeys(db, d.bizId, r);
    forall a | a in db.accounts
      ensures Deliver(db, d).accounts[a] - SumBy(after, FlowTo(a)) == db.accounts[a] - SumBy(before, FlowTo(a))
    {
      CreditFlows(cfg, db, d.bizId, r, a);
      SumByUpdate(before, d.request.providerId, Paid(d.request.user, d.request.amount), FlowTo(a));
    }
  }

  lemma CreditKeepsAccountKeys(db: Db, b: int, r: RechargeRow)
    ensures Credit(db, b, r).accounts.Keys == db.accounts.Keys
  {}

  lemma ReceivedOneMore(provider: Provider, db: Db, d: Delivery)
    requires Honest(provider, db.users, d.request) && d.request.providerId !in ProviderIds(db.payments)
    ensures d.request.providerId !in Received(provider, ProviderIds(db.payments))
    ensures Received(provider, ProviderIds(db.payments) + {d.request.providerId})
            == Received(provider, ProviderIds(db.payments))[d.request.providerId := Paid(d.request.user,
                d.request.amount)]
  {}

  lemma FirstDeliveryCredits(cfg: Config, provider: Provider, db: Db, d: Delivery)
    requires Ready(cfg, provider, db) && Honest(provider, db.users, d.request) && Fresh(db, d)
    requires d.request.providerId !in ProviderIds(db.payments)
    ensures d.id !in db.payments
            && Creditable(db, d.bizId, RechargeRow(d.request.user, d.request.amount, "PAYMENT:" + d.request.eventId))
  {
    hide Inv, Earlier, PaymentsBacked, KeysUsedByPayments, TransferFree, NoteFree, PlainEvent, PaymentKey, Announces,
         Known, ProviderIds;
    KnownPaymentIsFound(provider, db, d.request);
    NoEventYet(db, d.request);
    PlainEventKey(d.request.eventId);
    NewEventKeyIsFree(cfg, db, d.request.eventId);
    FreshIdsAreFree(cfg, db, d);
  }

  lemma NewProviderId(payments: map<int, Payment>, d: Delivery)
    requires d.id !in payments
    ensures ProviderIds(payments[d.id := PaymentRow(d.request)]) == ProviderIds(payments) + {d.request.providerId}
  {
    var after := payments[d.id := PaymentRow(d.request)];
    forall i | i in ProviderIds(payments) + {d.request.providerId} ensures i in ProviderIds(after) {
      if i in ProviderIds(payments) {
        var p :| p in payments && payments[p].providerId == i;
        assert after[p].providerId == i;
      } else {
        assert after[d.id].providerId == i;
      }
    }
  }

  lemma DeliverKeepsReady(cfg: Config, provider: Provider, db: Db, d: Delivery)
    requires Ready(cfg, provider, db) && Honest(provider, db.users, d.request) && Fresh(db, d)
    ensures Ready(cfg, provider, Deliver(db, d))
  {
    hide Inv, Earlier, PaymentsBacked, KeysUsedByPayments, Callback, RechargeWallet, Credit, ProviderIds;
    EarlierSelf(db);
    CallbackKeeps(cfg, db, db, true, d.request, d.id, d.uuid, d.bizId);
    DisciplinedCallback(cfg, db, db, true, d.request, d.id, d.uuid, d.bizId);
    CreditRecords(db, d.bizId, RechargeRow(d.request.user, d.request.amount, "PAYMENT:" + d.request.eventId));
  }

  lemma DeliverKeepsDeliverable(cfg: Config, provider: Provider, db: Db, ds: seq<Delivery>)
    requires Ready(cfg, provider, db) && Deliverable(provider, db, ds) && ds != []
    ensures Deliverable(provider, Deliver(db, ds[0]), ds[1..])
  {
    hide Inv, Earlier, PaymentsBacked, KeysUsedByPayments, Callback, RechargeWallet, Credit, ProviderIds, Known,
         Announces;
    var d := ds[0];
    EarlierSelf(db);
    DisciplinedCallback(cfg, db, db, true, d.request, d.id, d.uuid, d.bizId);
    var r := RechargeRow(d.request.user, d.request.amount, "PAYMENT:" + d.request.eventId);
    CreditRecords(db, d.bizId, r);
    CreditLeavesUsers(db, d.bizId, r);
  }

  lemma CreditLeavesUsers(db: Db, b: int, r: RechargeRow)
    ensures Credit(db, b, r).users == db.users
  {}

  lemma OneDelivery(cfg: Config, provider: Provider, db: Db, d: Delivery)
    requires Ready(cfg, provider, db) && Honest(provider, db.users, d.request) && Fresh(db, d)
    ensures Balanced(provider, db, Deliver(db, d))
    ensures ProviderIds(Deliver(db, d).payments) == ProviderIds(db.payments) + {d.request.providerId}
  {
    hide Inv, Credited, Deliver, Known, SumBy, Fresh, Announces;
    if d.request.providerId in ProviderIds(db.payments) {
      LaterDelivery(provider, db, d);
    } else {
      FirstDeliveryBalances(cfg, provider, db, d);
    }
  }

  // ---- any number of deliveries ----

  lemma {:induction false} DeliverAllBalances(cfg: Config, provider: Provider, db: Db, ds: seq<Delivery>)
    requires Ready(cfg, provider, db) && Deliverable(provider, db, ds)
    ensures Balanced(provider, db, DeliverAll(db, ds))
    ensures ProviderIds(DeliverAll(db, ds).payments) == ProviderIds(db.payments) + Delivered(ds)
    decreases |ds|
  {
    hide Inv, Credited, Deliver, Known, SumBy, ProviderIds, Fresh, Honest, Received;
    if ds == [] {
      assert Delivered(ds) == {};
    } else {
      hide Ready;
      OneDelivery(cfg, provider, db, ds[0]);
      DeliverKeepsReady(cfg, provider, db, ds[0]);
      DeliverKeepsDeliverable(cfg, provider, db, ds);
      DeliverAllBalances(cfg, provider, Deliver(db, ds[0]), ds[1..]);
      DeliveredSplits(ds);
    }
  }

  lemma DeliveredSplits(ds: seq<Delivery>)
    requires ds != []
    ensures Delivered(ds) == {ds[0].request.providerId} + Delivered(ds[1..])
  {
    forall i | 0 < i < |ds| ensures ds[i].request.providerId in Delivered(ds[1..]) {
      assert ds[i] == ds[1..][i - 1];
    }
  }

  /** Two sequences of verified callbacks that announce the same provider payments, in any order and with any
      repetitions, leave every wallet with the same balance and record the same provider payments. */
  lemma OrderAndRepetitionDoNotMatter(cfg: Config, provider: Provider, db: Db, ds: seq<Delivery>, es: seq<Delivery>)
    requires Ready(cfg, provider, db) && Deliverable(provider, db, ds) && Deliverable(provider, db, es)
    requires Delivered(ds) == Delivered(es)
    ensures DeliverAll(db, ds).accounts == DeliverAll(db, es).accounts
    ensures ProviderIds(DeliverAll(db, ds).payments) == ProviderIds(DeliverAll(db, es).payments)
            == ProviderIds(db.payments) + Delivered(ds)
  {
    hide Ready, Deliverable, DeliverAll, SumBy, ProviderIds, Received;
    DeliverAllBalances(cfg, provider, db, ds);
    DeliverAllBalances(cfg, provider, db, es);
    var a', b' := DeliverAll(db, ds), DeliverAll(db, es);
    assert forall a :: a in a'.accounts.Keys <==> a in b'.accounts.Keys;
    assert forall a :: a in a'.accounts.Keys ==> a'.accounts[a] == b'.accounts[a];
  }
}
