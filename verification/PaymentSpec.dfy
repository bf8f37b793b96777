/** What recharge, callback, refund and compensation do.  Their first reads see a snapshot of an
    earlier database; inserts and conditional updates see the current one. */
module PaymentSpec {
  import opened Model

  // Java strings: trim drops characters up to U+0020, isBlank looks for anything but white space.
  predicate Trimmable(c: char) { c as int <= 0x20 }
  predicate WhiteSpace(c: char) { c == ' ' || 0x09 <= c as int <= 0x0D || 0x1C <= c as int <= 0x1F }
  predicate IsBlank(s: string) { forall i :: 0 <= i < |s| ==> WhiteSpace(s[i]) }

  function Trim(s: string): string
    decreases |s|
  {
    if s == "" then s
    else if Trimmable(s[0]) then Trim(s[1..])
    else if Trimmable(s[|s| - 1]) then Trim(s[..|s| - 1])
    else s
  }

  /** The idempotency key of a recharge; a missing or blank request key becomes a fresh UUID. */
  function RechargeKey(requested: Option<string>, uuid: string): string {
    if requested.None? || IsBlank(requested.value) then uuid else Trim(requested.value)
  }

  /** op_key has 160 characters, "RECHARGE:" takes nine of them; "SETTLE:ORDER:" and a number always fit. */
  const KEY_WIDTH := 151
  const EVENT_WIDTH := 160
  const PROVIDER_WIDTH := 128

  predicate KeyFits(key: OpKey) { key.RechargeOp? ==> |key.key| <= KEY_WIDTH }

  /** How reserving an idempotency key ends: a key that is used now is looked up again in the transaction's own
      snapshot, so that one committed later is found by the insert but not by the lookup. */
  function StartOutcome(idem: map<OpKey, Fingerprint>, seen: map<OpKey, Fingerprint>, key: OpKey,
                        request: Fingerprint): Option<Error> {
    if !KeyFits(key) then Some(DataTooLong)
    else if key !in idem then None
    else if key !in seen then Some(DuplicateKey)
    else if seen[key] != request then Some(IdempotencyConflict)
    else None
  }

  datatype RechargeAnswer = Recharged | Replayed

  function RechargeWallet(db: Db, snap: Db, user: int, amount: int, requested: Option<string>, uuid: string, bizId: int)
    : Outcome<RechargeAnswer>
  {
    if user !in snap.users then Abort(NotFound)
    else if !IsBusinessUser(snap.users, user) then Abort(SystemAccountForbidden)
    else if amount <= 0 then Abort(ValidationFailed)
    else
      var d := EnsureAccounts(EnsureAccounts(db, user), MINT_ID);
      var key := RechargeKey(requested, uuid);
      var refused := StartOutcome(d.idem, snap.idem, RechargeOp(key), RechargeRequest(user, amount));
      if refused.Some? then Abort(refused.value)
      else if RechargeOp(key) in d.idem then Commit(d, Replayed)
      else if Account(user, Available) !in d.accounts then Abort(NotFound)
      else if !TransferFree(d, Recharge, bizId, Account(MINT_ID, Available), Account(user, Available))
          then Abort(DuplicateKey)
      else
        Commit(Credit(d, bizId, RechargeRow(user, amount, key)), Recharged)
  }

  /** The treasury pays the user, under a used-up idempotency key. */
  function Credit(db: Db, bizId: int, r: RechargeRow): Db {
    Transfer(db, Recharge, bizId, Account(MINT_ID, Available), Account(r.user, Available), r.amount)
    .(idem := db.idem[RechargeOp(r.key) := RechargeRequest(r.user, r.amount)], recharges := db.recharges[bizId := r])
  }

  datatype CallbackRequest = CallbackRequest(providerId: string, eventId: string, user: int, amount: int)

  ghost predicate HasEvent(payments: map<int, Payment>, p: int, eventId: string) {
    p in payments && payments[p].eventId == eventId
  }
  ghost predicate HasProviderId(payments: map<int, Payment>, p: int, providerId: string) {
    p in payments && payments[p].providerId == providerId
  }

  ghost function FindByEvent(payments: map<int, Payment>, eventId: string): (r: Option<int>)
    ensures r.Some? <==> exists p :: HasEvent(payments, p, eventId)
    ensures r.Some? ==> HasEvent(payments, r.value, eventId)
  {
    if p :| HasEvent(payments, p, eventId) then Some(p) else None
  }

  ghost function FindByProviderId(payments: map<int, Payment>, providerId: string): (r: Option<int>)
    ensures r.Some? <==> exists p :: HasProviderId(payments, p, providerId)
    ensures r.Some? ==> HasProviderId(payments, r.value, providerId)
  {
    if p :| HasProviderId(payments, p, providerId) then Some(p) else None
  }

  predicate SamePayment(p: Payment, request: CallbackRequest) {
    p.user == request.user && p.amount == request.amount && p.providerId == request.providerId
  }

  /** The row found by event id, else the row found by the provider's payment id. */
  ghost function FindPayment(payments: map<int, Payment>, request: CallbackRequest): (r: Option<int>)
    ensures r.Some? ==> r.value in payments
  {
    var byEvent := FindByEvent(payments, request.eventId);
    if byEvent.Some? then byEvent else FindByProviderId(payments, request.providerId)
  }

  ghost function SameRequest(db: Db, payments: map<int, Payment>, p: int, request: CallbackRequest): Outcome<int>
    requires p in payments
  {
    if SamePayment(payments[p], request) then Commit(db, p) else Abort(IdempotencyConflict)
  }

  predicate IdsFit(request: CallbackRequest) {
    |request.providerId| <= PROVIDER_WIDTH && |request.eventId| <= EVENT_WIDTH
  }

  function PaymentRow(request: CallbackRequest): Payment {
    Payment(request.providerId, request.eventId, request.user, request.amount, false)
  }

  /** `snap` answers the reads, `id` is the generated payment id, `bizId` the ledger id of the recharge. */
  ghost function Callback(db: Db, snap: Db, verified: bool, request: CallbackRequest, id: int, uuid: string,
                          bizId: int): Outcome<int> {
    if !verified then Abort(Unauthorized)
    else
      var seen := FindPayment(snap.payments, request);
      if seen.Some? then SameRequest(db, snap.payments, seen.value, request)
      else if request.user !in snap.users then Abort(NotFound)
      else if !IsBusinessUser(snap.users, request.user) then Abort(SystemAccountForbidden)
      else if request.amount <= 0 then Abort(ValidationFailed)
      else if !IdsFit(request) then Abort(DataTooLong)
      else if FindPayment(db.payments, request).Some? || id in db.payments then Abort(DuplicateKey)
      else
        var d := db.(payments := db.payments[id := PaymentRow(request)]);
        var credited := RechargeWallet(d, snap, request.user, request.amount, Some("PAYMENT:" + request.eventId), uuid,
                                       bizId);
        if credited.Abort? then Abort(credited.error)
        else if !NoteFree(credited.db, PaymentNote(id)) then Abort(DuplicateKey)
        else Commit(WithNote(credited.db, PaymentNote(id)), id)
  }

  ghost predicate HasPayment(refunds: map<int, RefundRow>, r: int, payment: int) {
    r in refunds && refunds[r].payment == payment
  }
  ghost predicate HasRequestKey(refunds: map<int, RefundRow>, r: int, key: string) {
    r in refunds && refunds[r].requestKey == key
  }

  ghost function FindByRequestKey(refunds: map<int, RefundRow>, key: string): (r: Option<int>)
    ensures r.Some? <==> exists i :: HasRequestKey(refunds, i, key)
    ensures r.Some? ==> HasRequestKey(refunds, r.value, key)
  {
    if i :| HasRequestKey(refunds, i, key) then Some(i) else None
  }

  ghost function SameRefund(db: Db, refunds: map<int, RefundRow>, r: int, payment: int, amount: int): Outcome<int>
    requires r in refunds
  {
    if refunds[r].payment != payment || refunds[r].amount != amount then Abort(IdempotencyConflict) else Commit(db, r)
  }

  /** A second insert with a used request key or a refunded payment breaks uk_refund_request or uk_refund_payment. */
  ghost predicate RefundKeysFree(refunds: map<int, RefundRow>, id: int, payment: int, requestKey: string) {
    && id !in refunds
    && (forall r :: !HasRequestKey(refunds, r, requestKey))
    && (forall r :: !HasPayment(refunds, r, payment))
  }

  ghost function RefundPayment(db: Db, snap: Db, id: int, payment: int, user: int, amount: int,
                               requestKey: string): Outcome<int> {
    if payment !in snap.payments then Abort(NotFound)
    else
      var p := snap.payments[payment];
      var replay := FindByRequestKey(snap.refunds, requestKey);
      if p.user != user then Abort(Forbidden)
      else if amount != p.amount then Abort(ValidationFailed)
      else if replay.Some? then SameRefund(db, snap.refunds, replay.value, payment, amount)
      else if p.refunded then Abort(IllegalTransition)
      else if !RefundKeysFree(db.refunds, id, payment, requestKey) then
        Abort(if exists r :: HasPayment(snap.refunds, r, payment) then IllegalTransition else DuplicateKey)
      else
        var d := EnsureAccounts(EnsureAccounts(db, user), MINT_ID);
        var wallet, mint := Account(user, Available), Account(MINT_ID, Available);
        if !CanDebit(d, wallet, amount) then Abort(InsufficientBalance)
        else if !TransferFree(d, Refund, id, wallet, mint) || !NoteFree(d, RefundNote(id)) then Abort(DuplicateKey)
        else
          Commit(PayBack(d, id, RefundRow(payment, requestKey, user, amount)), id)
  }

  /** The user pays the treasury and the payment is closed. */
  function PayBack(db: Db, id: int, r: RefundRow): Db {
    WithNote(Transfer(db, Refund, id, Account(r.user, Available), Account(MINT_ID, Available), r.amount)
             .(refunds := db.refunds[id := r], payments := Refunded(db.payments, r.payment)), RefundNote(id))
  }

  /** markRefunded: the status moves only from SETTLED. */
  function Refunded(payments: map<int, Payment>, payment: int): map<int, Payment> {
    if payment in payments && !payments[payment].refunded then payments[payment := payments[payment].(refunded := true)]
    else payments
  }

  function OpenDispute(db: Db, snap: Db, id: int, payment: int, user: int): Outcome<int> {
    if payment !in snap.payments then Abort(NotFound)
    else if snap.payments[payment].user != user then Abort(Forbidden)
    else if id in db.disputes || payment !in db.payments then Abort(DuplicateKey)
    else Commit(db.(disputes := db.disputes[id := Dispute(payment, user, false, None)]), id)
  }

  /** True when this call paid, false when it only returned the dispute. */
  function CompensateDispute(db: Db, snap: Db, dispute: int, admin: int, requestKey: string,
                             amount: int): Outcome<bool> {
    if dispute !in snap.disputes then Abort(NotFound)
    else if snap.disputes[dispute].resolved then Commit(db, false)
    else if requestKey in snap.compensations || requestKey in db.compensations then Commit(db, false)
    else if amount <= 0 || dispute !in db.disputes then Abort(ValidationFailed)
    else
      var user := snap.disputes[dispute].user;
      var d := EnsureAccounts(EnsureAccounts(db, user), MINT_ID);
      var mint, wallet := Account(MINT_ID, Available), Account(user, Available);
      if !TransferFree(d, Compensate, dispute, mint, wallet) then Abort(DuplicateKey)
      else if d.disputes[dispute].resolved then Abort(IllegalTransition)
      else if !NoteFree(d, DisputeNote(dispute)) then Abort(DuplicateKey)
      else
        Commit(Award(d, requestKey, Compensation(dispute, user, amount, admin)), true)
  }

  /** The treasury pays the user and the dispute is closed. */
  function Award(db: Db, requestKey: string, c: Compensation): Db
    requires c.dispute in db.disputes
  {
    WithNote(Transfer(db, Compensate, c.dispute, Account(MINT_ID, Available), Account(c.user, Available), c.amount)
             .(compensations := db.compensations[requestKey := c],
               disputes := db.disputes[c.dispute := db.disputes[c.dispute].(resolved := true,
                   resolvedBy := Some(c.operator))]),
             DisputeNote(c.dispute))
  }
}
