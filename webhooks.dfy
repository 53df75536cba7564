/** The payment webhook's three handlers (convex/http.ts) as transitions of
    the ledger.  Each handler runs a fixed sequence of mutations, each inside
    its own try/catch; a mutation that throws is rolled back by the store, so
    a failed step changes nothing and the handler goes on. */
module Webhooks {
  import opened Wrappers
  import opened JsNumber
  import opened Schema
  import opened Payments

  /** The metadata attached to a payment.  The credit fields carry the number
      that `Number(...)` makes of the raw value. */
  datatype Metadata = Metadata(
    userIdSnake: Option<string>,
    userIdCamel: Option<string>,
    customerId: Option<string>,
    credits: Option<Num>,
    creditAmount: Option<Num>)

  datatype PaymentData = PaymentData(
    paymentId: Option<string>,
    amount: Option<Num>,
    paymentMethod: Option<string>,
    metadata: Option<Metadata>)

  datatype Payload = Payload(eventType: Option<string>, data: Option<PaymentData>)

  /** Which of the handler's mutations throw on this delivery. */
  datatype Faults = Faults(logFails: bool, storeFails: bool, applyFails: bool, creditedLogFails: bool)

  const NoFaults := Faults(false, false, false, false)

  /** `payload?.data?.metadata ?? {}`. */
  function MetadataOf(p: Payload): Metadata
  {
    if p.data.Some? && p.data.value.metadata.Some? then p.data.value.metadata.value
    else Metadata(None, None, None, None, None)
  }

  /** `a ?? b`: only an absent value falls through. */
  function Coalesce<T>(a: Option<T>, b: Option<T>): (r: Option<T>)
    ensures a.Some? ==> r == a
    ensures a.None? ==> r == b
  {
    if a.Some? then a else b
  }

  /** `metadata.user_id ?? metadata.userId ?? metadata.customer_id`. */
  function PickUserId(m: Metadata): Option<string>
  {
    Coalesce(m.userIdSnake, Coalesce(m.userIdCamel, m.customerId))
  }

  /** `Number(metadata.credits ?? metadata.credit_amount)`; Number(undefined) is NaN. */
  function CreditsOf(m: Metadata): Num
  {
    Coalesce(m.credits, m.creditAmount).GetOr(NaN)
  }

  function PaymentIdOf(p: Payload): string
  {
    if p.data.Some? && p.data.value.paymentId.Some? then p.data.value.paymentId.value else "unknown"
  }

  function AmountOf(p: Payload): Num
  {
    if p.data.Some? && p.data.value.amount.Some? then p.data.value.amount.value else Finite(0.0)
  }

  lemma PickUserIdOrder(m: Metadata)
    ensures m.userIdSnake.Some? ==> PickUserId(m) == m.userIdSnake
    ensures m.userIdSnake.None? && m.userIdCamel.Some? ==> PickUserId(m) == m.userIdCamel
    ensures m.userIdSnake.None? && m.userIdCamel.None? ==> PickUserId(m) == m.customerId
  {
  }

  /** The first two steps of `onPaymentSucceeded`, which only add rows: the
      event log entry and the stored transaction. */
  function SucceededRows(t: Tables, p: Payload, f: Faults, now: int): (r: Tables)
    requires Present(PickUserId(MetadataOf(p)))
    ensures r.users == t.users && r.simulations == t.simulations && AppendOnly(t, r)
  {
    var m := MetadataOf(p);
    var userId := PickUserId(m);
    var t1 := if f.logFails then t
              else LoggedEvent(t, p.eventType.GetOr("payment.succeeded"), userId, Some(CreditsOf(m)), now);
    var t2 := if f.storeFails then t1
              else StoredTransaction(t1, userId.value, OrZero(CreditsOf(m)), AmountOf(p), "succeeded", now);
    AppendOnlyChains(t, t1, t2);
    t2
  }

  /** The whole effect of `onPaymentSucceeded`. */
  function SucceededEffect(t: Tables, p: Payload, f: Faults, now: int): Tables
  {
    var m := MetadataOf(p);
    var userId := PickUserId(m);
    var credits := CreditsOf(m);
    if !Present(userId) then t
    else
      var uid := userId.value;
      var t2 := SucceededRows(t, p, f, now);
      if !(IsFinite(credits) && Positive(credits)) || f.applyFails then t2
      else
        var t3 := CreditedUser(t2, uid, credits);
        if f.creditedLogFails then t3
        else LoggedEvent(t3, "payment.credited", userId, Some(credits), now)
  }

  /** The whole effect of `onPaymentFailed`. */
  function FailedEffect(t: Tables, p: Payload, f: Faults, now: int): Tables
  {
    var userId := PickUserId(MetadataOf(p));
    if !Present(userId) then t
    else
      var t1 := if f.logFails then t
                else LoggedEvent(t, p.eventType.GetOr("payment.failed"), userId, Some(Finite(0.0)), now);
      if f.storeFails then t1
      else StoredTransaction(t1, userId.value, Finite(0.0), AmountOf(p), "failed", now)
  }

  /** The whole effect of `onRefundSucceeded`; the event id it passes is
      the payment id followed by ":refund", which the ledger does not store. */
  function RefundEffect(t: Tables, p: Payload, f: Faults, now: int): Tables
  {
    var m := MetadataOf(p);
    var userId := PickUserId(m);
    if !Present(userId) || f.logFails then t
    else LoggedEvent(t, "refund.succeeded", userId, Some(CreditsOf(m)), now)
  }

  method OnPaymentSucceeded(db: Database, p: Payload, f: Faults, now: int)
    modifies db
    ensures db.Snapshot() == SucceededEffect(old(db.Snapshot()), p, f, now)
  {
    var m := MetadataOf(p);
    var userId := PickUserId(m);
    var credits := CreditsOf(m);
    var paymentId := PaymentIdOf(p);
    if !Present(userId) {
      return;
    }
    if !f.logFails {
      LogPaymentEvent(db, paymentId, p.eventType.GetOr("payment.succeeded"), Some(paymentId), userId, Some(credits), now);
    }
    if !f.storeFails {
      StorePaymentTransaction(db, userId.value, paymentId, OrZero(credits), AmountOf(p), "succeeded", now);
    }
    if IsFinite(credits) && Positive(credits) {
      if !f.applyFails {
        ApplyCreditsToUser(db, userId.value, credits);
        if !f.creditedLogFails {
          LogPaymentEvent(db, paymentId + ":resolved", "payment.credited", Some(paymentId), userId, Some(credits), now);
        }
      }
    }
  }

  method OnPaymentFailed(db: Database, p: Payload, f: Faults, now: int)
    modifies db
    ensures db.Snapshot() == FailedEffect(old(db.Snapshot()), p, f, now)
  {
    var userId := PickUserId(MetadataOf(p));
    var paymentId := PaymentIdOf(p);
    if Present(userId) {
      if !f.logFails {
        LogPaymentEvent(db, paymentId, p.eventType.GetOr("payment.failed"), Some(paymentId), userId, Some(Finite(0.0)), now);
      }
      if !f.storeFails {
        StorePaymentTransaction(db, userId.value, paymentId, Finite(0.0), AmountOf(p), "failed", now);
      }
    }
  }

  method OnRefundSucceeded(db: Database, p: Payload, f: Faults, now: int)
    modifies db
    ensures db.Snapshot() == RefundEffect(old(db.Snapshot()), p, f, now)
  {
    var m := MetadataOf(p);
    var userId := PickUserId(m);
    var paymentId := PaymentIdOf(p);
    if Present(userId) && !f.logFails {
      LogPaymentEvent(db, paymentId + ":refund", "refund.succeeded", Some(paymentId), userId, Some(CreditsOf(m)), now);
    }
  }

  // ---------------------------------------------------------------------
  // Properties of the handlers

  /** The balance a user holds, with an absent balance read as 0. */
  function Balance(t: Tables, u: UserId): Num
    requires u in t.users
  {
    t.users[u].credits.GetOr(Finite(0.0))
  }

  /** The credit that a succeeded event applies, when it applies one. */
  predicate Credits(p: Payload, f: Faults, t: Tables)
  {
    var m := MetadataOf(p);
    Present(PickUserId(m)) && IsFinite(CreditsOf(m)) && Positive(CreditsOf(m))
    && !f.applyFails && PickUserId(m).value in t.users
  }

  lemma SucceededWithoutUserChangesNothing(t: Tables, p: Payload, f: Faults, now: int)
    requires !Present(PickUserId(MetadataOf(p)))
    ensures SucceededEffect(t, p, f, now) == t
  {
  }

  /** A succeeded event appends rows only, and changes at most one balance:
      the picked user's, by exactly the metadata credits, and only when those
      are finite and positive and the credit step did not fail. */
  lemma SucceededBalances(t: Tables, p: Payload, f: Faults, now: int)
    ensures var r := SucceededEffect(t, p, f, now);
      && AppendOnly(t, r) && r.simulations == t.simulations
      && r.users.Keys == t.users.Keys
      && (forall u :: u in t.users && (!Credits(p, f, t) || u != PickUserId(MetadataOf(p)).value) ==>
            r.users[u] == t.users[u])
      && (Credits(p, f, t) ==>
            var u := PickUserId(MetadataOf(p)).value;
            r.users[u] == t.users[u].(credits := Some(Add(Balance(t, u), CreditsOf(MetadataOf(p))))))
  {
    var m := MetadataOf(p);
    var userId := PickUserId(m);
    var credits := CreditsOf(m);
    if Present(userId) {
      var uid := userId.value;
      var t2 := SucceededRows(t, p, f, now);
      if IsFinite(credits) && Positive(credits) && !f.applyFails {
        var t3 := CreditedUser(t2, uid, credits);
        if !f.creditedLogFails {
          var t4 := LoggedEvent(t3, "payment.credited", userId, Some(credits), now);
          AppendOnlyChains(t, t3, t4);
        }
      }
    }
  }

  /** The stored "succeeded" row records `credits || 0`: NaN becomes 0. */
  lemma SucceededStoredRow(t: Tables, p: Payload, f: Faults, now: int)
    requires Present(PickUserId(MetadataOf(p))) && !f.storeFails
    ensures var r := SucceededEffect(t, p, f, now);
      var k := if f.logFails then |t.transactions| else |t.transactions| + 1;
      && k < |r.transactions|
      && r.transactions[k] == Transaction(PickUserId(MetadataOf(p)).value, Dollars(AmountOf(p)),
                                          OrZero(CreditsOf(MetadataOf(p))), "succeeded", now)
      && (CreditsOf(MetadataOf(p)).NaN? ==> r.transactions[k].credits == Finite(0.0))
  {
  }

  /** A failed-payment event never changes a balance, and every row it adds
      records 0 credits. */
  lemma FailedNeverCredits(t: Tables, p: Payload, f: Faults, now: int)
    ensures var r := FailedEffect(t, p, f, now);
      && r.users == t.users && r.simulations == t.simulations && AppendOnly(t, r)
      && |r.transactions| <= |t.transactions| + 2
      && (forall i :: |t.transactions| <= i < |r.transactions| ==> r.transactions[i].credits == Finite(0.0))
      && (!Present(PickUserId(MetadataOf(p))) ==> r == t)
  {
  }

  /** A refund only logs one "refund.succeeded" row; no balance changes. */
  lemma RefundOnlyLogs(t: Tables, p: Payload, f: Faults, now: int)
    ensures var r := RefundEffect(t, p, f, now);
      && r.users == t.users && r.simulations == t.simulations && AppendOnly(t, r)
      && |r.transactions| <= |t.transactions| + 1
      && (forall i :: |t.transactions| <= i < |r.transactions| ==> r.transactions[i].status == "refund.succeeded")
  {
  }

  /** Nothing compares a payment id with earlier rows: the same succeeded
      event delivered twice credits the user twice. */
  lemma DoubleDeliveryCreditsTwice(t: Tables, p: Payload, now1: int, now2: int)
    requires Credits(p, NoFaults, t)
    requires Balance(t, PickUserId(MetadataOf(p)).value).Finite?
    ensures var u := PickUserId(MetadataOf(p)).value;
      var twice := SucceededEffect(SucceededEffect(t, p, NoFaults, now1), p, NoFaults, now2);
      && u in twice.users
      && Balance(twice, u) == Finite(Balance(t, u).v + 2.0 * CreditsOf(MetadataOf(p)).v)
      && |twice.transactions| == |t.transactions| + 6
  {
    var u := PickUserId(MetadataOf(p)).value;
    var once := SucceededEffect(t, p, NoFaults, now1);
    SucceededBalances(t, p, NoFaults, now1);
    assert Credits(p, NoFaults, once);
    SucceededBalances(once, p, NoFaults, now2);
  }
}
