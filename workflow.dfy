/**
 * The four request handlers as transitions of the two tables. Each one is a
 * single atomic step: it takes the committed state before the request and
 * gives the committed state after it together with what the handler answers.
 * The methods of `Service.ReferralService` are proved against these.
 */
module Workflow {
  import opened Tables
  import opened Codes

  datatype CreateOutcome = Created(id: nat, name: string, discountApplied: int) | DuplicateEmail
  /** `StoreError` is the uncaught IntegrityError of an INSERT that breaks a constraint. */
  datatype CodeOutcome = CodeGenerated(code: string) | StoreError
  datatype ConfirmOutcome = Rewarded(referrerId: nat) | NoPendingReferral
  datatype BillOutcome = Billed(customerId: nat, finalAmount: real) | CustomerNotFound

  /**
   * How any handler may change the tables: no row is ever deleted, a
   * customer's name, email and fee and a referral's id, code and referrer
   * never change, a confirmed referral never changes again, and the
   * sequences never go back.
   */
  ghost predicate Evolves(db: Db, db': Db) {
    && db.nextCustomerId <= db'.nextCustomerId
    && db.nextReferralId <= db'.nextReferralId
    && db.customers.Keys <= db'.customers.Keys
    && (forall id :: id in db.customers ==> SameCustomer(db.customers[id], db'.customers[id]))
    && |db.referrals| <= |db'.referrals|
    && (forall i :: 0 <= i < |db.referrals| ==> LaterRow(db.referrals[i], db'.referrals[i]))
  }

  predicate SameCustomer(c: Customer, c': Customer) {
    c'.name == c.name && c'.email == c.email && c'.monthlyFee == c.monthlyFee
  }

  predicate LaterRow(r: Referral, r': Referral) {
    && r'.id == r.id && r'.code == r.code && r'.referrerId == r.referrerId
    && (r.status == Confirmed ==> r' == r)
  }

  lemma EvolvesTransitive(a: Db, b: Db, c: Db)
    requires Evolves(a, b) && Evolves(b, c)
    ensures Evolves(a, c)
  {
  }

  /** Whether signing up with `referralCode` redeems the row `r`: only a non-empty code is looked up. */
  predicate Redeems(r: Referral, referralCode: Option<string>) {
    referralCode.Some? && referralCode.value != [] && Matches(r, ByCode(referralCode.value))
  }

  predicate AnyRedeemed(rs: seq<Referral>, referralCode: Option<string>) {
    exists i :: 0 <= i < |rs| && Redeems(rs[i], referralCode)
  }

  /** The row the sign-up lookup finds, if the code is non-empty. */
  function RedeemLookup(rs: seq<Referral>, referralCode: Option<string>): Option<nat> {
    if referralCode.Some? && referralCode.value != [] then FirstPending(rs, ByCode(referralCode.value)) else None
  }

  /**
   * `criar_cliente`. A non-empty code that names a pending referral earns
   * the new customer the initial discount and links that referral to them;
   * its status stays pending. The insert fails on a taken email, and then
   * neither the customer nor the link is committed, but the id sequence has
   * still advanced.
   */
  function CreateCustomer(db: Db, name: string, email: string, monthlyFee: int, referralCode: Option<string>)
    : (r: (Db, CreateOutcome))
    requires Valid(db)
    ensures Valid(r.0) && Evolves(db, r.0)
    ensures r.0.nextCustomerId == db.nextCustomerId + 1 && r.0.nextReferralId == db.nextReferralId
    ensures r.1.DuplicateEmail? <==> EmailTaken(db.customers, email)
    ensures r.1.DuplicateEmail? ==> r.0.customers == db.customers && r.0.referrals == db.referrals
    ensures r.1.Created? ==>
      && r.1.id !in db.customers
      && r.1.name == name
      && r.0.customers == db.customers[r.1.id := Customer(name, email, monthlyFee, r.1.discountApplied)]
    ensures r.1.Created? ==>
      r.1.discountApplied == if AnyRedeemed(db.referrals, referralCode) then InitialDiscount else 0
    ensures r.1.Created? ==>
      && |r.0.referrals| == |db.referrals|
      && forall i :: 0 <= i < |db.referrals| ==>
           r.0.referrals[i] == if Redeems(db.referrals[i], referralCode)
                               then db.referrals[i].(referredId := Some(r.1.id))
                               else db.referrals[i]
  {
    var rs := db.referrals;
    var found := RedeemLookup(rs, referralCode);
    var discount := if found.Some? then InitialDiscount else 0;
    var id := db.nextCustomerId;
    if EmailTaken(db.customers, email) then
      (db.(nextCustomerId := id + 1), DuplicateEmail)
    else
      var rs' := if found.Some? then rs[found.value := rs[found.value].(referredId := Some(id))] else rs;
      assert forall i :: 0 <= i < |rs| ==> (Redeems(rs[i], referralCode) <==> found == Some(i)) by {
        forall i | 0 <= i < |rs| && Redeems(rs[i], referralCode)
          ensures found == Some(i)
        {
          AtMostOneMatch(db, ByCode(referralCode.value), i, found.value);
        }
      }
      var inserted := InsertCustomer(db, Customer(name, email, monthlyFee, discount));
      var linked := if found.Some? then LinkReferred(inserted, found.value, id) else inserted;
      assert linked.referrals == rs';
      (linked, Created(id, name, discount))
  }

  /** The INSERT into `clientes`: the new row takes the next value of the id sequence. */
  function InsertCustomer(db: Db, c: Customer): (db': Db)
    requires Valid(db) && !EmailTaken(db.customers, c.email) && c.pendingDiscount >= 0
    ensures Valid(db') && Evolves(db, db')
    ensures db'.customers == db.customers[db.nextCustomerId := c] && db.nextCustomerId !in db.customers
    ensures db'.referrals == db.referrals
    ensures db'.nextCustomerId == db.nextCustomerId + 1 && db'.nextReferralId == db.nextReferralId
  {
    db.(customers := db.customers[db.nextCustomerId := c], nextCustomerId := db.nextCustomerId + 1)
  }

  /** The UPDATE that names customer `id` as referred by the referral at position `k`. */
  function LinkReferred(db: Db, k: nat, id: nat): (db': Db)
    requires Valid(db) && k < |db.referrals| && db.referrals[k].status == Pending
    requires id in db.customers && db.referrals[k].referrerId < id
    requires forall i :: 0 <= i < |db.referrals| ==> db.referrals[i].referredId != Some(id)
    ensures Valid(db') && Evolves(db, db')
    ensures db'.referrals == db.referrals[k := db.referrals[k].(referredId := Some(id))]
    ensures db'.customers == db.customers
    ensures db'.nextCustomerId == db.nextCustomerId && db'.nextReferralId == db.nextReferralId
  {
    db.(referrals := db.referrals[k := db.referrals[k].(referredId := Some(id))])
  }

  /**
   * `gerar_codigo`. The code is the upper-cased first eight characters of a
   * random UUID's text. The insert succeeds only when the referrer exists and
   * the code is not yet used (the handler neither checks nor retries; a
   * violation escapes as a store error after consuming a sequence value).
   */
  function GenerateCode(db: Db, referrerId: nat, uuidText: string): (r: (Db, CodeOutcome))
    requires Valid(db)
    ensures Valid(r.0) && Evolves(db, r.0)
    ensures r.0.customers == db.customers
    ensures r.0.nextCustomerId == db.nextCustomerId && r.0.nextReferralId == db.nextReferralId + 1
    ensures r.1.CodeGenerated? <==> referrerId in db.customers && !CodeInUse(db.referrals, CodeFromUuid(uuidText))
    ensures r.1.StoreError? ==> r.0.referrals == db.referrals
    ensures r.1.CodeGenerated? ==>
      && r.1.code == CodeFromUuid(uuidText)
      && (IsUuidText(uuidText) ==> IsCodeShape(r.1.code))
      && !CodeInUse(db.referrals, r.1.code)
      && |r.0.referrals| == |db.referrals| + 1
      && r.0.referrals[..|db.referrals|] == db.referrals
      && r.0.referrals[|db.referrals|] == Referral(db.nextReferralId, r.1.code, referrerId, None, Pending)
  {
    var code := CodeFromUuid(uuidText);
    var id := db.nextReferralId;
    if referrerId !in db.customers || CodeInUse(db.referrals, code) then
      (db.(nextReferralId := id + 1), StoreError)
    else
      (db.(referrals := db.referrals + [Referral(id, code, referrerId, None, Pending)], nextReferralId := id + 1),
       CodeGenerated(code))
  }

  /**
   * `confirmar_pagamento`. Finds the pending referral naming the customer as
   * referred, credits its referrer with the reward and confirms it; without
   * one, answers not-found and changes nothing.
   */
  function ConfirmPayment(db: Db, referredId: nat): (r: (Db, ConfirmOutcome))
    requires Valid(db)
    ensures Valid(r.0) && Evolves(db, r.0)
    ensures r.0.nextCustomerId == db.nextCustomerId && r.0.nextReferralId == db.nextReferralId
    ensures r.1.NoPendingReferral? <==> forall i :: 0 <= i < |db.referrals| ==> !Matches(db.referrals[i], ByReferred(referredId))
    ensures r.1.NoPendingReferral? ==> r.0 == db
    ensures r.1.Rewarded? ==>
      && r.1.referrerId != referredId
      && (exists i :: 0 <= i < |db.referrals| && Matches(db.referrals[i], ByReferred(referredId))
                      && db.referrals[i].referrerId == r.1.referrerId)
    ensures r.1.Rewarded? ==>
      && r.1.referrerId in db.customers
      && var c := db.customers[r.1.referrerId];
         r.0.customers == db.customers[r.1.referrerId := c.(pendingDiscount := c.pendingDiscount + ReferrerReward)]
    ensures r.1.Rewarded? ==>
      && |r.0.referrals| == |db.referrals|
      && forall i :: 0 <= i < |db.referrals| ==>
           r.0.referrals[i] == if Matches(db.referrals[i], ByReferred(referredId))
                               then db.referrals[i].(status := Confirmed)
                               else db.referrals[i]
  {
    var rs := db.referrals;
    match FirstPending(rs, ByReferred(referredId))
    case None => (db, NoPendingReferral)
    case Some(k) =>
      assert forall i :: 0 <= i < |rs| && Matches(rs[i], ByReferred(referredId)) ==> i == k by {
        forall i | 0 <= i < |rs| && Matches(rs[i], ByReferred(referredId)) ensures i == k {
          AtMostOneMatch(db, ByReferred(referredId), i, k);
        }
      }
      (RewardAndConfirm(db, k), Rewarded(rs[k].referrerId))
  }

  /**
   * The two UPDATEs of a confirmation, committed together: the referrer of
   * the referral at position `k` gains the reward and the referral becomes
   * confirmed.
   */
  function RewardAndConfirm(db: Db, k: nat): (db': Db)
    requires Valid(db) && k < |db.referrals| && db.referrals[k].status == Pending
    ensures Valid(db') && Evolves(db, db')
    ensures var referrerId := db.referrals[k].referrerId;
      && referrerId in db.customers
      && var c := db.customers[referrerId];
         db'.customers == db.customers[referrerId := c.(pendingDiscount := c.pendingDiscount + ReferrerReward)]
    ensures db'.referrals == db.referrals[k := db.referrals[k].(status := Confirmed)]
    ensures db'.nextCustomerId == db.nextCustomerId && db'.nextReferralId == db.nextReferralId
  {
    var referrerId := db.referrals[k].referrerId;
    var c := db.customers[referrerId];
    db.(customers := db.customers[referrerId := c.(pendingDiscount := c.pendingDiscount + ReferrerReward)],
        referrals := db.referrals[k := db.referrals[k].(status := Confirmed)])
  }

  /**
   * The invoice amount, in cents: the fee less the pending discount, never
   * below zero. A discount of 100 points or more makes the invoice free; the
   * excess is not carried over.
   */
  function BillAmount(monthlyFee: int, discount: int): (amount: real)
    ensures amount >= 0.0
    ensures amount > 0.0 <==> monthlyFee * (100 - discount) > 0
    ensures amount > 0.0 ==> amount * 100.0 == (monthlyFee * (100 - discount)) as real
    ensures 0 <= monthlyFee && 0 <= discount ==> amount <= monthlyFee as real
    ensures 0 <= monthlyFee && discount == 0 ==> amount == monthlyFee as real
  {
    var gross := (monthlyFee * (100 - discount)) as real / 100.0;
    if gross < 0.0 then 0.0 else gross
  }

  /**
   * `faturar_cliente`. Charges the fee less the pending discount and resets
   * the discount to zero; an unknown customer gets not-found and nothing
   * changes.
   */
  function BillCustomer(db: Db, customerId: nat): (r: (Db, BillOutcome))
    requires Valid(db)
    ensures Valid(r.0) && Evolves(db, r.0)
    ensures r.0.referrals == db.referrals
    ensures r.0.nextCustomerId == db.nextCustomerId && r.0.nextReferralId == db.nextReferralId
    ensures r.1.CustomerNotFound? <==> customerId !in db.customers
    ensures r.1.CustomerNotFound? ==> r.0 == db
    ensures r.1.Billed? ==>
      && r.1.customerId == customerId
      && var c := db.customers[customerId];
         && r.1.finalAmount == BillAmount(c.monthlyFee, c.pendingDiscount)
         && 0.0 <= r.1.finalAmount
         && (0 <= c.monthlyFee ==> r.1.finalAmount <= c.monthlyFee as real)
         && r.0.customers == db.customers[customerId := c.(pendingDiscount := 0)]
  {
    if customerId !in db.customers then (db, CustomerNotFound)
    else
      var c := db.customers[customerId];
      (db.(customers := db.customers[customerId := c.(pendingDiscount := 0)]),
       Billed(customerId, BillAmount(c.monthlyFee, c.pendingDiscount)))
  }
}
