/**
 * The service as it runs: one object holding the two tables, whose methods
 * are the four request handlers. Each handler runs as one atomic step and
 * leaves the tables exactly as the matching transition of `Workflow` says.
 */
module Service {
  import opened Tables
  import opened Codes
  import Workflow

  class ReferralService {
    var customers: map<nat, Customer>
    var referrals: seq<Referral>
    var nextCustomerId: nat
    var nextReferralId: nat

    /** The committed contents of both tables and both sequences. */
    function State(): Db
      reads this
    {
      Db(customers, referrals, nextCustomerId, nextReferralId)
    }

    ghost predicate Valid()
      reads this
    {
      Tables.Valid(State())
    }

    /** `init_db`: both tables created empty. */
    constructor ()
      ensures Valid() && State() == Empty()
    {
      customers := map[];
      referrals := [];
      nextCustomerId := 1;
      nextReferralId := 1;
      EmptyIsValid();
    }

    /** `criar_cliente`: sign up, redeeming a referral code if one is given. */
    method CreateCustomer(name: string, email: string, monthlyFee: int, referralCode: Option<string>)
      returns (outcome: Workflow.CreateOutcome)
      requires Valid()
      modifies this
      ensures Valid()
      ensures (State(), outcome) == Workflow.CreateCustomer(old(State()), name, email, monthlyFee, referralCode)
    {
      ghost var before := State();
      var discount := 0;
      var referralIndex: Option<nat> := None;
      if referralCode.Some? && referralCode.value != [] {
        var found := FirstPending(referrals, ByCode(referralCode.value));
        if found.Some? {
          discount := InitialDiscount;
          referralIndex := found;
        }
      }
      var id := nextCustomerId;
      nextCustomerId := nextCustomerId + 1;
      if EmailTaken(customers, email) {
        // the INSERT raises an integrity error: nothing is committed
        return Workflow.DuplicateEmail;
      }
      customers := customers[id := Customer(name, email, monthlyFee, discount)];
      if referralIndex.Some? {
        var k := referralIndex.value;
        referrals := referrals[k := referrals[k].(referredId := Some(id))];
      }
      outcome := Workflow.Created(id, name, discount);
      assert (State(), outcome) == Workflow.CreateCustomer(before, name, email, monthlyFee, referralCode);
    }

    /** `gerar_codigo`: `uuidText` is the text of the random UUID the code is cut from. */
    method GenerateCode(referrerId: nat, uuidText: string) returns (outcome: Workflow.CodeOutcome)
      requires Valid()
      modifies this
      ensures Valid()
      ensures (State(), outcome) == Workflow.GenerateCode(old(State()), referrerId, uuidText)
    {
      var code := CodeFromUuid(uuidText);
      var id := nextReferralId;
      nextReferralId := nextReferralId + 1;
      if referrerId !in customers || CodeInUse(referrals, code) {
        // the INSERT breaks the foreign key or the unique code
        return Workflow.StoreError;
      }
      referrals := referrals + [Referral(id, code, referrerId, None, Pending)];
      outcome := Workflow.CodeGenerated(code);
    }

    /** `confirmar_pagamento`: reward the referrer of the customer who paid. */
    method ConfirmPayment(referredId: nat) returns (outcome: Workflow.ConfirmOutcome)
      requires Valid()
      modifies this
      ensures Valid()
      ensures (State(), outcome) == Workflow.ConfirmPayment(old(State()), referredId)
    {
      ghost var before := State();
      var found := FirstPending(referrals, ByReferred(referredId));
      if found.None? {
        return Workflow.NoPendingReferral;
      }
      var k := found.value;
      var referrerId := referrals[k].referrerId;
      var referrer := customers[referrerId];
      customers := customers[referrerId := referrer.(pendingDiscount := referrer.pendingDiscount + ReferrerReward)];
      referrals := referrals[k := referrals[k].(status := Confirmed)];
      outcome := Workflow.Rewarded(referrerId);
      assert State() == Workflow.RewardAndConfirm(before, k);
    }

    /** `faturar_cliente`: charge the next invoice and clear the pending discount. */
    method BillCustomer(customerId: nat) returns (outcome: Workflow.BillOutcome)
      requires Valid()
      modifies this
      ensures Valid()
      ensures (State(), outcome) == Workflow.BillCustomer(old(State()), customerId)
    {
      if customerId !in customers {
        return Workflow.CustomerNotFound;
      }
      var customer := customers[customerId];
      var amount := Workflow.BillAmount(customer.monthlyFee, customer.pendingDiscount);
      customers := customers[customerId := customer.(pendingDiscount := 0)];
      outcome := Workflow.Billed(customerId, amount);
    }
  }
}
