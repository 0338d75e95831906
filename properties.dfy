/**
 * Properties of the referral workflow that span several requests.
 */
module Properties {
  import opened Tables
  import opened Codes
  import opened Workflow

  /** One request to any of the four handlers, with its arguments. */
  datatype Request =
    | CreateCustomerRequest(name: string, email: string, monthlyFee: int, referralCode: Option<string>)
    | GenerateCodeRequest(customerId: nat, uuidText: string)
    | ConfirmPaymentRequest(referredId: nat)
    | BillCustomerRequest(customerId: nat)

  function Serve(db: Db, req: Request): (db': Db)
    requires Valid(db)
    ensures Valid(db') && Evolves(db, db')
  {
    match req
    case CreateCustomerRequest(name, email, fee, code) => CreateCustomer(db, name, email, fee, code).0
    case GenerateCodeRequest(id, u) => GenerateCode(db, id, u).0
    case ConfirmPaymentRequest(id) => ConfirmPayment(db, id).0
    case BillCustomerRequest(id) => BillCustomer(db, id).0
  }

  /**
   * The tables after serving `reqs` one after another. Whatever the
   * requests, the invariant holds throughout, and nothing is deleted,
   * no identity field is rewritten and no confirmed referral changes.
   */
  function ServeAll(db: Db, reqs: seq<Request>): (db': Db)
    requires Valid(db)
    ensures Valid(db') && Evolves(db, db')
    decreases |reqs|
  {
    if reqs == [] then db
    else
      var next := Serve(db, reqs[0]);
      var last := ServeAll(next, reqs[1..]);
      EvolvesTransitive(db, next, last);
      last
  }

  /** Every state the service reaches from freshly created tables satisfies the invariant. */
  lemma ReachableIsValid(reqs: seq<Request>)
    ensures Valid(ServeAll(Empty(), reqs))
  {
  }

  /** A confirmed referral is final: no later request changes it. */
  lemma ConfirmationIsFinal(db: Db, reqs: seq<Request>, i: nat)
    requires Valid(db) && i < |db.referrals| && db.referrals[i].status == Confirmed
    ensures i < |ServeAll(db, reqs).referrals| && ServeAll(db, reqs).referrals[i] == db.referrals[i]
  {
  }

  /** A payment is rewarded once: confirming the same referred customer again finds nothing and changes nothing. */
  lemma SecondConfirmationFindsNothing(db: Db, referredId: nat)
    requires Valid(db)
    requires ConfirmPayment(db, referredId).1.Rewarded?
    ensures var after := ConfirmPayment(db, referredId).0;
      ConfirmPayment(after, referredId) == (after, NoPendingReferral)
  {
  }

  /** Billing resets the discount, so a second bill in a row charges the whole fee (never less than zero). */
  lemma SecondBillChargesFullFee(db: Db, customerId: nat)
    requires Valid(db) && customerId in db.customers
    ensures var after := BillCustomer(db, customerId).0;
      var fee := db.customers[customerId].monthlyFee;
      && after.customers[customerId].pendingDiscount == 0
      && BillCustomer(after, customerId).1 == Billed(customerId, if fee < 0 then 0.0 else fee as real)
      && BillCustomer(after, customerId).0 == after
  {
  }

  /**
   * The sign-up lookup does not require the referral to be unused, so a
   * pending code can be redeemed again: both new customers get the initial
   * discount, the referral now names only the second one, and confirming
   * the first one's payment finds nothing.
   */
  lemma RedeemingTwiceRelinksReferral(db: Db, k: nat, n1: string, e1: string, f1: int, n2: string, e2: string, f2: int)
    requires Valid(db)
    requires k < |db.referrals| && db.referrals[k].status == Pending && db.referrals[k].code != []
    requires !EmailTaken(db.customers, e1) && !EmailTaken(db.customers, e2) && e1 != e2
    ensures var code := Some(db.referrals[k].code);
      var first := CreateCustomer(db, n1, e1, f1, code);
      && first.1.Created? && first.1.discountApplied == InitialDiscount
      && var second := CreateCustomer(first.0, n2, e2, f2, code);
      && second.1.Created? && second.1.discountApplied == InitialDiscount
      && first.1.id != second.1.id
      && second.0.referrals[k].referredId == Some(second.1.id)
      && second.0.referrals[k].status == Pending
      && ConfirmPayment(second.0, first.1.id).1 == NoPendingReferral
  {
    var code := Some(db.referrals[k].code);
    var (db1, first) := CreateCustomer(db, n1, e1, f1, code);
    assert Redeems(db.referrals[k], code);
    assert db1.referrals[k] == db.referrals[k].(referredId := Some(first.id));
    assert Redeems(db1.referrals[k], code);
    var (db2, second) := CreateCustomer(db1, n2, e2, f2, code);
    assert db2.referrals[k] == db1.referrals[k].(referredId := Some(second.id));
    forall i | 0 <= i < |db2.referrals|
      ensures !Matches(db2.referrals[i], ByReferred(first.id))
    {
      if i != k {
        assert db1.referrals[i].referredId != Some(first.id);
      }
    }
  }

  /**
   * The end-to-end referral story: A signs up without a code; A generates a
   * code; B signs up with it and gets the initial discount; B's payment is
   * confirmed, which credits A with the reward; A's next invoice is the fee
   * less the reward, and A's discount is back to zero.
   */
  lemma ReferralRewardScenario(nameA: string, emailA: string, feeA: nat, uuidText: string,
                               nameB: string, emailB: string, feeB: int)
    requires emailA != emailB && IsUuidText(uuidText)
    ensures Valid(Empty())  // so that the first handler below may be applied
    ensures
      var signUpA := CreateCustomer(Empty(), nameA, emailA, feeA, None);
      var a := signUpA.1;
      && a.Created? && a.discountApplied == 0
      && var gen := GenerateCode(signUpA.0, a.id, uuidText);
      && gen.1.CodeGenerated? && IsCodeShape(gen.1.code)
      && var signUpB := CreateCustomer(gen.0, nameB, emailB, feeB, Some(gen.1.code));
      && signUpB.1.Created? && signUpB.1.discountApplied == InitialDiscount
      && var confirm := ConfirmPayment(signUpB.0, signUpB.1.id);
      && confirm.1 == Rewarded(a.id)
      && a.id in confirm.0.customers && confirm.0.customers[a.id].pendingDiscount == ReferrerReward
      && var bill := BillCustomer(confirm.0, a.id);
      && bill.1 == Billed(a.id, (feeA * (100 - ReferrerReward)) as real / 100.0)
      && bill.0.customers[a.id].pendingDiscount == 0
  {
    var code := CodeFromUuid(uuidText);
    var custA := Customer(nameA, emailA, feeA, 0);
    var db1 := Db(map[1 := custA], [], 2, 1);
    var db2 := db1.(referrals := [Referral(1, code, 1, None, Pending)], nextReferralId := 2);
    var db3 := Db(map[1 := custA, 2 := Customer(nameB, emailB, feeB, InitialDiscount)],
                  [Referral(1, code, 1, Some(2), Pending)], 3, 2);
    var db4 := db3.(customers := db3.customers[1 := custA.(pendingDiscount := ReferrerReward)],
                    referrals := [Referral(1, code, 1, Some(2), Confirmed)]);
    EmptyIsValid();
    ScenarioSignUpA(nameA, emailA, feeA);
    assert CreateCustomer(Empty(), nameA, emailA, feeA, None) == (db1, Created(1, nameA, 0));
    ScenarioGenerate(db1, uuidText);
    assert GenerateCode(db1, 1, uuidText) == (db2, CodeGenerated(code));
    assert IsCodeShape(code);
    ScenarioSignUpB(db2, nameB, emailB, feeB);
    assert CreateCustomer(db2, nameB, emailB, feeB, Some(code)) == (db3, Created(2, nameB, InitialDiscount));
    ScenarioConfirm(db3);
    assert ConfirmPayment(db3, 2) == (db4, Rewarded(1));
    assert BillCustomer(db4, 1).1 == Billed(1, BillAmount(feeA, ReferrerReward));
    assert BillAmount(feeA, ReferrerReward) == (feeA * (100 - ReferrerReward)) as real / 100.0;
  }

  // The steps of the scenario above, one handler each, on the concrete tables they meet.

  lemma ScenarioSignUpA(nameA: string, emailA: string, feeA: int)
    ensures CreateCustomer(Empty(), nameA, emailA, feeA, None)
         == (Db(map[1 := Customer(nameA, emailA, feeA, 0)], [], 2, 1), Created(1, nameA, 0))
  {
  }

  lemma ScenarioGenerate(db1: Db, uuidText: string)
    requires db1.customers.Keys == {1} && db1.referrals == [] && db1.nextCustomerId == 2 && db1.nextReferralId == 1
    requires db1.customers[1].pendingDiscount >= 0
    ensures Valid(db1)
    ensures GenerateCode(db1, 1, uuidText)
         == (db1.(referrals := [Referral(1, CodeFromUuid(uuidText), 1, None, Pending)], nextReferralId := 2),
             CodeGenerated(CodeFromUuid(uuidText)))
  {
  }

  lemma ScenarioSignUpB(db2: Db, nameB: string, emailB: string, feeB: int)
    requires Valid(db2) && db2.customers.Keys == {1} && db2.customers[1].email != emailB
    requires db2.nextCustomerId == 2 && |db2.referrals| == 1
    requires db2.referrals[0].status == Pending && db2.referrals[0].code != []
    ensures CreateCustomer(db2, nameB, emailB, feeB, Some(db2.referrals[0].code))
         == (Db(db2.customers[2 := Customer(nameB, emailB, feeB, InitialDiscount)],
                [db2.referrals[0].(referredId := Some(2))], 3, db2.nextReferralId),
             Created(2, nameB, InitialDiscount))
  {
    var code := Some(db2.referrals[0].code);
    assert Redeems(db2.referrals[0], code);
    assert !EmailTaken(db2.customers, emailB);
    var (db3, b) := CreateCustomer(db2, nameB, emailB, feeB, code);
    assert db3.referrals == [db2.referrals[0].(referredId := Some(2))];
  }

  lemma ScenarioConfirm(db3: Db)
    requires Valid(db3) && |db3.referrals| == 1 && db3.referrals[0].status == Pending
    requires db3.referrals[0].referredId == Some(2) && db3.referrals[0].referrerId == 1
    ensures ConfirmPayment(db3, 2)
         == (db3.(customers := db3.customers[1 := db3.customers[1].(pendingDiscount := db3.customers[1].pendingDiscount + ReferrerReward)],
                  referrals := [db3.referrals[0].(status := Confirmed)]),
             Rewarded(1))
  {
    assert Matches(db3.referrals[0], ByReferred(2));
    var (db4, c) := ConfirmPayment(db3, 2);
    assert db4.referrals == [db3.referrals[0].(status := Confirmed)];
  }
}
