/**
 * The two tables of the referral service (`clientes` and `indicacoes`), the
 * constraints their schema declares, and the two lookups the handlers run
 * against the referrals table.
 *
 * Money is kept exact: a monthly fee is an integer number of cents and a
 * discount is an integer number of percentage points (10 stands for 0.10).
 */
module Tables {

  datatype Option<+T> = None | Some(value: T)

  /** The two values the `status` column takes. */
  datatype Status = Pending | Confirmed

  /** A row of `clientes`, without its key. */
  datatype Customer = Customer(
    name: string,
    email: string,
    monthlyFee: int,       // cents
    pendingDiscount: int   // percentage points, applied to the next invoice
  )

  /** A row of `indicacoes`. */
  datatype Referral = Referral(
    id: nat,
    code: string,
    referrerId: nat,
    referredId: Option<nat>,
    status: Status
  )

  /**
   * The persistent state: customers keyed by id, referrals in insertion
   * order, and the next value of each table's SERIAL sequence.
   */
  datatype Db = Db(
    customers: map<nat, Customer>,
    referrals: seq<Referral>,
    nextCustomerId: nat,
    nextReferralId: nat
  )

  /** Discount given to a customer who signs up with a pending code. */
  const InitialDiscount: int := 10
  /** Discount credited to the referrer when the referred customer pays. */
  const ReferrerReward: int := 15

  /** The tables as the schema creates them: empty, sequences at 1. */
  function Empty(): Db {
    Db(map[], [], 1, 1)
  }

  predicate EmailTaken(customers: map<nat, Customer>, email: string) {
    exists id :: id in customers && customers[id].email == email
  }

  predicate CodeInUse(referrals: seq<Referral>, code: string) {
    exists i :: 0 <= i < |referrals| && referrals[i].code == code
  }

  /**
   * What the schema guarantees of every state: SERIAL keys start at 1 and
   * stay below their sequence, `email` and `codigo` are UNIQUE, `indicacoes.id`
   * is a key (rows kept in increasing id order), and both foreign keys of
   * `indicacoes` point at existing customers.
   */
  ghost predicate Schema(db: Db) {
    var cs, rs := db.customers, db.referrals;
    && db.nextCustomerId >= 1
    && db.nextReferralId >= 1
    && (forall id :: id in cs ==> 1 <= id < db.nextCustomerId)
    && (forall a, b :: a in cs && b in cs && a != b ==> cs[a].email != cs[b].email)
    && (forall i :: 0 <= i < |rs| ==> 1 <= rs[i].id < db.nextReferralId)
    && (forall i, j :: 0 <= i < j < |rs| ==> rs[i].id < rs[j].id && rs[i].code != rs[j].code)
    && (forall i :: 0 <= i < |rs| ==> rs[i].referrerId in cs)
    && (forall i :: 0 <= i < |rs| && rs[i].referredId.Some? ==> rs[i].referredId.value in cs)
  }

  /**
   * The schema constraints plus what the handlers themselves maintain:
   * discounts are never negative, a referred customer always signed up
   * after the referrer (so nobody refers themselves), and no customer is
   * named as referred by two referrals.
   */
  ghost predicate Valid(db: Db) {
    var cs, rs := db.customers, db.referrals;
    && Schema(db)
    && (forall id :: id in cs ==> cs[id].pendingDiscount >= 0)
    && (forall i :: 0 <= i < |rs| && rs[i].referredId.Some? ==> rs[i].referrerId < rs[i].referredId.value)
    && (forall i, j :: 0 <= i < j < |rs| && rs[i].referredId.Some? ==> rs[i].referredId != rs[j].referredId)
  }

  /** The two queries the handlers run: by code, and by referred customer, both restricted to pending rows. */
  datatype Lookup = ByCode(code: string) | ByReferred(customerId: nat)

  predicate Matches(r: Referral, q: Lookup) {
    && r.status == Pending
    && match q
       case ByCode(c) => r.code == c
       case ByReferred(id) => r.referredId == Some(id)
  }

  /** The position of the first row the query finds (what `fetchone` returns), if any. */
  function FirstPending(rs: seq<Referral>, q: Lookup): (r: Option<nat>)
    ensures r.Some? ==> r.value < |rs| && Matches(rs[r.value], q)
    ensures r.Some? ==> forall j :: 0 <= j < r.value ==> !Matches(rs[j], q)
    ensures r.None? <==> forall j :: 0 <= j < |rs| ==> !Matches(rs[j], q)
    decreases |rs|
  {
    if rs == [] then None
    else if Matches(rs[0], q) then Some(0)
    else
      match FirstPending(rs[1..], q)
      case None => None
      case Some(k) => Some(k + 1)
  }

  /** Under the invariant, each query finds at most one row, so which one `fetchone` returns is immaterial. */
  lemma AtMostOneMatch(db: Db, q: Lookup, i: nat, j: nat)
    requires Valid(db)
    requires i < |db.referrals| && j < |db.referrals|
    requires Matches(db.referrals[i], q) && Matches(db.referrals[j], q)
    ensures i == j
  {
  }

  lemma EmptyIsValid()
    ensures Valid(Empty()) && Empty().customers == map[] && Empty().referrals == []
  {
  }
}
