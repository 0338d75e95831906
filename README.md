# Referral and billing workflow, modelled in Dafny

The service keeps two tables. `clientes` holds customers, each with a monthly fee and a discount pending for their next invoice. `indicacoes` holds referrals: a code, the customer who generated it, the customer who redeemed it (if any) and a status, `pendente` or `confirmado`. Four request handlers change these tables:

- **sign up** (`criar_cliente`): creates a customer. If the request carries a code that names a pending referral, the new customer starts with a 10% discount and the referral is linked to them.
- **generate code** (`gerar_codigo`): cuts an 8-character code from a random UUID and inserts a pending referral for the given customer.
- **confirm payment** (`confirmar_pagamento`): finds the pending referral naming the paying customer as referred, adds 15% to the referrer's pending discount and confirms the referral.
- **bill** (`faturar_cliente`): charges the fee less the pending discount, never below zero, then resets the discount to zero.

The model has five modules:

- `Tables` (tables.dfy): the rows, the constraints the schema declares (`Schema`), the invariants the handlers keep on top of those (`Valid`), and the two lookups `fetchone` answers (`FirstPending`).
- `Codes` (codes.dfy): how a referral code is derived from a UUID's text.
- `Workflow` (workflow.dfy): each handler as a transition from the committed state before the request to the committed state after it, together with the handler's answer. Each transition's contract states what the handler promises.
- `Service` (service.dfy): the imperative form. The class `ReferralService` holds the two tables as a `map` and a `seq` and has one method per handler. Each method is proved to leave exactly the state, and give exactly the answer, of its `Workflow` transition.
- `Properties` (properties.dfy): lemmas that span several requests.

Modelling decisions:

- Money is exact. A fee is an integer number of cents. A discount is an integer number of percentage points (10 stands for 0.10). The bill amount is a Dafny `real`, which is an exact rational, in cents.
- Ids come from each table's SERIAL sequence, which starts at 1. A failed INSERT still consumes a sequence value, because PostgreSQL does not roll sequences back, and the model does the same.
- The referrals table is a sequence in insertion order. "The row `fetchone` returns" is the first matching row in that order. Under `Valid`, each query matches at most one row (`Tables.AtMostOneMatch`), so the choice does not affect any result.
- Each handler is one atomic step. A handler that fails before `commit` leaves both tables as they were.

Nothing stops a pending code from being redeemed more than once, or a linked referral from being re-linked. The sign-up lookup (app.py:67) filters only on the code and `status = 'pendente'`, not on `id_indicado IS NULL`. A pending code can therefore be redeemed again: every redeemer gets the 10% discount, and the referral is re-linked to the latest one (app.py:81). The model follows the code, and `Properties.RedeemingTwiceRelinksReferral` proves this behaviour.

## Model

| member | source | states |
|---|---|---|
| `Tables.FirstPending` | app.py:67-68 | The row found is pending and matches the query (code, or referred customer as at app.py:113-114), and no earlier row matches. Nothing is found exactly when no row matches. |
| `Tables.AtMostOneMatch` | app.py:42-47 | Under the invariant, two rows matching the same pending lookup are the same row, so `fetchone`'s choice is immaterial. |
| `Tables.EmptyIsValid` | app.py:30-49 | The freshly created, empty tables satisfy every schema constraint and invariant. |
| `Codes.Upper` | app.py:94 | `.upper()` keeps the length and leaves no lower-case letter. It turns every lower-case hex digit into an upper-case one and leaves upper-case hex digits unchanged. |
| `Codes.CodeFromUuid` | app.py:94 | A code has at most 8 characters. Cut from a canonical UUID text, it is exactly 8 upper-case hex digits. |
| `Workflow.CreateCustomer` | app.py:57-89 | Fails exactly when the email is taken, and then no customer and no link is committed. Otherwise exactly one customer is added under a fresh id. Its discount is 10 when a non-empty code names a pending referral, else 0. Exactly the pending referrals with that code are re-linked to the new id, and their status stays pending. The invariant is kept. |
| `Workflow.InsertCustomer` | app.py:74-78 | The insert adds the row under the next sequence value, which was free. The unique email and the invariant are kept. |
| `Workflow.LinkReferred` | app.py:80-81 | Setting `id_indicado` on the found row keeps both foreign keys, the one-referral-per-customer rule and the referrer-before-referred order. |
| `Workflow.GenerateCode` | app.py:91-106 | Succeeds exactly when the referrer exists and the derived code is unused. It then appends one pending referral with that code, that referrer, no referred customer and a fresh id. Customers are unchanged. On failure the referrals are unchanged. |
| `Workflow.ConfirmPayment` | app.py:108-130 | Not-found exactly when no pending referral names the customer, and then nothing changes. Otherwise the referrer of that referral gains exactly 15 points, nobody else changes, the referral becomes confirmed and all other referrals stay unchanged. The referrer is never the paying customer. |
| `Workflow.RewardAndConfirm` | app.py:123-126 | The two updates of a confirmation, applied together, keep the invariant and change only the referrer's discount and that referral's status. |
| `Workflow.BillAmount` | app.py:145-146 | The amount is never negative, and never more than the fee when fee and discount are non-negative. It equals fee × (100 − discount) / 100 when that is positive, and 0 otherwise. With no discount it is the whole fee. |
| `Workflow.BillCustomer` | app.py:132-159 | Not-found exactly when the customer is absent, and then nothing changes. Otherwise it answers `BillAmount` of the customer's fee and discount, sets that discount to 0 and changes nothing else. |
| `Properties.ServeAll` | app.py:57-159 | Any sequence of requests to the four handlers keeps the invariant. No row is deleted, no name, email, fee, id, code or referrer is rewritten, no confirmed referral changes again, and the sequences never go back. |
| `Properties.ReachableIsValid` | app.py:23-52 | Every state reached from the freshly created tables satisfies the schema constraints and the invariant. |
| `Properties.ConfirmationIsFinal` | app.py:124-125 | A confirmed referral stays exactly as it is through any later requests. |
| `Properties.SecondConfirmationFindsNothing` | app.py:113-126 | After a rewarded confirmation, confirming the same customer again answers not-found and changes nothing. |
| `Properties.SecondBillChargesFullFee` | app.py:145-148 | After a bill, the discount is 0. A second bill charges the whole fee (0 if the fee is negative) and changes nothing. |
| `Properties.RedeemingTwiceRelinksReferral` | app.py:66-81 | Two sign-ups with the same pending code both get the 10% discount. The referral then names only the second customer and is still pending, and confirming the first customer's payment finds nothing. |
| `Properties.ReferralRewardScenario` | app.py:57-159 | A signs up, generates a code, and B signs up with it and gets 10%. Confirming B's payment credits A with 15 and answers A's id. A's bill is the fee × 85 / 100, after which A's discount is 0. |
| `Service.ReferralService.constructor` | app.py:23-52 | The service starts with both tables empty, and the invariant holds. |
| `Service.ReferralService.CreateCustomer` | app.py:57-89 | Keeps the invariant. The new tables and the answer are those of `Workflow.CreateCustomer` applied to the old tables. |
| `Service.ReferralService.GenerateCode` | app.py:91-106 | Keeps the invariant. The new tables and the answer are those of `Workflow.GenerateCode`. |
| `Service.ReferralService.ConfirmPayment` | app.py:108-130 | Keeps the invariant. The new tables and the answer are those of `Workflow.ConfirmPayment`. |
| `Service.ReferralService.BillCustomer` | app.py:132-159 | Keeps the invariant. The new tables and the answer are those of `Workflow.BillCustomer`. |

## Left out

- HTTP plumbing is not modelled: Flask routing, reading the JSON body, status codes and response bodies. This includes the `"10.0%"` text of the applied discount (app.py:84) and the bill's elided response fields (app.py:151-158). The answers are modelled as datatypes carrying the same information.
- A request with a missing or `null` field is not modelled. A missing field raises `KeyError`, which becomes a server error. A `null` name or fee breaks a NOT NULL constraint, which sign-up reports as "email already registered", because it catches every integrity error.
- CORS (app.py:12-16), the connection factory and its environment lookup (app.py:18-21), and running the DDL (app.py:23-52) are not modelled. The schema's constraints are kept as the `Tables.Schema` invariant.
- The randomness of `uuid.uuid4()` (app.py:94) is not modelled. Its text is a parameter of code generation.
- Floating-point `REAL` arithmetic (app.py:35-36, 145) is not modelled. Amounts are exact, so float rounding of accumulated discounts and bill amounts is not captured.
- Codes.Upper: upper-cases only ASCII letters. These are all that the hex digits of a UUID contain; Python's full Unicode case mapping is not modelled.
- Concurrency, transaction isolation and races between simultaneous redemptions are not modelled. Each handler is one atomic step.
- Database connectivity failures, and the missing `psycopg2.extras` import (app.py:136), are not modelled.
