# Vendor Growth Fund: pricing, payment classification and the advance lifecycle

A Dafny model of the core of a small Streamlit application that recommends working-capital
advances ("micro-loans") to street vendors, disburses them through the Payman payment provider,
tracks daily sales and pays a growth bonus on good days. The repository has two versions of the
app and a separate pricing script:

- `app.py` pays through the Payman SDK (`client.ask`) and classifies the SDK's free-form answer;
- `pay2.py` pays through direct HTTP calls (`send_payman_payment`);
- `logic.py` is a stand-alone pricing function with a larger tier table.

Modules (one file each):

| file | module | what it models |
|---|---|---|
| `text.dfy` | `Text` | Python truthiness of optional strings, `a or b`, ASCII lower-casing for `str.lower()`, the substring test `k in s` |
| `pricing.dfy` | `Pricing` | `calculate_loan_amount` of app.py and pay2.py (the two copies, app.py:31-51 and pay2.py:31-76, are identical in behaviour and differ only in docstrings and layout, so one function models both) |
| `logic_pricing.dfy` | `LogicPricing` | `calculate_loan_amount` of logic.py |
| `payment.dfy` | `Payment` | the payment order (payee, amount, currency, memo), app.py's `send_payman_payment_sdk` (guards and response classification) and the guards of pay2.py's `send_payman_payment` |
| `lifecycle.dfy` | `Lifecycle` | the `st.session_state` record as a class `Session`, one method per button, in states `Initial → LoanRequested → LoanApproved → TrackingSales` |

Arithmetic is exact. Python computes the prices in binary floating point and returns
`float(int(x))`; the model computes in `real` and returns the integer that float holds. The two
agree for every tier: the doubles nearest to 1.1, 0.9 and 0.1 all lie slightly above those
decimals, so each float product is at or just above the exact product, and every exact product
here is an integer or an integer plus one half, so truncation gives the same integer.
`Pricing.MatchesTenths` and `LogicPricing.MatchesExact` restate each engine in integer arithmetic
and prove the two formulations equal.

Lower-casing is ASCII-only. For the comparisons the code makes ("food", "clothing", and the
keywords rejected, failed, declined, sent, success, completed) this gives the same answers as
Python's Unicode `lower()`: the only non-ASCII characters whose lower case contains ASCII letters
are U+212A (to "k", which no keyword contains) and U+0130 (to "i" followed by a combining dot, so
no keyword can match through it).

The session's methods are button presses. Each requires the `app_state` branch that renders its
button (and Confirm requires `calculated_loan_amount > 0`, the condition that shows it). The form
values, the payee text box, whether the SDK client exists and what the payment provider answered
are parameters. The session code is identical in behaviour in both apps (app.py:55-69 and 137-262,
pay2.py:80-95 and 161-281). The texts differ: the currency symbols and names, the extra notice at
pay2.py:203, and pay2.py's failed disbursement, which does not repeat app.py:223's assignment of
`loan_approved` to a state that already holds it. Only the payment call differs, and only app.py
checks for its SDK client before a disbursement. So disbursement and sales recording each come in
two methods, `…Sdk` for app.py and `…Direct` for pay2.py, and both share `SettleDisbursement` and
`SettleBonus`. The rows below cite app.py's lines for the shared methods; pay2.py's corresponding
lines are 170-199 (Calculate, Confirm), 208-211 (Approve) and 217-221 (SetPayee).

What each payment call asks the provider for is a `PaymentOrder`: the payee ID, the amount, the
currency ("TSD" in app.py, "INR" in pay2.py) and the memo ("Micro-loan for {name}'s Thela" or
"Growth bonus for {name} (sales performance)"). The session keeps the orders it has handed to the
provider, oldest first, in `orders`. The invariant `Valid()` adds that no order is placed before
approval and that every order goes to a non-empty payee for either the frozen loan amount or the
bonus amount of 5; the methods state which order each press appends.

`Lifecycle.Walkthrough` and `Lifecycle.WalkthroughPayments` are clients of these contracts that
prove, for one session: Calculate with sales 12, "Food" and 7 days gives 37; Confirm; Approve;
SetPayee; a disbursement whose SDK call raised leaves the balance at 0 but has ordered 37 TSD; a
retry orders it again and succeeds with balance 37; a day with sales 50 orders and adds a bonus
(balance 42, bonuses 5, day 1); a day with sales 49 only counts (day 2) and orders nothing.

Some of the app's behaviour differs from what a reader of its screens might expect. The model
follows the code in each case:

- A refused transition is not recorded. Pressing Disburse without an SDK client or without a
  payee ID only displays a warning. The session, its message included, stays as it was, and so it
  does in the model.
- The tier table is not configuration. The code hard-codes it, and so does the model.
- The business type is not an enum. The code compares strings, lower-cased in the apps and
  case-sensitively in logic.py, and the model does the same.
- Submitting the vendor's details is not a separate action. It is the same form submission as
  Calculate: the form's values are stored and then priced.
- A submission with an empty name keeps the previous recommendation (app.py:147-150 returns
  before pricing), and the Confirm button stays shown (app.py:170). So a recommendation priced
  for one set of inputs can be confirmed after the form was changed to a name that is empty and
  sales below 5. `Lifecycle.StaleRecommendation` proves such a run: 37 is confirmed for an empty
  name with stored sales of 3.

## Model

| member | source | states |
|---|---|---|
| `Text.Or` | app.py:95-96 | Python `a or b`: the result is truthy iff either operand is; it is `a` when `a` is truthy, else `b`, even when `b` is itself falsy (`"" or None` is `None`) |
| `Text.Lower` | app.py:41-44 | ASCII lower-casing standing for `str.lower()`: keeps the length, maps A–Z to a–z, leaves every other character |
| `Text.ContainsIffOccurs` | app.py:107-113 | the left-to-right scan used for `k in s` succeeds exactly when `k` occurs at some position of `s` |
| `Pricing.Trunc` | app.py:51 | `int(x)` truncates toward zero: for x ≥ 0 the result is the integer n with n ≤ x < n+1, for x < 0 the one with n-1 < x ≤ n |
| `Pricing.BaseFromSales` | app.py:33-37 | the base tier is 0 exactly when sales are below 5, and otherwise one of 15, 25, 35 |
| `Pricing.CalculateLoanAmount` | app.py:31-51 | sales below 5 give (0, 0) for every type and day count; every result is (0, 0) or an amount in [10, 600] with an incentive ≥ 0; the amount is positive iff sales ≥ 5; a non-zero incentive only for a type that lower-cases to "food" |
| `Pricing.MatchesTenths` | app.py:39-51 | the engine equals the integer reference: amount = ⌊(base·factor + 100·[days ≥ 6]) / 10⌋ with factor 11 (food), 9 (clothing), 10 (other), incentive = ⌊base/10⌋ for food, else 0; the cap and minimum never bind |
| `Pricing.NoRecommendationIsZeroPair` | pay2.py:39-55 | as the docstring promises, "no loan" is the pair (0, 0), and sales below 5 always give it |
| `Pricing.AmountMonotone` | app.py:34-51 | for fixed type and day count, higher sales never give a smaller amount |
| `Pricing.TierBands` | app.py:34-37 | the bands are lower-bound inclusive: [5,10) gives 15, [10,15) gives 25, from 15 on 35 (unadjusted type, fewer than 6 days) |
| `Pricing.CaseInsensitive` | app.py:41-44 | the result depends only on the lower-cased business type |
| `Pricing.FoodScenario` | app.py:41-51 | (12, "Food", 7) gives (37, 2): 25·1.1 + 10 = 37.5 truncated, incentive 2.5 truncated |
| `Pricing.ClothingTruncates` | pay2.py:63-76 | (12, "clothing", 5) gives 22: 22.5 is truncated, not rounded |
| `LogicPricing.BaseFromSales` | logic.py:14-24 | the base tier is 0 exactly when sales are below 500, otherwise 5000, 10000 or 15000 |
| `LogicPricing.CalculateLoanAmount` | logic.py:1-54 | sales below 500 give 0; every result is 0 or in [10, 20000]; the result is positive iff sales ≥ 500 |
| `LogicPricing.MatchesExact` | logic.py:30-54 | the engine equals base/10·factor + 2000·[days ≥ 6] exactly (factor 11 for "food", 9 for "clothing", else 10); nothing is lost to truncation and the cap never binds |
| `LogicPricing.AmountMonotone` | logic.py:17-54 | for fixed type and day count, higher sales never give a smaller amount |
| `LogicPricing.TierBands` | logic.py:17-24 | lower-bound inclusive bands: [500,1000) gives 5000, [1000,2000) gives 10000, from 2000 on 15000 |
| `LogicPricing.CaseSensitive` | logic.py:34-38 | "Food" prices exactly like an unrecognised type, and "food" strictly higher |
| `LogicPricing.OperatingDaysBonus` | logic.py:41-46 | six operating days give exactly 2000 more than five |
| `LogicPricing.SampleUsage` | logic.py:59-64 | (1500, "food", 7) gives 13000 |
| `Payment.MentionsScan` | app.py:107-113 | `keyword in text.lower()` holds iff the keyword occurs somewhere in the lower-cased text |
| `Payment.StatusOf` | app.py:95 | `status or state or payment_status`: the first truthy of the three in that order, else the last (`payment_status`); so truthy iff one of the three is |
| `Payment.MessageOf` | app.py:96 | `message or error or detail`: the first truthy of the three in that order, else the last (`detail`); so truthy iff one of the three is |
| `Payment.SendPaymentSdk` | app.py:72-122 | no client: the client error; empty destination: the payee error, before any call; an exception: the SDK error; otherwise a failure iff the response carries a rejection signal (first truthy of status/state/payment_status lower-cased in {rejected, failed, declined}, or a text containing one of those words in any case), with the reason the code builds; on success the transaction id is `transaction_id or id` for a dict, "Confirmed via AI response" for a text mentioning sent/success/completed, and "N/A" otherwise |
| `Payment.SendPaymentDirect` | pay2.py:143-152 | an empty destination gives the payee error whatever the authentication would do; a failed authentication gives the authentication error; otherwise the payment's outcome |
| `Payment.TextCaseInsensitive` | app.py:107-110 | two texts that lower-case alike are classified alike |
| `Payment.RejectionBeforeSuccess` | app.py:108-114 | a text mentioning both "failed" and "success" is a rejection |
| `Payment.OptimisticDefault` | app.py:116-118 | without a rejection signal (and without an exception) the result is a success |
| `Payment.EmptyStatusFallsThrough` | app.py:95-100 | an empty `status` is skipped by `or`, so a `state` of "Declined" rejects, with reason "Status: Declined" |
| `Payment.StateBeforePaymentStatus` | app.py:95-98 | the status keys are read in order: a `state` of "ok" makes a success although `payment_status` says "failed" |
| `Payment.UpperCaseRejection` | app.py:107-110 | the text "DECLINED" is a rejection |
| `Lifecycle.Session.constructor` | app.py:55-69 | the initial session: state initial, every field at the value the script sets, no payment ordered, and the invariant holds |
| `Lifecycle.Session.Calculate` | app.py:137-168 | the form values are stored; an empty name sets only the "name required" message; sales below 5 zero both outputs; otherwise both outputs are the pricing engine's; Confirm is offered iff sales ≥ 5 |
| `Lifecycle.Session.Confirm` | app.py:170-175 | offered only while the recommendation is positive; freezes it as the loan amount and moves to loan_requested |
| `Lifecycle.Session.Approve` | app.py:183-186 | loan_requested moves to loan_approved |
| `Lifecycle.Session.SetPayee` | app.py:191-195 | on the approval page only the payee ID changes |
| `Lifecycle.Session.SettleDisbursement` | app.py:215-223 | success adds the frozen loan amount to the balance, sets loan_disbursed and moves to tracking_sales; failure only sets the message and stays in loan_approved |
| `Lifecycle.Session.DisburseSdk` | app.py:197-224 | no client or no payee ID changes nothing and orders nothing; otherwise exactly one order, the frozen loan amount in TSD to the entered payee with the micro-loan memo, goes to the SDK, and the SDK's result for that order is booked as above; the balance never falls |
| `Lifecycle.Session.DisburseDirect` | pay2.py:223-244 | no payee ID changes nothing; otherwise the loan amount in INR is ordered once authentication succeeds, and the result of `send_payman_payment` for that order is booked as above |
| `Lifecycle.Session.SettleBonus` | app.py:254-259 | only a successful bonus payment adds 5 to both the balance and the bonus total |
| `Lifecycle.Session.OpenDay` | app.py:240-242 | the day's sales are stored and days_tracked rises by one |
| `Lifecycle.Session.RecordSalesSdk` | app.py:237-262 | days_tracked always rises by one; only at sales ≥ 50 with a client is one order of 5 TSD with the growth-bonus memo sent, and the result for it is booked as above; below 50 balance, bonuses and orders stay; the tracking invariant (balance = loan + bonuses, bonuses ≤ 5·days, payee set) is kept |
| `Lifecycle.Session.RecordSalesDirect` | pay2.py:257-281 | the same for pay2.py: 5 INR is ordered only at sales ≥ 50 once authentication succeeds, and the bonus is booked from `send_payman_payment`'s result |

## Left out

- Streamlit rendering: titles, forms, widgets, spinners, the sidebar, metrics and `st.rerun`. These are presentation only; the model keeps the session fields they write.
- The widgets' input bounds (sales ≥ 0, days 1 to 7, the three business types). The model accepts any value, which is more general.
- The food-increment notice on the request page (app.py:180-181, pay2.py:205-206). It only displays a value.
- Credential loading, `.env`, the SDK client construction and the debug prints. These are configuration I/O. Whether the SDK client exists is a parameter of each app.py action, because the script re-creates it on every rerun.
- The network: the SDK's `client.ask`, `get_payman_access_token`, and the HTTP payment request. Their outcome is an input: `AskResponse` for app.py, `Transport` for pay2.py.
- pay2.py's first `send_payman_payment` (pay2.py:116-141). The second definition at pay2.py:143 replaces it, so it is never called.
- `Payment.SendPaymentDirect`: after a successful authentication the code in force falls off the end and returns `None`, which would crash pay2.py:237 and 273. The model does not reproduce the crash. It takes the payment's outcome after authentication as an input and, like the shadowed first definition (pay2.py:128-141), records the order as sent at that point, although the code in force never sends it.
- `Payment.SendPaymentSdk`: the amount, currency and memo only go into the command text of app.py:81. The model keeps them as a `PaymentOrder` value and does not format that text (`:.2f`). The SDK's answer is an input and is not tied to the order it answers.
- The exact message texts, with their currency symbols and `:.2f` formatting. Messages are tags that carry the values shown.
- The `data` field of a successful payment result. Apart from the transaction id it is not read, so the model keeps only the id.
- Non-string values in the SDK's dictionary answer. For example, a numeric status would make `.lower()` raise, and the code would report that as the SDK error. Each key the classifier reads is modelled as absent or a string, and no other keys are modelled.
- The text of an exception, which goes into the SDK error message. The model keeps only the tag.
- Floating-point behaviour: NaN and infinite sales, and rounding. The model uses exact reals, which give the same results for every tier, as argued above.
- `Text.Lower`: lower-cases ASCII only, where Python's `str.lower()` lower-cases all of Unicode and can change the length (`'İ'.lower()` has two characters). The model gives the same answers for every comparison the code makes, as argued above.
- logic.py's module-level sample driver and its `print` (logic.py:66-69). `LogicPricing.SampleUsage` states its value.
