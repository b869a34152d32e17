# Student property marketplace: payment settlement and tenant intake

This project models the two pieces of decision logic in `StudentService` of the
student property marketplace. Both are stated as pure functions over immutable data.

- **Payment settlement** (`MakePayment`). It checks the card details and the amount.
  It applies a two-tier, per-currency discount. It chooses a gateway from the
  international flag and the currency. It converts EUR and GBP by a fixed rate and
  adds a flat 10 to INR. It then returns the text of a fresh GUID as the transaction
  id. `Payment.Settle` exposes the computed amount and gateway. The service logs the
  gateway and the amount before conversion; for international EUR, GBP and INR the
  converted amount is computed and then discarded. C# `decimal` is exact for every constant involved, so amounts are `real`.
- **Tenant application intake** (`SubmitTenantApplication`). This is a transition from
  (store, submission, payment result) to (outcome, store', effect trace). It runs three
  validation gates in order, then the payment call. A null or empty transaction id
  returns silently. A duplicate email is refused after payment. Otherwise the
  application is inserted. Finally the email, SMS, archive file and analytics event are
  emitted, in that order.

Modules:
- `Common`: `Option` and `Result`.
- `Text`: .NET whitespace, ASCII digits, and the decimal text of an id with its parser.
- `Guids`: the 36-character "D" text of a GUID.
- `Payment`: the discount schedule, `Settle` and `MakePayment`.
- `PaymentExamples`: worked settlements.
- `Intake`: the intake workflow and the store invariants.
- `IntakeExamples`: phone-gate examples.

Two behaviours of the code differ from what one might assume of a tiered schedule with a rate table; the model follows the code:
- An amount of exactly 1000 is not "> 1000". It falls in the middle tier, where GBP
  gets no discount. So international GBP 1000 settles at 1000 × 1.3 = 1300, not
  970 × 1.3 = 1261 (`PaymentExamples.InternationalGbpAtBoundary`).
- An international payment in a currency other than USD, EUR, GBP or INR (CAD, AUD, …)
  does not fail. It goes through "InternationalGateway" unconverted. The
  "Unsupported currency" branch is only reached for EUR and GBP, and both are in the
  rate table. `Payment.Settle` keeps that branch and proves it unreachable.

Settlement is deterministic because it is a Dafny function: equal inputs give equal
results, so no lemma is needed for that.

## Model

| member | source | states |
|---|---|---|
| Payment.Discount | StudentPropertyMarketplace/StudentService.cs:184-221 | the nested currency branches give exactly amount × the rate of the (tier, currency) table: above 1000 USD 5%, EUR 4%, GBP 3%; above 500 up to 1000 USD 2%, AUD 1.5%; otherwise 0; and the discount is between 0 and 5% of a positive amount, so before conversion a positive amount keeps between 95% and 100% of its value |
| Payment.Settle | StudentPropertyMarketplace/StudentService.cs:184-266 | settlement never fails, whatever the currency, because the unsupported-currency throw is unreachable; Domestic iff not international, USD gateway iff international USD, International iff international non-USD; final amount = factor × (amount − discount) + surcharge, with factor 1.1/1.3 only for international EUR/GBP and surcharge 10 only for international INR; a positive amount settles positive |
| Payment.MakePayment | StudentPropertyMarketplace/StudentService.cs:176-271 | succeeds iff card number and expiry are not blank and the amount is positive; otherwise fails with invalid payment details; on success returns the 36-character text of the supplied GUID, so never an empty token |
| PaymentExamples.InternationalGbpAtBoundary | StudentPropertyMarketplace/StudentService.cs:185-247 | international GBP 1000: no discount (middle tier), converted to 1300 through InternationalGateway |
| PaymentExamples.InternationalInr | StudentPropertyMarketplace/StudentService.cs:251-255 | international INR 600: no discount, +10 surcharge gives 610 through InternationalGateway |
| PaymentExamples.InternationalOtherCurrencyPassesThrough | StudentPropertyMarketplace/StudentService.cs:227-256 | international CAD 2000 and AUD 800 route through InternationalGateway unconverted and do not fail (AUD keeps its 1.5% middle-tier discount) |
| PaymentExamples.InternationalUsd | StudentPropertyMarketplace/StudentService.cs:258-261 | international USD 2000: 5% discount, no conversion, USDGateway |
| PaymentExamples.DomesticGbp | StudentPropertyMarketplace/StudentService.cs:263-266 | domestic GBP 1200 settles at 1164 and GBP 1000 at 1000, both through DomesticGateway |
| PaymentExamples.SettlementNotMonotone | StudentPropertyMarketplace/StudentService.cs:185-210 | the tier cliffs let a larger payment settle lower: USD 1000 gives 980, USD 1001 gives 950.95 |
| PaymentExamples.LoggedAmountPrecedesConversion | StudentPropertyMarketplace/StudentService.cs:221-247 | the logged "Final amount" is taken before conversion: international GBP 1500 logs 1455 but settles at 1891.5 |
| PaymentExamples.GatewayNames | StudentPropertyMarketplace/StudentService.cs:224-268 | the routes are named "DomesticGateway", "USDGateway" and "InternationalGateway" |
| Guids.Format | StudentPropertyMarketplace/StudentService.cs:270 | the transaction id is 36 characters, hyphens at 8, 13, 18 and 23, each hex digit of the GUID at its position |
| Guids.FormatInjective | StudentPropertyMarketplace/StudentService.cs:270 | distinct GUIDs give distinct transaction ids |
| Intake.Validate | StudentPropertyMarketplace/StudentService.cs:103-119 | the first failing gate names the error: blank name/phone/email, then blank card/expiry or non-positive amount, then a phone shorter than 10 or not all digits; passing all gates implies a non-empty name and email, a phone of at least 10 characters and a positive amount |
| IntakeExamples.PhoneExamples | StudentPropertyMarketplace/StudentService.cs:115-119 | "12345" and "12345abcde" fail the phone gate and "1234567890" passes it |
| Intake.ValidatedPaymentSucceeds | StudentPropertyMarketplace/StudentService.cs:109-121 | once the intake gates pass, the payment call with code "123", GBP and domestic routing cannot throw |
| Intake.FreshId | StudentPropertyMarketplace/StudentService.cs:144-145 | the id assigned on insert is positive and not used by any stored application |
| Intake.Submit | StudentPropertyMarketplace/StudentService.cs:101-169 | a validation failure throws with its gate's error, leaves the store unchanged and emits nothing; after validation the payment call comes first, with code "123", GBP, domestic; a null or empty transaction id returns with only the payment call; an email already stored is refused after the payment call with the store unchanged; otherwise the store grows by exactly one application with the submitted fields and a fresh id, and the trace is payment, email, SMS, archive, analytics; emails stay pairwise distinct and ids stay pairwise distinct in the store |
| Intake.Notifications | StudentPropertyMarketplace/StudentService.cs:149-166 | four effects in order: email to the applicant with subject "Application Submitted", SMS to the phone whose text contains the id, archive file named after the id, "TenantApplicationSubmitted" event with name, email and amount |
| Intake.StatusMessage | StudentPropertyMarketplace/StudentService.cs:151 | the status message contains the decimal text of the application id |
| Intake.ArchiveName | StudentPropertyMarketplace/StudentService.cs:158 | the archive name is "application_", the decimal id, "_archive.txt" |
| Intake.SubmitAllKeepsInvariants | StudentPropertyMarketplace/StudentService.cs:138-145 | any sequence of submissions from a consistent store keeps at most one application per email and per id |
| Intake.ArchiveNamesDistinct | StudentPropertyMarketplace/StudentService.cs:158 | two applications of a consistent store never share an archive file name |
| Intake.ConcretePaymentNeverDeclines | StudentPropertyMarketplace/StudentService.cs:121-126 | wired to the service's own MakePayment, the silent decline path is never taken |
| Intake.RepeatEmailChargedThenRefused | StudentPropertyMarketplace/StudentService.cs:121-142 | a second valid, paid submission with the email of a completed one makes the payment call, is refused as a duplicate, and leaves the store unchanged |
| Text.DecimalText | StudentPropertyMarketplace/StudentService.cs:151 | the id text is a non-empty string of decimal digits that starts with '0' only for 0 |
| Text.DecimalRoundTrip | StudentPropertyMarketplace/StudentService.cs:158 | reading the id text back gives the id, so the text identifies the application |

## Left out

- `AddNewProperty`, `GenerateTenantReport` and `GeneratePaymentSummaryReport`: orchestration over external services and string formatting, with no decision logic of the intake or payment core.
- The database audit log (`LogToDatabase`) and `Console.WriteLine`: write-only sinks. The trace records only the payment call and the effects on the applicant, the archive and analytics.
- Message text beyond what is stated: the archive file's content and the analytics attributes are kept as fields, not as their formatted text. The decimal text of the amount is not modelled.
- Null strings: inputs are non-null strings. `IsNullOrWhiteSpace` treats null like an empty string, which the blank check covers. The nullable payment result is modelled as `Option<string>`.
- `char.IsDigit` accepts every Unicode decimal digit; the model accepts ASCII '0'..'9' only. `char.IsWhiteSpace` is modelled by its exact character set. A phone that passes the digit check has only single-UTF-16-unit characters, so `Length` and the sequence length agree.
- `Guid.NewGuid()`: the random 128-bit value is an input (32 hex digits), not generated.
- The store (EF Core `DbContext`, `SaveChanges`): a sequence of applications, with insert assigning 1 + the largest id in use. A real identity column may choose other unused ids. The duplicate check uses exact string equality, as the C# lambda reads; a database collation that compares case-insensitively is not modelled.
- `decimal` overflow and rounding: amounts are exact reals. No value in this logic reaches decimal's range or precision limits for realistic inputs.
- Collaborator failures (store unreachable, notifier throwing) and the concurrent duplicate-email race: outside a sequential model of one submission.
