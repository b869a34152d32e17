/** Tenant application intake as StudentService.SubmitTenantApplication performs it:
    three validation gates, a payment call, a silent return on a missing transaction id,
    a duplicate-email check after payment, an insert, and an ordered fan-out of effects.
    The store is a sequence of applications; the collaborators the service calls
    appear as effects appended to a trace. */
module Intake {
  import opened Common
  import opened Text
  import Payment
  import Guids

  /** A persisted application; `id` is assigned by the store on insert. */
  datatype Application = Application(
    id: nat,
    name: string,
    phone: string,
    email: string,
    cardNumber: string,
    cardExpiry: string,
    amountPaid: real)

  type Store = seq<Application>

  /** The arguments of one SubmitTenantApplication call. */
  datatype Submission = Submission(
    name: string,
    phone: string,
    email: string,
    cardNumber: string,
    cardExpiry: string,
    amountPaid: real)

  /** The three ArgumentException cases, in the order they are checked. */
  datatype ValidationError = InvalidApplicantDetails | InvalidPaymentDetails | InvalidPhoneNumber

  /** How a submission ends: completed with the new application's id, returned
      silently after a declined payment, or thrown. */
  datatype Outcome = Completed(id: nat) | Declined | Invalid(error: ValidationError) | DuplicateApplication

  /** Calls into collaborators, in the order they happen. */
  datatype Effect =
    | Charge(cardNumber: string, cardExpiry: string, securityCode: string, amount: real,
             currency: string, international: bool)
    | Email(recipient: string, subject: string, body: string)
    | Sms(recipient: string, body: string)
    | ArchiveFile(fileName: string, applicant: string, email: string, phone: string, amountPaid: real)
    | AnalyticsEvent(eventName: string, applicantName: string, applicantEmail: string, amountPaid: real)

  /** Result of one submission: the outcome, the store afterwards, the effects emitted. */
  datatype Step = Step(outcome: Outcome, store: Store, trace: seq<Effect>)

  /** The placeholder security code the workflow passes to the payment call. */
  const SecurityCode: string := "123"
  const SubmittedSubject: string := "Application Submitted"
  const SubmittedEvent: string := "TenantApplicationSubmitted"
  const MinPhoneLength: nat := 10

  predicate PhoneValid(phone: string) {
    |phone| >= MinPhoneLength && AllDigits(phone)
  }

  predicate DetailsPresent(s: Submission) {
    !IsBlank(s.name) && !IsBlank(s.phone) && !IsBlank(s.email)
  }

  /** The validation gates, checked in order; the first failing gate names the error. */
  function Validate(s: Submission): (r: Option<ValidationError>)
    ensures r == Some(InvalidApplicantDetails) <==> !DetailsPresent(s)
    ensures r == Some(InvalidPaymentDetails) <==>
      DetailsPresent(s) && !Payment.PaymentDetailsValid(s.cardNumber, s.cardExpiry, s.amountPaid)
    ensures r == Some(InvalidPhoneNumber) <==>
      DetailsPresent(s) && Payment.PaymentDetailsValid(s.cardNumber, s.cardExpiry, s.amountPaid) && !PhoneValid(s.phone)
    ensures r == None ==> |s.phone| >= MinPhoneLength && |s.email| > 0 && |s.name| > 0 && s.amountPaid > 0.0
  {
    if !DetailsPresent(s) then Some(InvalidApplicantDetails)
    else if !Payment.PaymentDetailsValid(s.cardNumber, s.cardExpiry, s.amountPaid) then Some(InvalidPaymentDetails)
    else if !PhoneValid(s.phone) then Some(InvalidPhoneNumber)
    else None
  }

  /** The payment call the workflow makes: placeholder security code, default currency, domestic. */
  function ChargeFor(s: Submission): Effect {
    Charge(s.cardNumber, s.cardExpiry, SecurityCode, s.amountPaid, Payment.DefaultCurrency, Payment.DefaultInternational)
  }

  /** A transaction id was returned: string.IsNullOrEmpty is false of it. */
  predicate Paid(payment: Option<string>) {
    payment.Some? && payment.value != ""
  }

  predicate HasEmail(store: Store, email: string) {
    exists i | 0 <= i < |store| :: store[i].email == email
  }

  predicate HasId(store: Store, id: nat) {
    exists i | 0 <= i < |store| :: store[i].id == id
  }

  /** The uniqueness the workflow maintains: at most one application per email. */
  predicate EmailsDistinct(store: Store) {
    forall i, j | 0 <= i < j < |store| :: store[i].email != store[j].email
  }

  /** The store's own key: at most one application per id. */
  predicate IdsDistinct(store: Store) {
    forall i, j | 0 <= i < j < |store| :: store[i].id != store[j].id
  }

  function MaxId(store: Store): (m: nat)
    ensures forall i | 0 <= i < |store| :: store[i].id <= m
  {
    if store == [] then 0
    else
      var rest := MaxId(store[..|store| - 1]);
      var last := store[|store| - 1].id;
      if last > rest then last else rest
  }

  /** The id the store assigns on insert: positive and not yet used. */
  function FreshId(store: Store): (id: nat)
    ensures id > 0 && !HasId(store, id)
  {
    MaxId(store) + 1
  }

  function NotificationBody(name: string): string {
    "Dear " + name + ", your application has been successfully submitted."
  }

  function StatusMessage(name: string, id: nat): (m: string)
    ensures Contains(m, DecimalText(id))
  {
    var prefix := "Dear " + name + ",\n\nThank you for your application for the property. Your application ID is ";
    var m := prefix + DecimalText(id) + ".\n\nWe will review your submission and contact you shortly.";
    assert OccursAt(m, DecimalText(id), |prefix|);
    m
  }

  /** The archive file is named after the application id. */
  function ArchiveName(id: nat): (n: string)
    ensures |n| == |DecimalText(id)| + 24
    ensures n[..12] == "application_" && n[|n| - 12..] == "_archive.txt"
    ensures n[12..|n| - 12] == DecimalText(id)
  {
    "application_" + DecimalText(id) + "_archive.txt"
  }

  /** The fan-out after insert: email, SMS with the id, archive snapshot, analytics event. */
  function Notifications(app: Application): (effects: seq<Effect>)
    ensures |effects| == 4
    ensures effects[0] == Email(app.email, SubmittedSubject, NotificationBody(app.name))
    ensures effects[1].Sms? && effects[1].recipient == app.phone && Contains(effects[1].body, DecimalText(app.id))
    ensures effects[2].ArchiveFile? && effects[2].fileName == ArchiveName(app.id)
    ensures effects[3] == AnalyticsEvent(SubmittedEvent, app.name, app.email, app.amountPaid)
  {
    [ Email(app.email, SubmittedSubject, NotificationBody(app.name)),
      Sms(app.phone, StatusMessage(app.name, app.id)),
      ArchiveFile(ArchiveName(app.id), app.name, app.email, app.phone, app.amountPaid),
      AnalyticsEvent(SubmittedEvent, app.name, app.email, app.amountPaid) ]
  }

  /** The application a submission files under a given id. */
  function Filed(s: Submission, id: nat): Application {
    Application(id, s.name, s.phone, s.email, s.cardNumber, s.cardExpiry, s.amountPaid)
  }

  /** One SubmitTenantApplication call against `store`; `payment` is what the payment
      call returned (null when absent). */
  function Submit(store: Store, s: Submission, payment: Option<string>): (r: Step)
    // validation failures throw before payment: nothing changes, nothing is emitted
    ensures r.outcome.Invalid? <==> Validate(s).Some?
    ensures r.outcome.Invalid? ==> r.outcome.error == Validate(s).value && r.trace == []
    // after validation the payment call always comes first
    ensures Validate(s).None? ==> |r.trace| > 0 && r.trace[0] == ChargeFor(s)
    ensures r.outcome.Declined? <==> Validate(s).None? && !Paid(payment)
    ensures r.outcome.DuplicateApplication? <==> Validate(s).None? && Paid(payment) && HasEmail(store, s.email)
    ensures r.outcome.Declined? || r.outcome.DuplicateApplication? ==> r.trace == [ChargeFor(s)]
    // only a completed submission changes the store, by appending exactly one application
    ensures !r.outcome.Completed? ==> r.store == store
    ensures r.outcome.Completed? ==>
      && r.store == store + [Filed(s, r.outcome.id)]
      && !HasId(store, r.outcome.id)
      && r.trace == [ChargeFor(s)] + Notifications(Filed(s, r.outcome.id))
    // the store keeps at most one application per email and per id
    ensures EmailsDistinct(store) ==> EmailsDistinct(r.store)
    ensures IdsDistinct(store) ==> IdsDistinct(r.store)
  {
    match Validate(s)
    case Some(e) => Step(Invalid(e), store, [])
    case None =>
      if !Paid(payment) then
        Step(Declined, store, [ChargeFor(s)])
      else if HasEmail(store, s.email) then
        Step(DuplicateApplication, store, [ChargeFor(s)])
      else
        var app := Filed(s, FreshId(store));
        Step(Completed(app.id), store + [app], [ChargeFor(s)] + Notifications(app))
  }

  /** Submissions processed one after another, each against the store the previous left. */
  function SubmitAll(store: Store, calls: seq<(Submission, Option<string>)>): Store
    decreases |calls|
  {
    if calls == [] then store
    else SubmitAll(Submit(store, calls[0].0, calls[0].1).store, calls[1..])
  }

  /** Any sequence of submissions starting from a store with distinct emails and
      distinct ids leaves at most one application per email and per id. */
  lemma {:induction false} SubmitAllKeepsInvariants(store: Store, calls: seq<(Submission, Option<string>)>)
    requires EmailsDistinct(store) && IdsDistinct(store)
    ensures EmailsDistinct(SubmitAll(store, calls)) && IdsDistinct(SubmitAll(store, calls))
    decreases |calls|
  {
    if calls != [] {
      SubmitAllKeepsInvariants(Submit(store, calls[0].0, calls[0].1).store, calls[1..]);
    }
  }

  /** Two applications in a consistent store never share an archive file name. */
  lemma ArchiveNamesDistinct(store: Store, i: nat, j: nat)
    requires IdsDistinct(store) && i < j < |store|
    ensures ArchiveName(store[i].id) != ArchiveName(store[j].id)
  {
    var a, b := ArchiveName(store[i].id), ArchiveName(store[j].id);
    if a == b {
      DecimalTextInjective(store[i].id, store[j].id);
    }
  }

  /** The intake gates include MakePayment's own precondition, so the real payment
      call made after validation never throws and always returns a transaction id. */
  lemma ValidatedPaymentSucceeds(s: Submission, g: Guids.Guid)
    requires Validate(s).None?
    ensures Payment.MakePayment(s.cardNumber, s.cardExpiry, SecurityCode, s.amountPaid,
                                Payment.DefaultCurrency, Payment.DefaultInternational, g).Success?
  {
  }

  /** The payment result as the workflow sees it: the transaction id, or null. */
  function AsNullable(r: Result<string, Payment.PaymentError>): Option<string> {
    match r
    case Success(v) => Some(v)
    case Failure(_) => None
  }

  /** Wired to the service's own MakePayment, the decline path is never taken. */
  lemma ConcretePaymentNeverDeclines(store: Store, s: Submission, g: Guids.Guid)
    ensures !Submit(store, s, AsNullable(Payment.MakePayment(s.cardNumber, s.cardExpiry, SecurityCode,
      s.amountPaid, Payment.DefaultCurrency, Payment.DefaultInternational, g))).outcome.Declined?
  {
  }

  /** Resubmitting an email that completed earlier is paid for and then refused:
      the payment call is made, the store is left as it was. */
  lemma RepeatEmailChargedThenRefused(store: Store, first: Submission, second: Submission,
                                      t1: string, t2: string)
    requires Validate(first).None? && Validate(second).None?
    requires t1 != "" && t2 != ""
    requires second.email == first.email
    requires Submit(store, first, Some(t1)).outcome.Completed?
    ensures var after := Submit(store, first, Some(t1)).store;
      var r := Submit(after, second, Some(t2));
      r.outcome == DuplicateApplication && r.store == after && r.trace == [ChargeFor(second)]
  {
    var after := Submit(store, first, Some(t1)).store;
    assert after[|after| - 1].email == second.email;
  }
}

/** The phone gate on three numbers: one too short, one containing letters, one valid. */
module IntakeExamples {
  import opened Intake

  lemma PhoneExamples()
    ensures !PhoneValid("12345")
    ensures !PhoneValid("12345abcde")
    ensures PhoneValid("1234567890")
  {
    assert "12345abcde"[5] == 'a';
  }
}
