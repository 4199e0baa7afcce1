/**
 * The new-subscription form of src/components/SubscriptionForm.tsx: its text
 * fields, the per-field error messages it shows, `validateForm`, and the
 * `handleSubmit` sequence that validates, looks up the user, builds the insert
 * payload and hands the stored row to the dashboard.
 *
 * The user lookup and the insert are backend calls; their results are
 * parameters of `HandleSubmit` (`None` stands for an error response or a
 * missing user).
 */
module SubscriptionFormComponent {
  import opened Wrappers
  import opened Types
  import opened Validation
  import opened AppComponent

  /** The form's state: every field is the text of its input element. */
  datatype FormData = FormData(
    serviceName: string,
    price: string,
    billingCycle: string,
    nextBillingDate: string,
    category: string,
    serviceUrl: string,
    notes: string)

  /** The form as first shown: monthly billing, every other field empty. */
  const InitialFormData: FormData := FormData("", "", "monthly", "", "", "", "")

  /** The record the schema parses: the form's fields, with both optional keys present. */
  function AsInput(f: FormData): SubscriptionInput
  {
    SubscriptionInput(f.serviceName, f.price, f.billingCycle, f.nextBillingDate, f.category, Some(f.serviceUrl), Some(f.notes))
  }

  /** An input's change handler: a copy of the form with one field set to the new text. */
  function WithField(f: FormData, field: Field, value: string): FormData
  {
    match field
    case ServiceName => f.(serviceName := value)
    case Price => f.(price := value)
    case BillingCycle => f.(billingCycle := value)
    case NextBillingDate => f.(nextBillingDate := value)
    case Category => f.(category := value)
    case ServiceUrl => f.(serviceUrl := value)
    case Notes => f.(notes := value)
  }

  /** Editing one input leaves the verdict on every other field as it was. */
  lemma EditKeepsOtherVerdicts(lib: Library, f: FormData, field: Field, value: string, other: Field)
    requires other != field
    ensures FieldIssues(lib, AsInput(WithField(f, field, value)), other) == FieldIssues(lib, AsInput(f), other)
  {
    FieldIndependence(lib, AsInput(WithField(f, field, value)), AsInput(f), other);
  }

  // ---------------------------------------------------------------- payload

  /** The row sent to the backend's insert. */
  datatype NewSubscription = NewSubscription(
    serviceName: string,
    price: Num,
    billingCycle: string,
    nextBillingDate: string,
    category: string,
    serviceUrl: string,
    notes: string,
    userId: string)

  /** The form a payload was built from, given the price text it was parsed from. */
  function FormOf(p: NewSubscription, priceText: string): FormData
  {
    FormData(p.serviceName, priceText, p.billingCycle, p.nextBillingDate, p.category, p.serviceUrl, p.notes)
  }

  /**
   * The insert payload: the form's fields, the owner's id added, and the price
   * text replaced by its `parseFloat`.
   */
  function Payload(lib: Library, f: FormData, userId: string): (p: NewSubscription)
    ensures p.userId == userId
    ensures p.price == lib.parseFloat(f.price)
    ensures FormOf(p, f.price) == f
  {
    NewSubscription(f.serviceName, lib.parseFloat(f.price), f.billingCycle, f.nextBillingDate,
                    f.category, f.serviceUrl, f.notes, userId)
  }

  /**
   * When `parseFloat` and `Number` agree on the accepted price text, the
   * payload's price is a number that is not negative, and its billing cycle is
   * one of the two the list understands.
   */
  lemma AcceptedPayload(lib: Library, f: FormData, userId: string)
    requires AcceptsSubscription(lib, AsInput(f))
    requires lib.parseFloat(f.price) == lib.number(f.price)
    ensures NonNegativeNumber(Payload(lib, f, userId).price)
    ensures Payload(lib, f, userId).billingCycle in {Monthly, Yearly}
    ensures Payload(lib, f, userId).serviceName != "" && Payload(lib, f, userId).category != ""
  {
    SubscriptionAcceptance(lib, AsInput(f));
  }

  // ---------------------------------------------------------------- error map

  /** The key an issue is filed under: its first path element, when that is a non-empty string. */
  function KeyOf(issue: Issue): Option<string>
  {
    if |issue.path| > 0 && issue.path[0] != "" then Some(issue.path[0]) else None
  }

  /** One step of the collecting loop: file the issue's message under its key, if it has one. */
  function Record(errors: map<string, Message>, issue: Issue): map<string, Message>
  {
    match KeyOf(issue)
    case None => errors
    case Some(k) => errors[k := issue.message]
  }

  /** The map `validateForm` builds from a list of issues, in list order. */
  function ErrorMap(issues: seq<Issue>): map<string, Message>
  {
    if |issues| == 0 then map[] else Record(ErrorMap(issues[..|issues| - 1]), issues[|issues| - 1])
  }

  /** The map has a key exactly for the keys of the issues that have one. */
  lemma {:induction false} ErrorMapKeys(issues: seq<Issue>, k: string)
    ensures k in ErrorMap(issues) <==> exists i :: 0 <= i < |issues| && KeyOf(issues[i]) == Some(k)
  {
    if |issues| > 0 {
      var n := |issues| - 1;
      var init := issues[..n];
      ErrorMapKeys(init, k);
      if k in ErrorMap(init) {
        var i :| 0 <= i < n && KeyOf(init[i]) == Some(k);
        assert KeyOf(issues[i]) == Some(k);
      }
      if exists i :: 0 <= i < |issues| && KeyOf(issues[i]) == Some(k) {
        var i :| 0 <= i < |issues| && KeyOf(issues[i]) == Some(k);
        if i < n {
          assert KeyOf(init[i]) == Some(k);
        }
      }
    }
  }

  /** For each key, the message of the last issue filed under it is the one kept. */
  lemma {:induction false} ErrorMapLastWins(issues: seq<Issue>, j: nat)
    requires j < |issues| && KeyOf(issues[j]).Some?
    requires forall i :: j < i < |issues| ==> KeyOf(issues[i]) != KeyOf(issues[j])
    ensures KeyOf(issues[j]).value in ErrorMap(issues)
    ensures ErrorMap(issues)[KeyOf(issues[j]).value] == issues[j].message
  {
    var n := |issues| - 1;
    if j < n {
      var init := issues[..n];
      assert init[j] == issues[j];
      assert forall i :: j < i < |init| ==> init[i] == issues[i];
      ErrorMapLastWins(init, j);
    }
  }

  /** Issues listed after others override them key by key. */
  lemma {:induction false} ErrorMapConcat(a: seq<Issue>, b: seq<Issue>)
    ensures ErrorMap(a + b) == ErrorMap(a) + ErrorMap(b)
    decreases |b|
  {
    if |b| == 0 {
      assert a + b == a;
    } else {
      var n := |b| - 1;
      assert (a + b)[..|a + b| - 1] == a + b[..n];
      ErrorMapConcat(a, b[..n]);
    }
  }

  /** One key's messages leave that key mapped to the last of them. */
  lemma {:induction false} ErrorMapOfTag(key: string, msgs: seq<Message>)
    requires key != ""
    ensures ErrorMap(Tag(key, msgs)) == if msgs == [] then map[] else map[key := msgs[|msgs| - 1]]
  {
    if msgs != [] {
      var n := |msgs| - 1;
      assert Tag(key, msgs)[..n] == Tag(key, msgs[..n]);
      ErrorMapOfTag(key, msgs[..n]);
    }
  }

  /**
   * For an object schema, the error map has an entry under a key's name exactly
   * when that key raised issues, holding its last message, and no other entry.
   */
  lemma {:induction false} ErrorMapOfFields(lib: Library, inp: SubscriptionInput, fields: seq<Field>)
    ensures forall f :: f in fields ==>
      (Name(f) in ErrorMap(IssuesFor(lib, inp, fields)) <==> FieldIssues(lib, inp, f) != [])
    ensures forall f :: f in fields && FieldIssues(lib, inp, f) != [] ==>
      ErrorMap(IssuesFor(lib, inp, fields))[Name(f)] == FieldIssues(lib, inp, f)[|FieldIssues(lib, inp, f)| - 1]
    ensures forall k :: k in ErrorMap(IssuesFor(lib, inp, fields)) ==> exists f :: f in fields && Name(f) == k
  {
    if fields != [] {
      var f0, rest := fields[0], fields[1..];
      var msgs := FieldIssues(lib, inp, f0);
      var head, tail := ErrorMap(Tag(Name(f0), msgs)), ErrorMap(IssuesFor(lib, inp, rest));
      NameInjective(f0, f0);
      ErrorMapOfFields(lib, inp, rest);
      ErrorMapConcat(Tag(Name(f0), msgs), IssuesFor(lib, inp, rest));
      ErrorMapOfTag(Name(f0), msgs);
      assert ErrorMap(IssuesFor(lib, inp, fields)) == head + tail;
      forall f | f in fields
        ensures Name(f) in head + tail <==> FieldIssues(lib, inp, f) != []
        ensures FieldIssues(lib, inp, f) != [] ==>
          (head + tail)[Name(f)] == FieldIssues(lib, inp, f)[|FieldIssues(lib, inp, f)| - 1]
      {
        NameInjective(f, f0);
        if Name(f) in tail {
          var g :| g in rest && Name(g) == Name(f);
          NameInjective(f, g);
        }
      }
    }
  }

  /**
   * On a rejected form the error map has an entry for exactly the fields whose
   * rule fails, holding that field's last message; `notes` never gets one.
   */
  lemma FormErrorsAreFailingFields(lib: Library, f: FormData)
    ensures var errors := ErrorMap(SubscriptionIssues(lib, AsInput(f)));
      && (forall field :: Name(field) in errors <==> FieldIssues(lib, AsInput(f), field) != [])
      && (forall field :: Name(field) in errors ==>
            errors[Name(field)] == FieldIssues(lib, AsInput(f), field)[|FieldIssues(lib, AsInput(f), field)| - 1])
      && (forall k :: k in errors ==> exists field :: Name(field) == k)
      && Name(Notes) !in errors
  {
    ErrorMapOfFields(lib, AsInput(f), SubscriptionFields);
    forall field: Field ensures field in SubscriptionFields {
      SubscriptionFieldsComplete(field);
    }
  }

  /** The untouched form is rejected with "required" on exactly the four empty required fields. */
  lemma InitialFormErrors(lib: Library)
    requires lib.number("") == Finite(0.0)
    ensures !AcceptsSubscription(lib, AsInput(InitialFormData))
    ensures ErrorMap(SubscriptionIssues(lib, AsInput(InitialFormData))) ==
      map[Name(ServiceName) := Required, Name(Price) := Required, Name(NextBillingDate) := Required, Name(Category) := Required]
  {
    var errors := ErrorMap(SubscriptionIssues(lib, AsInput(InitialFormData)));
    InitialErrorEntries(lib);
    assert errors.Keys == {Name(ServiceName), Name(Price), Name(NextBillingDate), Name(Category)};
  }

  /** The entries of the untouched form's error map, one by one. */
  lemma InitialErrorEntries(lib: Library)
    requires lib.number("") == Finite(0.0)
    ensures var errors := ErrorMap(SubscriptionIssues(lib, AsInput(InitialFormData)));
      && Name(ServiceName) in errors && Name(Price) in errors
      && Name(NextBillingDate) in errors && Name(Category) in errors
      && forall k :: k in errors ==>
           errors[k] == Required && k in {Name(ServiceName), Name(Price), Name(NextBillingDate), Name(Category)}
  {
    var errors := ErrorMap(SubscriptionIssues(lib, AsInput(InitialFormData)));
    FormErrorsAreFailingFields(lib, InitialFormData);
    InitialFieldIssues(lib);
    forall k | k in errors
      ensures errors[k] == Required && k in {Name(ServiceName), Name(Price), Name(NextBillingDate), Name(Category)}
    {
      var field :| Name(field) == k;
      assert FieldIssues(lib, AsInput(InitialFormData), field) != [];
    }
  }

  /** What the schema raises, key by key, for the untouched form. */
  lemma InitialFieldIssues(lib: Library)
    requires lib.number("") == Finite(0.0)
    ensures FieldIssues(lib, AsInput(InitialFormData), ServiceName) == [Required]
    ensures FieldIssues(lib, AsInput(InitialFormData), Price) == [Required]
    ensures FieldIssues(lib, AsInput(InitialFormData), BillingCycle) == []
    ensures FieldIssues(lib, AsInput(InitialFormData), NextBillingDate) == [Required]
    ensures FieldIssues(lib, AsInput(InitialFormData), Category) == [Required]
    ensures FieldIssues(lib, AsInput(InitialFormData), ServiceUrl) == []
    ensures FieldIssues(lib, AsInput(InitialFormData), Notes) == []
  {
    EmptyPriceIsOnlyRequired(lib);
  }

  // ---------------------------------------------------------------- the component

  /** How a submission ended. */
  datatype SubmitOutcome =
    | Rejected                                              // validation failed; nothing was sent
    | NoUser                                                // the user lookup failed
    | InsertFailed(sent: NewSubscription)                   // the backend refused the insert
    | Added(sent: NewSubscription, stored: Subscription)    // the stored row went to the dashboard
    | Threw                                                 // validation raised an exception; the submission aborted

  /**
   * The error map shown after `validateForm` as the file is written. Its `zod`
   * import is type-only and therefore erased, so on a rejected form the test
   * `error instanceof z.ZodError` itself throws: neither the new map nor the
   * `return false` is reached, and the map shown stays what it was.
   */
  function ErrorsAfterThrowingValidation(lib: Library, f: FormData, shown: map<string, Message>): map<string, Message>
  {
    if AcceptsSubscription(lib, AsInput(f)) then map[] else shown
  }

  /**
   * As written, no field error is ever shown: from the empty map a form starts
   * with, a submission of the untouched form leaves it empty, where the
   * intended `validateForm` shows "required" under four fields.
   */
  lemma ThrowingValidationHidesErrors(lib: Library)
    requires lib.number("") == Finite(0.0)
    ensures ErrorsAfterThrowingValidation(lib, InitialFormData, map[]) == map[]
    ensures ErrorMap(SubscriptionIssues(lib, AsInput(InitialFormData))) != map[]
    ensures !AcceptsSubscription(lib, AsInput(InitialFormData))
  {
    InitialFormErrors(lib);
    assert Name(ServiceName) in ErrorMap(SubscriptionIssues(lib, AsInput(InitialFormData)));
  }

  class SubscriptionForm {
    const lib: Library
    var formData: FormData
    var errors: map<string, Message>

    constructor (lib: Library)
      ensures this.lib == lib
      ensures formData == InitialFormData && errors == map[]
    {
      this.lib := lib;
      formData := InitialFormData;
      errors := map[];
    }

    /** An input's `onChange`: one field takes the new text. */
    method HandleChange(field: Field, value: string)
      modifies this`formData
      ensures formData == WithField(old(formData), field, value)
    {
      formData := WithField(formData, field, value);
    }

    /**
     * `validateForm` as intended, with `zod` imported as a value: parse the
     * form; on success clear the errors, otherwise collect the issues into a
     * fresh map (later issues for a key overwrite earlier ones), show that and
     * return false.
     */
    method ValidateForm() returns (ok: bool)
      modifies this`errors
      ensures ok == AcceptsSubscription(lib, AsInput(formData))
      ensures ok ==> errors == map[]
      ensures !ok ==> errors == ErrorMap(SubscriptionIssues(lib, AsInput(formData)))
    {
      var issues := SubscriptionIssues(lib, AsInput(formData));
      if issues == [] {
        errors := map[];
        return true;
      }
      var newErrors: map<string, Message> := map[];
      var i := 0;
      while i < |issues|
        invariant 0 <= i <= |issues|
        invariant newErrors == ErrorMap(issues[..i])
      {
        var err := issues[i];
        if |err.path| > 0 && err.path[0] != "" {
          newErrors := newErrors[err.path[0] := err.message];
        }
        assert issues[..i + 1][..i] == issues[..i];
        i := i + 1;
      }
      assert issues[..i] == issues;
      errors := newErrors;
      return false;
    }

    /**
     * `validateForm` as written: acceptance clears the errors and returns true;
     * rejection throws from the `catch` block and leaves the errors untouched.
     */
    method ValidateFormAsWritten() returns (threw: bool)
      modifies this`errors
      ensures threw == !AcceptsSubscription(lib, AsInput(formData))
      ensures errors == ErrorsAfterThrowingValidation(lib, formData, old(errors))
    {
      var issues := SubscriptionIssues(lib, AsInput(formData));
      if issues == [] {
        errors := map[];
        return false;
      }
      return true;
    }

    /**
     * `handleSubmit` as written: a rejected form aborts with the exception from
     * `validateForm`, before the user lookup and the insert; an accepted form
     * goes on exactly as in `HandleSubmit`.
     */
    method HandleSubmitAsWritten(app: App, user: Option<string>, inserted: Option<Subscription>) returns (outcome: SubmitOutcome)
      requires app.Valid()
      modifies this`errors, app
      ensures app.Valid()
      ensures formData == old(formData)
      ensures !AcceptsSubscription(lib, AsInput(formData)) ==> outcome == Threw
      ensures AcceptsSubscription(lib, AsInput(formData)) && user.None? ==> outcome == NoUser
      ensures AcceptsSubscription(lib, AsInput(formData)) && user.Some? && inserted.None? ==>
        outcome == InsertFailed(Payload(lib, formData, user.value))
      ensures AcceptsSubscription(lib, AsInput(formData)) && user.Some? && inserted.Some? ==>
        outcome == Added(Payload(lib, formData, user.value), inserted.value)
      ensures outcome.Added? ==> app.subscriptions == old(app.subscriptions) + [outcome.stored] && !app.isFormOpen
      ensures !outcome.Added? ==> app.subscriptions == old(app.subscriptions) && app.isFormOpen == old(app.isFormOpen)
      ensures errors == ErrorsAfterThrowingValidation(lib, formData, old(errors))
    {
      var threw := ValidateFormAsWritten();
      if threw {
        return Threw;
      }
      if user.None? {
        return NoUser;
      }
      var subscription := Payload(lib, formData, user.value);
      if inserted.None? {
        return InsertFailed(subscription);
      }
      app.HandleSubscriptionAdded(inserted.value);
      app.CloseForm();
      outcome := Added(subscription, inserted.value);
    }

    /**
     * `handleSubmit` over the intended `ValidateForm`: a form that fails
     * validation goes no further; then the user lookup, the payload, the insert, and only after a successful insert
     * the dashboard's `onSubscriptionAdded` and `onClose`.
     */
    method HandleSubmit(app: App, user: Option<string>, inserted: Option<Subscription>) returns (outcome: SubmitOutcome)
      requires app.Valid()
      modifies this`errors, app
      ensures app.Valid()
      ensures formData == old(formData)
      ensures !AcceptsSubscription(lib, AsInput(formData)) ==> outcome == Rejected
      ensures AcceptsSubscription(lib, AsInput(formData)) && user.None? ==> outcome == NoUser
      ensures AcceptsSubscription(lib, AsInput(formData)) && user.Some? && inserted.None? ==>
        outcome == InsertFailed(Payload(lib, formData, user.value))
      ensures AcceptsSubscription(lib, AsInput(formData)) && user.Some? && inserted.Some? ==>
        outcome == Added(Payload(lib, formData, user.value), inserted.value)
      ensures outcome.Added? ==> app.subscriptions == old(app.subscriptions) + [outcome.stored] && !app.isFormOpen
      ensures !outcome.Added? ==> app.subscriptions == old(app.subscriptions) && app.isFormOpen == old(app.isFormOpen)
      ensures errors == if AcceptsSubscription(lib, AsInput(formData)) then map[]
                        else ErrorMap(SubscriptionIssues(lib, AsInput(formData)))
    {
      var valid := ValidateForm();
      if !valid {
        return Rejected;
      }
      if user.None? {
        return NoUser;
      }
      var subscription := Payload(lib, formData, user.value);
      if inserted.None? {
        return InsertFailed(subscription);
      }
      app.HandleSubscriptionAdded(inserted.value);
      app.CloseForm();
      outcome := Added(subscription, inserted.value);
    }
  }
}
