/**
 * The two form schemas of src/utils/validation.ts as pure functions.
 *
 * A schema maps a raw record of strings to the list of issues it raises; an
 * empty list is acceptance. Each issue carries the path of the offending key
 * and the message the schema attaches to it. Every key of an object schema is
 * checked, in declaration order, and its issues are collected under its own
 * key: one field's verdict never depends on another field.
 *
 * URL and e-mail recognition and JavaScript's `Number`/`parseFloat` belong to
 * libraries that are not part of this model; they are supplied as a `Library`
 * value, and every statement below holds whatever those routines are.
 */
module Validation {
  import opened Wrappers

  /** A JavaScript number as the price check sees it. */
  datatype Num = NaN | Finite(value: real) | PosInfinity | NegInfinity

  /** The library routines the schemas rely on. */
  datatype Library = Library(
    isUrl: string -> bool,
    isEmail: string -> bool,
    number: string -> Num,
    parseFloat: string -> Num)

  /** The messages the schemas attach to their issues, one per rule. */
  datatype Message =
    | Required              // the field is empty
    | NotNonNegativeNumber  // the price is not a number of at least zero
    | InvalidCycle          // the billing cycle is neither monthly nor yearly
    | InvalidUrl            // the service URL is not a URL
    | InvalidEmail          // the address is not e-mail shaped
    | PasswordTooShort      // the password has fewer than six characters

  datatype Issue = Issue(path: seq<string>, message: Message)

  /** The raw record the subscription schema parses. The two optional keys may be absent. */
  datatype SubscriptionInput = SubscriptionInput(
    serviceName: string,
    price: string,
    billingCycle: string,
    nextBillingDate: string,
    category: string,
    serviceUrl: Option<string>,
    notes: Option<string>)

  /** The keys of the subscription schema. */
  datatype Field = ServiceName | Price | BillingCycle | NextBillingDate | Category | ServiceUrl | Notes

  /** The key as it appears in the record and in an issue's path. */
  function Name(field: Field): string
  {
    match field
    case ServiceName => "service_name"
    case Price => "price"
    case BillingCycle => "billing_cycle"
    case NextBillingDate => "next_billing_date"
    case Category => "category"
    case ServiceUrl => "service_url"
    case Notes => "notes"
  }

  /** The keys of the subscription schema, in declaration order. */
  const SubscriptionFields: seq<Field> :=
    [ServiceName, Price, BillingCycle, NextBillingDate, Category, ServiceUrl, Notes]

  // ---------------------------------------------------------------- field rules

  /** A minimum-length check: one message when the text is shorter than `n`. */
  function MinLength(v: string, n: nat, msg: Message): seq<Message>
  {
    if |v| < n then [msg] else []
  }

  /** What the price refinement demands of `Number(val)`: not NaN and at least zero. */
  predicate NonNegativeNumber(n: Num)
  {
    match n
    case NaN => false
    case Finite(r) => r >= 0.0
    case PosInfinity => true
    case NegInfinity => false
  }

  /**
   * The price: a required-text check followed by a refinement on `Number(v)`.
   * A failed length check does not stop the refinement, so both run on every string.
   */
  function PriceIssues(lib: Library, v: string): seq<Message>
  {
    MinLength(v, 1, Required) + (if NonNegativeNumber(lib.number(v)) then [] else [NotNonNegativeNumber])
  }

  /** The billing cycle: a closed enumeration of the two texts "monthly" and "yearly". */
  function BillingCycleIssues(v: string): seq<Message>
  {
    if v == "monthly" || v == "yearly" then [] else [InvalidCycle]
  }

  /** The service URL: a union of an optional URL and the empty text, so absent, a URL, or exactly "". */
  function ServiceUrlIssues(lib: Library, v: Option<string>): seq<Message>
  {
    match v
    case None => []
    case Some(s) => if lib.isUrl(s) || s == "" then [] else [InvalidUrl]
  }

  /** The messages the subscription schema raises for one of its keys. */
  function FieldIssues(lib: Library, inp: SubscriptionInput, field: Field): seq<Message>
  {
    match field
    case ServiceName => MinLength(inp.serviceName, 1, Required)
    case Price => PriceIssues(lib, inp.price)
    case BillingCycle => BillingCycleIssues(inp.billingCycle)
    case NextBillingDate => MinLength(inp.nextBillingDate, 1, Required)
    case Category => MinLength(inp.category, 1, Required)
    case ServiceUrl => ServiceUrlIssues(lib, inp.serviceUrl)
    case Notes => []  // an optional string: every text and absence pass
  }

  // ---------------------------------------------------------------- schemas

  /** Messages of one key, placed at that key's path. */
  function Tag(key: string, msgs: seq<Message>): (r: seq<Issue>)
    ensures |r| == |msgs|
    ensures forall i :: 0 <= i < |r| ==> r[i] == Issue([key], msgs[i])
  {
    seq(|msgs|, i requires 0 <= i < |msgs| => Issue([key], msgs[i]))
  }

  /** The issues of an object schema whose keys are `keys`, key by key. */
  function IssuesFor(lib: Library, inp: SubscriptionInput, fields: seq<Field>): seq<Issue>
  {
    if fields == [] then []
    else Tag(Name(fields[0]), FieldIssues(lib, inp, fields[0])) + IssuesFor(lib, inp, fields[1..])
  }

  /** Parsing a record with the subscription schema, as the list of issues it raises. */
  function SubscriptionIssues(lib: Library, inp: SubscriptionInput): seq<Issue>
  {
    IssuesFor(lib, inp, SubscriptionFields)
  }

  predicate AcceptsSubscription(lib: Library, inp: SubscriptionInput)
  {
    SubscriptionIssues(lib, inp) == []
  }

  /** The auth schema: e-mail required and e-mail shaped, password of at least six characters. */
  function AuthIssues(lib: Library, email: string, password: string): seq<Issue>
  {
    Tag("email", MinLength(email, 1, Required) + (if lib.isEmail(email) then [] else [InvalidEmail]))
    + Tag("password", MinLength(password, 6, PasswordTooShort))
  }

  predicate AcceptsAuth(lib: Library, email: string, password: string)
  {
    AuthIssues(lib, email, password) == []
  }

  // ---------------------------------------------------------------- lemmas

  /** An object schema raises nothing exactly when none of its keys does. */
  lemma {:induction false} IssuesForEmpty(lib: Library, inp: SubscriptionInput, fields: seq<Field>)
    ensures IssuesFor(lib, inp, fields) == [] <==> forall f :: f in fields ==> FieldIssues(lib, inp, f) == []
  {
    if fields != [] {
      IssuesForEmpty(lib, inp, fields[1..]);
      assert forall f :: f in fields <==> f == fields[0] || f in fields[1..];
    }
  }

  /**
   * The subscription schema accepts a record exactly when every key passes its
   * own rule. The name is checked for emptiness only (no trimming), the date
   * and the category likewise (no calendar or category-list check), and
   * `notes` takes no part in the verdict.
   */
  lemma SubscriptionAcceptance(lib: Library, inp: SubscriptionInput)
    ensures AcceptsSubscription(lib, inp) <==>
      && inp.serviceName != ""
      && inp.price != "" && NonNegativeNumber(lib.number(inp.price))
      && (inp.billingCycle == "monthly" || inp.billingCycle == "yearly")
      && inp.nextBillingDate != ""
      && inp.category != ""
      && (inp.serviceUrl == None || inp.serviceUrl == Some("") || lib.isUrl(inp.serviceUrl.value))
  {
    IssuesForEmpty(lib, inp, SubscriptionFields);
    PriceRule(lib, inp.price);
    ServiceUrlRule(lib, inp.serviceUrl);
    if AcceptsSubscription(lib, inp) {
      assert FieldIssues(lib, inp, ServiceName) == [] && FieldIssues(lib, inp, Price) == [];
      assert FieldIssues(lib, inp, BillingCycle) == [] && FieldIssues(lib, inp, NextBillingDate) == [];
      assert FieldIssues(lib, inp, Category) == [] && FieldIssues(lib, inp, ServiceUrl) == [];
    }
  }

  /** The schema lists every key once. */
  lemma SubscriptionFieldsComplete(field: Field)
    ensures field in SubscriptionFields
  {
    match field
    case ServiceName => assert SubscriptionFields[0] == field;
    case Price => assert SubscriptionFields[1] == field;
    case BillingCycle => assert SubscriptionFields[2] == field;
    case NextBillingDate => assert SubscriptionFields[3] == field;
    case Category => assert SubscriptionFields[4] == field;
    case ServiceUrl => assert SubscriptionFields[5] == field;
    case Notes => assert SubscriptionFields[6] == field;
  }

  /** Distinct keys have distinct names, so no key's issues are filed under another's. */
  lemma NameInjective(f: Field, g: Field)
    ensures Name(f) == Name(g) ==> f == g
    ensures Name(f) != ""
  {
  }

  /** The price rule: required, then a number that is not NaN and not negative. */
  lemma PriceRule(lib: Library, v: string)
    ensures PriceIssues(lib, v) == [] <==> v != "" && NonNegativeNumber(lib.number(v))
    ensures v == "" ==> Required in PriceIssues(lib, v)
    ensures v != "" && !NonNegativeNumber(lib.number(v)) ==> PriceIssues(lib, v) == [NotNonNegativeNumber]
  {
  }

  /** With JavaScript's `Number("") === 0`, an empty price raises only the "required" issue. */
  lemma EmptyPriceIsOnlyRequired(lib: Library)
    requires lib.number("") == Finite(0.0)
    ensures PriceIssues(lib, "") == [Required]
  {
  }

  /** A service URL passes when absent, empty, or a URL; any other text fails. */
  lemma ServiceUrlRule(lib: Library, v: Option<string>)
    ensures ServiceUrlIssues(lib, v) == [] <==> v == None || v == Some("") || lib.isUrl(v.value)
  {
  }

  /** A key's verdict reads that key only: records that agree on it get the same verdict on it. */
  lemma FieldIndependence(lib: Library, inp: SubscriptionInput, inp': SubscriptionInput, field: Field)
    requires field == ServiceName ==> inp.serviceName == inp'.serviceName
    requires field == Price ==> inp.price == inp'.price
    requires field == BillingCycle ==> inp.billingCycle == inp'.billingCycle
    requires field == NextBillingDate ==> inp.nextBillingDate == inp'.nextBillingDate
    requires field == Category ==> inp.category == inp'.category
    requires field == ServiceUrl ==> inp.serviceUrl == inp'.serviceUrl
    ensures FieldIssues(lib, inp, field) == FieldIssues(lib, inp', field)
  {
  }

  /** The auth schema accepts exactly a non-empty, e-mail shaped address and a password of six or more characters. */
  lemma AuthAcceptance(lib: Library, email: string, password: string)
    ensures AcceptsAuth(lib, email, password) <==> email != "" && lib.isEmail(email) && |password| >= 6
    ensures email == "" ==> |AuthIssues(lib, email, password)| >= 1
  {
    var emailMsgs := MinLength(email, 1, Required) + (if lib.isEmail(email) then [] else [InvalidEmail]);
    var pwMsgs := MinLength(password, 6, PasswordTooShort);
    assert |AuthIssues(lib, email, password)| == |emailMsgs| + |pwMsgs|;
  }
}
