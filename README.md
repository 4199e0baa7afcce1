# Subscription tracker: validation, submission and spend totals

A verified Dafny model of the logic inside a small React subscription tracker.
Users record recurring subscriptions with a service name, a price, a billing
cycle, a next billing date, a category, an optional URL and notes. The tracker
lists them and shows the total monthly and yearly spend. The model covers
three pieces of that logic:

- **The form schemas** (`validation.ts`, module `Validation`). The
  subscription schema turns a raw record of strings into a list of issues;
  an empty list means the record is accepted. The auth schema does the same
  for an e-mail and a password. Each key is checked on its own:
  - name, date and category must be non-empty (no trimming, no calendar
    check, no check against the category list);
  - the price must be non-empty, and `Number(price)` must be neither NaN nor
    negative;
  - the billing cycle must be exactly `monthly` or `yearly`;
  - the URL may be absent, empty or a URL;
  - the notes are never checked.

  The URL check, the e-mail check, `Number` and `parseFloat` come from
  libraries outside the model. They are passed in as a `Library` value, so
  every lemma holds whatever those routines do. `Number` returns a `Num`:
  NaN, a finite real, or plus or minus infinity. So the price text
  "Infinity" passes the price rule, exactly as it does in the source.
- **The new-subscription form** (`SubscriptionForm.tsx`, module
  `SubscriptionFormComponent`):
  - `ValidateForm` is a loop that folds the schema's issues into a
    field-to-message map. A later issue for the same key overwrites an
    earlier one. That is the evident intent. As written, a rejected form
    throws before the map is built; see "## Findings".
  - `HandleSubmit` stops at a failed validation. It then runs the user lookup
    and builds the payload: the form's fields, plus `user_id`, with the price
    text replaced by `parseFloat` of it. After the insert it hands the stored
    row to the dashboard. Only a successful insert adds to the list or closes
    the form.
- **The dashboard** (`App.tsx`, modules `SubscriptionList` and
  `AppComponent`):
  - A class holds the subscription list, the two totals and the form-open
    flag.
  - The handlers append, delete by id, replace by id, or take a fetched list.
    Each then re-runs `CalculateTotals`.
  - The class invariant says the totals always equal `SpendOf`, a recursive
    fold over the list. `CalculateTotals` is the source's loop, proved equal
    to that fold.
  - A monthly item adds its price to the monthly total and twelve times its
    price to the yearly total. Any other item adds its price to the yearly
    total and a twelfth of it to the monthly total.

Backend calls are not modelled; their results are method parameters. The
user lookup and the insert are `Option`s, where `None` is an error or a
missing user. A delete's success is a `bool`.

Three consequences of the code that are easy to miss:

- The service name is rejected only when it is the empty string.
  `validation.ts:4` does not trim, so a name of blanks is accepted.
- The schema's parsed output is discarded. `SubscriptionForm.tsx:64-68` builds
  the payload from the raw form text, so an empty URL or empty notes are
  sent as empty strings, not as absent fields.
- `YearlyIsTwelveTimesMonthly`: with exact arithmetic, the yearly total is
  twelve times the monthly total for any mix of billing cycles.

## Model

| member | source | states |
|---|---|---|
| Validation.SubscriptionAcceptance | project-bolt-sb1-g6iohwwz/project/src/utils/validation.ts:3-16 | a record is accepted iff the name, the date and the category are non-empty; the price is non-empty with `Number(price)` neither NaN nor negative; the cycle is `monthly` or `yearly`; and the URL is absent, empty or a URL. The notes take no part |
| Validation.IssuesForEmpty | project-bolt-sb1-g6iohwwz/project/src/utils/validation.ts:3-16 | an object schema raises no issue iff none of its keys raises one |
| Validation.FieldIndependence | project-bolt-sb1-g6iohwwz/project/src/utils/validation.ts:3-16 | a key's verdict reads only that key: two records that agree on it get the same issues for it |
| Validation.PriceRule | project-bolt-sb1-g6iohwwz/project/src/utils/validation.ts:5-8 | the price passes iff it is non-empty and `Number` of it is neither NaN nor negative. An empty price always carries the "required" issue. A non-empty price that fails gets the number issue alone |
| Validation.EmptyPriceIsOnlyRequired | project-bolt-sb1-g6iohwwz/project/src/utils/validation.ts:5-8 | given JavaScript's `Number("") = 0`, an empty price raises only the "required" issue |
| Validation.ServiceUrlRule | project-bolt-sb1-g6iohwwz/project/src/utils/validation.ts:14 | the URL field passes iff it is absent, empty, or accepted by the URL check |
| Validation.AuthAcceptance | project-bolt-sb1-g6iohwwz/project/src/utils/validation.ts:18-21 | auth input is accepted iff the e-mail is non-empty and e-mail shaped and the password has at least six characters; an empty e-mail always raises an issue |
| SubscriptionFormComponent.InitialFormErrors | project-bolt-sb1-g6iohwwz/project/src/components/SubscriptionForm.tsx:21-29 | the untouched form (`monthly`, every other field empty) is rejected, and its error map holds "required" under exactly the name, price, date and category keys |
| SubscriptionFormComponent.SubscriptionForm.constructor | project-bolt-sb1-g6iohwwz/project/src/components/SubscriptionForm.tsx:21-30 | a new form holds the initial form data and an empty error map |
| SubscriptionFormComponent.SubscriptionForm.HandleChange | project-bolt-sb1-g6iohwwz/project/src/components/SubscriptionForm.tsx:105 | an input's change sets that one field of the form data and nothing else |
| SubscriptionFormComponent.EditKeepsOtherVerdicts | project-bolt-sb1-g6iohwwz/project/src/components/SubscriptionForm.tsx:105 | editing one input leaves every other field's issues as they were |
| SubscriptionFormComponent.SubscriptionForm.ValidateForm | project-bolt-sb1-g6iohwwz/project/src/components/SubscriptionForm.tsx:32-49 | the intended version, with `zod` imported as a value. It returns true iff the schema accepts the form. On acceptance the error map becomes empty. On rejection it becomes the fold of the issues built by the loop |
| SubscriptionFormComponent.SubscriptionForm.ValidateFormAsWritten | project-bolt-sb1-g6iohwwz/project/src/components/SubscriptionForm.tsx:32-49 | the version as written. It throws iff the schema rejects the form, and then leaves the error map as it was. On acceptance it clears the map |
| SubscriptionFormComponent.ThrowingValidationHidesErrors | project-bolt-sb1-g6iohwwz/project/src/components/SubscriptionForm.tsx:38 | submitting the untouched form as written leaves the starting empty error map empty, while the intended version shows a non-empty map |
| SubscriptionFormComponent.ErrorMapKeys | project-bolt-sb1-g6iohwwz/project/src/components/SubscriptionForm.tsx:39-44 | the error map has a key exactly for each first path element that is non-empty on some issue |
| SubscriptionFormComponent.ErrorMapLastWins | project-bolt-sb1-g6iohwwz/project/src/components/SubscriptionForm.tsx:39-44 | each key's entry is the message of the last issue filed under it |
| SubscriptionFormComponent.ErrorMapConcat | project-bolt-sb1-g6iohwwz/project/src/components/SubscriptionForm.tsx:39-44 | folding two issue lists one after the other is the second map overriding the first |
| SubscriptionFormComponent.ErrorMapOfFields | project-bolt-sb1-g6iohwwz/project/src/components/SubscriptionForm.tsx:39-44 | for an object schema, a key's name is in the map iff that key raised issues, and it maps to the last one; every entry is some key's name |
| SubscriptionFormComponent.FormErrorsAreFailingFields | project-bolt-sb1-g6iohwwz/project/src/components/SubscriptionForm.tsx:37-48 | on rejection the map has an entry for exactly the failing fields, each holding that field's last message, and never one for notes |
| SubscriptionFormComponent.Payload | project-bolt-sb1-g6iohwwz/project/src/components/SubscriptionForm.tsx:64-68 | the payload carries the user id and `parseFloat` of the price. Put the price text back and drop the user id, and you get the form again |
| SubscriptionFormComponent.AcceptedPayload | project-bolt-sb1-g6iohwwz/project/src/components/SubscriptionForm.tsx:64-68 | for an accepted form where `parseFloat` and `Number` agree on the price text, the payload price is neither NaN nor negative; the cycle is `monthly` or `yearly`; name and category are non-empty |
| SubscriptionFormComponent.SubscriptionForm.HandleSubmitAsWritten | project-bolt-sb1-g6iohwwz/project/src/components/SubscriptionForm.tsx:51-84 | a rejected form aborts with the exception, before the lookup and the insert, and keeps the old error map. An accepted form goes on exactly as in `HandleSubmit` |
| SubscriptionFormComponent.SubscriptionForm.HandleSubmit | project-bolt-sb1-g6iohwwz/project/src/components/SubscriptionForm.tsx:51-84 | a rejected form ends before the lookup and the insert. A failed lookup or insert leaves the list and the form flag unchanged. Only a successful insert appends the stored row and closes the form. The payload sent is `Payload` of the form |
| SubscriptionList.ContributionConversion | project-bolt-sb1-g6iohwwz/project/src/App.tsx:59-64 | a monthly item adds its price monthly; any other item adds its price yearly. An item's yearly share is exactly twelve times its monthly share, and neither is negative for a non-negative price |
| SubscriptionList.SpendOfConcat | project-bolt-sb1-g6iohwwz/project/src/App.tsx:58-66 | the totals of a concatenation are the sums of the parts' totals |
| SubscriptionList.SpendOfPermutation | project-bolt-sb1-g6iohwwz/project/src/App.tsx:58-66 | lists with the same items in any order have the same totals |
| SubscriptionList.SpendNonNegative | project-bolt-sb1-g6iohwwz/project/src/App.tsx:58-66 | with no negative price, neither total is negative |
| SubscriptionList.YearlyIsTwelveTimesMonthly | project-bolt-sb1-g6iohwwz/project/src/App.tsx:54-70 | the yearly total is exactly twelve times the monthly total for every list |
| SubscriptionList.SpendExample | project-bolt-sb1-g6iohwwz/project/src/App.tsx:54-70 | a monthly item at 12 plus a yearly item at 120 give 22 a month and 264 a year |
| SubscriptionList.SpendOfAppend | project-bolt-sb1-g6iohwwz/project/src/App.tsx:88 | appending an item adds exactly its contribution to the totals |
| SubscriptionList.WithoutId | project-bolt-sb1-g6iohwwz/project/src/App.tsx:84 | the list kept by a delete holds exactly the items whose id differs, and is no longer than before |
| SubscriptionList.WithoutIdCounts | project-bolt-sb1-g6iohwwz/project/src/App.tsx:84 | a delete keeps every other item as often as it occurred and drops every item with the id |
| SubscriptionList.WithoutIdConcat | project-bolt-sb1-g6iohwwz/project/src/App.tsx:84 | deleting distributes over concatenation, so the kept items stay in their original order |
| SubscriptionList.WithoutIdAbsent | project-bolt-sb1-g6iohwwz/project/src/App.tsx:84 | deleting an id that no item has changes nothing |
| SubscriptionList.WithoutIdIdempotent | project-bolt-sb1-g6iohwwz/project/src/App.tsx:84 | deleting the same id twice is deleting it once |
| SubscriptionList.SpendAfterRemoval | project-bolt-sb1-g6iohwwz/project/src/App.tsx:84 | the totals before a delete are the totals after it plus the totals of the removed items |
| SubscriptionList.ReplaceById | project-bolt-sb1-g6iohwwz/project/src/App.tsx:93-95 | an update keeps the length and every position's id. Each item with the record's id becomes the record; every other item is untouched |
| SubscriptionList.ReplaceByIdAbsent | project-bolt-sb1-g6iohwwz/project/src/App.tsx:93-95 | updating with an id no item has changes nothing |
| AppComponent.App.constructor | project-bolt-sb1-g6iohwwz/project/src/App.tsx:11-14 | the dashboard starts with an empty list, zero totals and the form closed |
| AppComponent.App.CalculateTotals | project-bolt-sb1-g6iohwwz/project/src/App.tsx:54-70 | the loop leaves the totals equal to `SpendOf` of the list |
| AppComponent.App.HandleFetched | project-bolt-sb1-g6iohwwz/project/src/App.tsx:40-52 | a successful fetch replaces the list, and an error leaves it unchanged; the totals stay in sync |
| AppComponent.App.HandleDelete | project-bolt-sb1-g6iohwwz/project/src/App.tsx:72-85 | only after the backend reports success does the list become `WithoutId` of the old list; the totals stay in sync |
| AppComponent.App.HandleSubscriptionAdded | project-bolt-sb1-g6iohwwz/project/src/App.tsx:87-90 | the record is appended, the old list is an unchanged prefix, the form closes, and the totals stay in sync |
| AppComponent.App.HandleSubscriptionUpdated | project-bolt-sb1-g6iohwwz/project/src/App.tsx:92-96 | the list becomes `ReplaceById` of the old list with the same length; the totals stay in sync |
| AppComponent.App.OpenForm | project-bolt-sb1-g6iohwwz/project/src/App.tsx:109 | the "new" button opens the form |
| AppComponent.App.CloseForm | project-bolt-sb1-g6iohwwz/project/src/App.tsx:151 | the form's close callback closes it |

## Findings

| source | as written | input that shows it | evidently intended | confidence | as-written member | corrected member |
|---|---|---|---|---|---|---|
| project-bolt-sb1-g6iohwwz/project/src/components/SubscriptionForm.tsx:38 | line 8 imports `z` from `zod` with `import type`, which is erased when compiled. So on a rejected form `error instanceof z.ZodError` throws a `ReferenceError`. `setErrors` and `return false` never run, the error map stays as it was, and the submit handler's promise rejects. Gating still holds: nothing past the validation runs | submitting the untouched form: monthly billing, every other field empty | import `z` as a value. Then a rejected form shows the fold of its issues, and `validateForm` returns false | medium, not executed | SubscriptionFormComponent.ThrowingValidationHidesErrors | SubscriptionFormComponent.SubscriptionForm.HandleSubmit |

## Left out

- Backend calls are not modelled. This covers the session check, the auth-state listener, the fetch with its server-side ordering by next billing date, the user lookup, the insert, the delete and the update. Their results are parameters, so the model says nothing about what the backend stores or how it orders rows.
- Rendering, toasts and the error-message component are presentation only.
- The subscription card is left out. It is display code, and its renewal flag depends on the wall clock and on date parsing.
- AppComponent.App.HandleDelete: runs as one atomic step on the current list. In the source (`App.tsx:73-84`), the filter runs on the `subscriptions` captured before the delete's `await`. So two overlapping deletes lose an update: delete A, then delete B before A's response arrives, and the second filter brings A back. The model gives `WithoutId(WithoutId(L, A), B)` instead.
- AppComponent.App.HandleSubscriptionAdded: runs as one atomic step on the current list. The source appends to the list captured by the callback, and calls it after the form's awaits, so an overlapping change to the list can be lost. That interleaving is not modelled.
- AppComponent.App.HandleSubscriptionUpdated: runs as one atomic step on the current list. The source maps over the list captured by the callback, and calls it after the edit form's awaits, so an overlapping change to the list can be lost. That interleaving is not modelled.
- The edit form is left out. It never runs the schema before updating, so updates are not validated; only the list replacement on update is modelled.
- The sign-in form that uses the auth schema is not part of this model. Only the schema itself is modelled.
- The shared-subscription type is not modelled, because no code reads or writes it.
- Totals use exact `real` arithmetic. Floating-point rounding of `price / 12`, and the rounding and locale formatting of the displayed totals, are not modelled.
- URL and e-mail recognition, `Number` and `parseFloat` are opaque `Library` parameters. The payload lemma assumes `parseFloat` and `Number` agree on the accepted price text. For JavaScript they can differ, e.g. on hexadecimal text.
- The texts of the schema's messages are modelled as one `Message` constructor per rule. The enum's default message, which quotes the rejected value, is one constructor.
- Validation.AuthAcceptance: measures the password in Dafny characters, not in the UTF-16 code units JavaScript's length counts.
- The dashboard list holds prices as reals, so an infinite price that passed the form's price rule has no representation there.
- `validateForm` catches only schema errors. The branch where parsing throws something else, and leaves the error map untouched, is not modelled because the schema cannot throw anything else.
