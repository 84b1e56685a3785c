# Boletos: a verified model of the bill tracker's client logic

The application keeps a list of bills ("boletos"). Each bill has a title, a
category and optional subcategory, an amount (`valor`), a due date, an
optional payment date, a status (`PAGO` or `PENDENTE`) and notes. This model
covers the parts of the web client that compute things or change the list:

- the report (`calculateReport`): the projected and paid totals, the
  per-category view in the order categories first appear, and the paid
  percentage;
- the list filter: search term, inclusive date bounds, status;
- the state patches the app applies once the remote store answers (mark
  paid, delete, save an edit or a new bill, add a category, reload);
- the bill card: paid, overdue, and which buttons it shows;
- the bill form: how it is filled, the category reset, the subcategory
  options, and the record a submit produces;
- the category form: the trimmed, non-blank name it saves.

Modules:
- `Wrappers`: `Option`.
- `Numerals` and `Text`: digit strings, lower-casing, `includes`, `trim`,
  and string order.
- `Dates`: `YYYY-MM-DD` strings and `new Date` comparisons.
- `Money`: amounts in cents, `toString`, and the number input's parse.
- `Sequences`: subsequence and distinctness.
- `Types`: the records of `types.ts`.
- `Report`, `Filter`, `AppState`, `BoletoCard`, `BoletoModal`, `CategoryModal`:
  one per core part listed above.

Representation choices:
- An amount is a whole number of cents (`int`), so sums are exact. The
  percentage is a `real`.
- A date is its string. `new Date(s)` is `Dates.ParseDate`, which gives `None`
  (the invalid date) for text that is not `YYYY-MM-DD`. Every comparison with
  an invalid date is false, as comparisons with NaN are.
- The report's accumulator object is a pair: its keys in insertion order, and
  a map.
- The screen state of `App` is a class with one field per `useState` the
  patches touch. Each of its methods changes only the fields it names.
- The remote store is left out. Each method takes its answer as inputs:
  whether the call succeeded, and the rows it returned. The confirmation
  dialog of delete is a `confirmed` input.
- The forms are classes with their `formData` / `name` state. A submit
  returns the calls it makes on the parent, in order (`Save`, then `Close`).

Three points where the code does less than a reader might expect; the model
follows the code:
- The search looks at title, category and notes, not at the subcategory
  (App.tsx:194-196).
- Delete removes every bill with the id, not exactly one (App.tsx:131).
  `AppState.RemoveUniqueId` shows the two agree when ids are unique.
- The app's data rule is that a bill is paid exactly when a payment date is
  set (`Types.StatusAgreesWithPayment`). The code does not enforce it on rows
  loaded from the store. The model proves that the app's local patches keep
  it (`AppState.MarkPaidKeepsStatusInvariant`,
  `BoletoModal.SubmittedRecordIsConsistent`). The store write of an edit need
  not keep it (see "Left out").

## Model

| member | source | states |
|---|---|---|
| `Report.CalculateReport` | App.tsx:84-104 | totals, category view and percentage are the reference functions (`Total`, `TotalPaid`, `CategoryView`, `PaidPercentage` of the two totals); the view's totals add up to the projected total; percentage is 0 without a positive projected total and within 0..100 for non-negative amounts |
| `Report.BuildCategoryView` | App.tsx:88-96 | the one-pass accumulator loop over the bills yields exactly `CategoryView`: one entry per category, first-seen order, each with its category's sum |
| `Report.CategoryViewIsPartition` | App.tsx:88-96 | the view lists exactly the categories that occur, each once, each with the sum of its bills, and its totals add up to the projected total |
| `Report.CategoriesAreTheInputCategories` | App.tsx:88-91 | the accumulator's keys are exactly the categories of the bills, with no repeats |
| `Report.CategoriesOfPrefix` | App.tsx:88-91 | keys inserted early stay in front: the keys of a prefix are a prefix of the keys |
| `Report.CategorySumAbsent` | App.tsx:89 | a category that is not a key has accumulated nothing |
| `Report.SumOverIsTotal` | App.tsx:85-91 | summing the per-category sums over the keys gives the projected total |
| `Report.PaidPlusPendingIsTotal` | App.tsx:85-86 | paid total plus pending total is the projected total |
| `Report.TotalPaidAtMostTotal` | App.tsx:85-86 | with non-negative amounts, 0 <= paid total <= projected total |
| `Report.PaidItemsAreItems` | App.tsx:86 | the paid filter keeps exactly the bills with status `PAGO` |
| `Report.PaidItemsCounts` | App.tsx:86 | the paid filter keeps each paid bill as many times as it occurs, and no other |
| `Report.TotalAppend` | App.tsx:85 | the projected total of a concatenation is the sum of the totals |
| `Report.TotalWithout` | App.tsx:85 | leaving one bill out takes its amount off the total |
| `Report.PaidPercentage` | App.tsx:102 | 0 when the projected total is not positive; otherwise percentage * projected = paid * 100; within 0..100 when 0 <= paid <= projected |
| `Report.ReportExample` | App.tsx:84-104 | a three-bill example: totals 175.00 and 50.00, view [Saúde 150.00, Lazer 25.00] in first-seen order, percentage 200/7 |
| `Filter.FilteredMembership` | App.tsx:193-203 | a bill is shown exactly when it is in the list and passes all four tests, and as many times as it occurs in the list |
| `Filter.FilteredIsSubsequence` | App.tsx:193 | the shown list keeps the order of the full list |
| `Filter.FilteredAppend` | App.tsx:193 | filtering distributes over concatenation |
| `Filter.FilteredIdempotent` | App.tsx:193-203 | filtering the shown list again changes nothing |
| `Filter.FilteredAllMatch` | App.tsx:193 | when every bill passes, the list is returned unchanged |
| `Filter.NoFilterShowsAll` | App.tsx:21-24 | the initial filter state (empty term, no dates, `TODOS`) shows the whole list in order |
| `Filter.SearchIgnoresCaseOfTerm` | App.tsx:194-196 | lower-casing the term first does not change the search |
| `Filter.DateBoundsAreInclusive` | App.tsx:198-199 | on well-formed dates, the bounds are inclusive string comparisons, and an empty bound admits everything |
| `Dates.DayNumberIsStringOrder` | App.tsx:198-199 | on `YYYY-MM-DD` dates, the calendar order is the string order, and equal dates are equal strings |
| `Dates.DateComparisonsAreStringComparisons` | components/BoletoCard.tsx:14 | `<`, `>=` and `<=` on the parsed dates are the string comparisons |
| `Dates.InvalidDateComparesFalse` | App.tsx:198-199 | a date that does not parse makes every comparison false |
| `Text.IncludesIffOccurs` | App.tsx:194 | `includes` holds exactly when the needle occurs at some position |
| `Text.LowerIdempotent` | App.tsx:194 | lower-casing twice is lower-casing once |
| `Text.TrimIsSlice` | components/CategoryModal.tsx:23-24 | `trim` gives a slice of the input with only white space around it, and the slice neither starts nor ends with white space |
| `Text.TrimEmptyIff` | components/CategoryModal.tsx:23 | `trim` gives the empty string exactly when the input is all white space |
| `Text.TrimIdempotent` | components/CategoryModal.tsx:24 | trimming twice is trimming once |
| `Numerals.DigitsLexLessIffLess` | App.tsx:198 | for digit strings of one length, string order is numeric order |
| `Numerals.DigitsValueInjective` | App.tsx:198 | digit strings of one length with the same value are equal |
| `Numerals.NatToString` | components/BoletoModal.tsx:42 | the decimal text of n: non-empty digits whose value is n, no leading zero |
| `Money.ParseFormatRoundTrip` | components/BoletoModal.tsx:42 | reading back the text that `valor.toString()` writes (via `parseFloat`, line 69) gives the same amount |
| `Money.ParseCentsEmpty` | components/BoletoModal.tsx:149 | the empty amount field is not a number, so the form cannot submit |
| `AppState.MarkPaidByIdAt` | App.tsx:115-119 | mark-paid keeps the length; a bill with the id becomes `PAGO` on `REFERENCE_DATE`; every other bill is unchanged |
| `AppState.MarkPaidKeepsStatusInvariant` | App.tsx:115-119 | if every bill satisfies "paid iff a payment date is set", so does every bill after mark-paid |
| `AppState.MarkPaidKeepsTotal` | App.tsx:115-119 | marking bills paid leaves the projected total unchanged |
| `AppState.RemoveByIdSpec` | App.tsx:131 | delete keeps exactly the bills with another id, each as many times as it occurs, in their order |
| `AppState.RemoveUniqueId` | App.tsx:131 | with unique ids, delete removes just the bill at that position |
| `AppState.RemoveAbsentId` | App.tsx:131 | deleting an id no bill has changes nothing |
| `AppState.DeleteTakesOffItsAmount` | App.tsx:131 | with unique ids, delete takes exactly the bill's amount off the projected total |
| `AppState.ReplaceByIdAt` | App.tsx:156 | an edit keeps the length and every id; bills with the id become the submitted data under that id; others unchanged |
| `AppState.WithCategorySpec` | App.tsx:179-187 | after an add the name is present, existing names stay in front, a second add is a no-op, and distinct names stay distinct |
| `AppState.App.constructor` | App.tsx:16-29 | initial screen state: no bills, the default categories, no edit target, form closed, `checking`, loading |
| `AppState.App.FetchUserData` | App.tsx:51-82 | a bills error stops everything and marks offline; returned bills replace the list; custom names follow the defaults; `loading` ends false; the default categories stay in front |
| `AppState.App.MarkAsPaid` | App.tsx:106-123 | on success the list is patched by id; on error it is untouched |
| `AppState.App.DeleteBoleto` | App.tsx:125-136 | only a confirmed, successful delete changes the list, by removing the id |
| `AppState.App.HandleSaveBoleto` | App.tsx:138-176 | editing replaces by the edit target's id; creating appends the returned row; the edit target is cleared either way |
| `AppState.App.AddCategory` | App.tsx:178-191 | a name already listed changes nothing; otherwise success appends it; the default categories stay in front |
| `AppState.App.StartEdit` | App.tsx:407 | the card's edit action sets the edit target and opens the form |
| `AppState.App.OpenNew` | App.tsx:262 | the new-entry button opens the form |
| `AppState.App.OpenBoletoForm` | App.tsx:222-229 | the form shown by the app is filled from the app's edit target and categories |
| `AppState.App.SubmitBoletoForm` | App.tsx:225-226 | a submit of that form with the app's categories yields the record of `Submit` (then close), or nothing; the category fallback is always defined because the app's categories start with the defaults |
| `AppState.App.CloseBoletoModal` | App.tsx:224 | closing the form also clears the edit target |
| `BoletoCard.Actions` | components/BoletoCard.tsx:84-115 | QUITAR is offered exactly for unpaid bills; edit and delete always, last |
| `BoletoCard.OverdueIsNeverPaid` | components/BoletoCard.tsx:13-14 | an overdue bill is pending |
| `BoletoCard.OverdueAsStringComparison` | components/BoletoCard.tsx:14 | for a well-formed due date: overdue iff pending and due before "2026-01-15" as strings |
| `BoletoCard.BadgeFollowsSubmittedSubcategory` | components/BoletoCard.tsx:47 | the subcategory badge (`ShowsSubcategoryBadge`) shows for a submitted record exactly when its subcategory is not "Nenhuma" (the empty value) |
| `BoletoCard.EditKeepsBadge` | components/BoletoCard.tsx:47 | saving an edit form untouched leaves the badge shown or hidden as before, although an absent subcategory comes back empty |
| `BoletoCard.MarkedPaidHidesQuitar` | components/BoletoCard.tsx:84 | after mark-paid a bill shows no QUITAR button and is not overdue |
| `BoletoModal.SubcategoryChoices` | components/BoletoModal.tsx:139-140 | the selectable values are "Nenhuma" (the empty value) and exactly the subcategory options |
| `BoletoModal.Submit` | components/BoletoModal.tsx:63-76 | a record exactly when the required fields pass; status `PAGO` iff a payment date is given; no payment date iff the field is empty; fallback to the first category; the amount is what the field parses to |
| `BoletoModal.SubmittedRecordIsConsistent` | components/BoletoModal.tsx:71-72 | a submitted record satisfies "paid iff a payment date is set" |
| `BoletoModal.BlankFormIsNotSubmittable` | components/BoletoModal.tsx:47-57 | a new form starts on the first category and cannot submit untouched |
| `BoletoModal.EditFormRoundTrip` | components/BoletoModal.tsx:37-46 | submitting an unchanged edit form returns the bill's fields and amount; status follows the payment date; with a consistent bill, the stored entry equals the original up to owner, creation time and the "" subcategory |
| `BoletoModal.BoletoForm.constructor` | components/BoletoModal.tsx:26-34 | all fields start empty |
| `BoletoModal.BoletoForm.Reset` | components/BoletoModal.tsx:36-59 | the form becomes the edit copy of the bill or the blank form |
| `BoletoModal.BoletoForm.ChangeCategory` | components/BoletoModal.tsx:118 | a new category clears the subcategory, which is then a valid choice |
| `BoletoModal.BoletoForm.ChangeField` | components/BoletoModal.tsx:99 | typing replaces that field only |
| `BoletoModal.BoletoForm.HandleSubmit` | components/BoletoModal.tsx:63-76 | a passing form calls `onSave` once with the record and then `onClose`; a blocked one calls nothing |
| `CategoryModal.ValidatedName` | components/CategoryModal.tsx:23-24 | a name exactly when the field is not all white space; the name is non-empty, has no white space at either end, and is the field with only white space cut off |
| `CategoryModal.ValidatedNameIsStable` | components/CategoryModal.tsx:24 | validating a saved name again gives the same name |
| `CategoryModal.CategoryForm.constructor` | components/CategoryModal.tsx:13 | the field starts as the initial name |
| `CategoryModal.CategoryForm.Reset` | components/CategoryModal.tsx:15-17 | the field is reset to the initial name |
| `CategoryModal.CategoryForm.Type` | components/CategoryModal.tsx:50 | typing sets the field to the input's text |
| `CategoryModal.CategoryForm.HandleSubmit` | components/CategoryModal.tsx:21-28 | a blank field does nothing; otherwise the trimmed name is saved, the field cleared, the form closed |

## Left out

- Remote store (Supabase) calls: each becomes its outcome as inputs (`success`, the returned rows). The query filters by owner, the ordering by due date and the column sets of the writes are not modelled.
- The edit's store payload omits `subcategoria`, while the local patch (App.tsx:156) keeps it. Only the local patch is modelled.
- A cleared payment date is not cleared in the store. The edit form sends `data_pagamento` as `undefined` (BoletoModal.tsx:71), the update request drops that field (App.tsx:147), and the row keeps its old payment date while its status becomes `PENDENTE` (App.tsx:148). A reload then brings back a row that breaks the paid rule. Only the local patch, which sets the field to `undefined`, is modelled.
- Each async handler is modelled as one atomic step taken after the store answers. Interleaved pending calls are not modelled, nor is `addCategory`'s stale closure: it checks the list of the render it was created in (App.tsx:179) but appends to the latest list (App.tsx:187).
- Authentication and the session effect (App.tsx:32-49) are not modelled, including clearing the list on sign-out.
- The AI-command service is not part of this model.
- Status messages and their `setTimeout` clearing are left out: they are display only.
- Rendering is left out: currency formatting with `Intl`, date display, the report panel, the sync and clear buttons.
- Floating point: amounts are exact cents. Amounts with more than two decimals are not representable in int cents, although the browser may accept such text (the input has no `min`, so its step is counted from its value) and `parseFloat` would store it; `Money.ParseCents` returns `None` for them, so the model treats such a form as not submittable (`BoletoModal.CanSubmit`).
- `Money.ParseCents`: exponent forms ("1e2") and a leading "+" are treated as rejected.
- `Text.Lower`: handles ASCII and the Latin-1 capitals only. Other Unicode case mappings are not modelled.
- `Dates.ParseDate`: accepts `YYYY-MM-DD` with month 01-12 and day 01-31 only. Other formats JavaScript's `Date` accepts, and its rolling over of impossible days such as "2026-02-31", are not modelled.
- `Report.CategoryView`: a JavaScript object lists integer-like keys ("2024") before the others, and a key such as "constructor" would read the prototype. The model keeps plain insertion order for every key.
- `BoletoModal.Submit`: requires a first category when the category field is empty. The code then passes `undefined`, which the model cannot express. The app's category list is never empty, so the requirement always holds where the app submits the form (`AppState.App.SubmitBoletoForm`).
- App.tsx passes no `subcategories`, `onOpenSubCategoryModal` or `title` to the modals (App.tsx:222-235). The forms are modelled with those props supplied; the subcategory map is a parameter.
- The app does not check whether the store has a `subcategoria` column. Creating a bill sends the field (App.tsx:160) and editing does not (App.tsx:142-150). What happens against a store without that column is not modelled.
- `AppState.App.FetchUserData`: the `checking` value is overwritten before the method ends, so only the final status is stated.
- Unique ids are assumed only where stated (`AppState.RemoveUniqueId`, `AppState.DeleteTakesOffItsAmount`). Rows loaded from the store are taken as given.
