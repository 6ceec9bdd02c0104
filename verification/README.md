# StockWise record store and rules, in Dafny

StockWise is a farm-management web app. It keeps two collections in the
browser, livestock records and pens, and offers:

- an in-memory store that appends records, pens, activity logs and
  important dates, replaces records by id, and looks records and pens up
  by id;
- a livestock form whose schema has two variants, discriminated by
  livestock type:
  - individual animals ("Mega Stock", "Mid Stock");
  - batches ("Mini Stock", "Micro Stock");
- a pen-eligibility rule that decides which pens the form offers for the
  selected type;
- the derived views of the dashboard, the pens page, the livestock table
  and the settings panel;
- the sidebar's active-link test;
- the small forms for activity logs and pens.

This project models that core and proves its properties. It has one Dafny
module per source file:

| Dafny file | module | models |
|---|---|---|
| `collections.dfy` | `Collections` | `Option`, first-match `Find`, order-preserving `Filter`, `Reverse` and the subsequence relation (the array methods the code relies on) |
| `types.dfy` | `Types` | the record types of `src/lib/types.ts` |
| `data_store.dfy` | `DataStore` | the store of `src/contexts/DataContext.tsx`, as a class with two `seq` fields |
| `livestock_form.dfy` | `LivestockForm` | the schema, the eligible pens and the field-clearing effect of `LivestockForm.tsx` |
| `add_livestock_page.dfy` | `AddLivestockPage` | the form-to-record mapping of the add page |
| `pens_page.dfy` | `PensPage` | the per-pen counts |
| `dashboard.dfy` | `Dashboard` | totals, per-pen counts, the next five dates, the four newest records and the pen label |
| `livestock_table.dfy` | `LivestockTable` | the pen-name cell and the rows |
| `navigation.dfy` | `Navigation` | the sidebar items and their active test |
| `add_activity_log_form.dfy` | `AddActivityLogForm` | the activity-log form |
| `add_bulk_activity_log_form.dfy` | `AddBulkActivityLogForm` | the pen-wide activity-log form |
| `pen_management.dfy` | `PenManagement` | the pen form and the pen table of the settings panel |

Modelling choices:

- A record is one datatype with optional fields, matching the runtime shape
  of a stored object. The two variants of the TypeScript union are the
  predicates `IsIndividual` and `IsBatch`.
- Timestamps are integers. The current time and today's date are
  parameters.
- The store's methods take the fresh id as a parameter. In the source it
  comes from the clock, so ids are not assumed unique. `AddThenLookUp`
  states the lookup property under the explicit assumption that the id is
  new.
- The eligibility rule calls `getLivestockInPen`, which the store does not
  define. It is modelled as the livestock whose pen reference is the pen's
  id, the same filter the dashboard uses (`DataStore.LivestockInPen`). This
  is an assumption of the model.
- The add page's mapping is modelled as written:
  - the birth date is converted unconditionally, so a batch without one
    makes the handler throw before anything is stored;
  - the quantity is never copied, so a batch's record is stored without
    it.

  `AddLivestockPage.BatchFormLosesQuantity` states both.
- A form handler runs only when its schema accepts the values. The
  activity-log and pen handlers take the raw values and do nothing on
  invalid input. The add page's handler is called only with validated data,
  so it requires the schema.

## Model

| member | source | states |
|---|---|---|
| Types.TypeName | src/lib/types.ts:16 | the label of each category: "Mega Stock", "Mid Stock", "Mini Stock", "Micro Stock" |
| Types.IsIndividualType | src/lib/types.ts:32 | Mega and Mid Stock are the individual categories; Mini and Micro Stock are not |
| Types.IsIndividual | src/lib/types.ts:31-38 | the individual variant: a Mega/Mid type, a birth date and a gender present, no quantity |
| Types.IsBatch | src/lib/types.ts:40-47 | the batch variant: a Mini/Micro type, a quantity present, no gender; the birth date is optional |
| Types.WellFormed | src/lib/types.ts:49 | a valid record belongs to the union: it is an individual or a batch |
| Types.IsFlexible | src/lib/types.ts:55 | a pen whose allowed type is null or absent is unrestricted |
| Types.LivestockTypesListed | src/lib/types.ts:16-18 | exactly four livestock types, in the order Mega, Mid, Mini, Micro Stock, with distinct display names |
| Types.ActivityTypesListed | src/lib/types.ts:2-7 | an activity log's type is one of exactly five values: Feeding, Medication, Vaccination, Observation, Other |
| Types.TagDeterminesVariant | src/lib/types.ts:31-49 | in a well-formed record the type tag decides the variant: Mega/Mid records are individuals, with a gender and a birth date and no quantity; Mini/Micro records are batches, with a quantity and no gender |
| DataStore.Store.AddLivestock | src/contexts/DataContext.tsx:95-97 | appends exactly one record at the end, carrying the given fields, the fresh id and empty logs and dates; earlier records and the pens are unchanged |
| DataStore.Store.UpdateLivestock | src/contexts/DataContext.tsx:99-101 | length and order are kept; every record with the same id is replaced and the others are untouched; with no match the collection is unchanged; pens are unchanged |
| DataStore.MapMatchingNoMatch | src/contexts/DataContext.tsx:99-101 | mapping only the records with an id that none carries returns the collection unchanged |
| DataStore.Store.GetLivestockById | src/contexts/DataContext.tsx:103 | nothing exactly when no record has the id; otherwise the first record with that id |
| DataStore.Store.AddPen | src/contexts/DataContext.tsx:105-107 | appends one pen at the end with the given fields and the fresh id; earlier pens and the livestock are unchanged |
| DataStore.Store.GetPens | src/contexts/DataContext.tsx:109 | returns the pen collection itself |
| DataStore.Store.GetPenById | src/contexts/DataContext.tsx:110 | nothing exactly when no pen has the id; otherwise the first pen with that id |
| DataStore.Store.AddActivityLog | src/contexts/DataContext.tsx:112-122 | the log, with the fresh id, is appended at the end of each matching record's logs, with no re-sorting; no other field and no other record changes; an unknown id changes nothing; pens are unchanged |
| DataStore.Store.AddImportantDate | src/contexts/DataContext.tsx:124-134 | the same for important dates: appended at the end of the matching records' dates, nothing else changes, an unknown id is a no-op, pens are unchanged |
| DataStore.AddThenLookUp | src/contexts/DataContext.tsx:95-103 | after adding a record under an id no record had, looking that id up finds exactly the stored record |
| DataStore.LivestockInPen | src/components/livestock/LivestockForm.tsx:129 | the animals in a pen are exactly those whose pen reference is the pen's id, in collection order (a subsequence of the collection) |
| DataStore.CountInPen | src/app/pens/page.tsx:16 | a pen's count is at most the number of records, and it is zero exactly when no record refers to the pen |
| DataStore.CountInPenAppend | src/app/pens/page.tsx:16 | appending a record raises a pen's count by one if the record refers to that pen, and by nothing otherwise |
| LivestockForm.ValidBase | src/components/livestock/LivestockForm.tsx:23-45 | the fields both variants share: every activity-log row has a date, a type and a non-empty description, and every important-date row has a date and a non-empty event name; pen, health notes, image and hint are optional |
| LivestockForm.IndividualSchema | src/components/livestock/LivestockForm.tsx:47-54 | a Mega/Mid form needs a non-empty id and breed, a birth date and a gender, and no quantity |
| LivestockForm.BatchSchema | src/components/livestock/LivestockForm.tsx:56-63 | a Mini/Micro form needs a non-empty id and breed and a quantity of at least 1, and has no gender; the birth date is optional |
| LivestockForm.ValidLivestockForm | src/components/livestock/LivestockForm.tsx:65-68 | the discriminated union: no type is invalid; a Mega/Mid type selects the individual schema and a Mini/Micro type the batch schema |
| LivestockForm.ValidFormShape | src/components/livestock/LivestockForm.tsx:47-68 | valid form data has a type; it has a gender exactly when it has no quantity, and exactly when the type is Mega/Mid; individual data has a birth date; a quantity is at least 1 |
| LivestockForm.AvailablePens | src/components/livestock/LivestockForm.tsx:119-136 | with no type selected, all pens; otherwise an order-preserving sub-list of all pens holding exactly the eligible ones, each eligible pen as many times as it occurs in the list (repeated pens are kept, as `filter` keeps them) |
| Collections.FilterMultiplicity | src/components/livestock/LivestockForm.tsx:122 | filtering keeps every copy: an element that passes occurs in the result as often as in the input, and one that fails not at all |
| LivestockForm.IsEligible | src/components/livestock/LivestockForm.tsx:122-134 | the filter callback: a pen restricted to another type is refused; an unrestricted pen is refused when it holds some animal of another type; any other pen is offered |
| LivestockForm.EligibleRule | src/components/livestock/LivestockForm.tsx:122-134 | a pen is eligible for a type if and only if it is restricted to that type, or it is unrestricted and every animal assigned to it has that type; so a pen restricted to another type, or an unrestricted pen holding an animal of another type, is refused, and an empty unrestricted pen is offered |
| LivestockForm.AvailablePensRule | src/components/livestock/LivestockForm.tsx:119-136 | a pen of the list is offered for a selected type if and only if the closed-form rule above holds for it |
| LivestockForm.ClearConditionalFields | src/components/livestock/LivestockForm.tsx:139-147 | after a type change, an individual type has no quantity, and a batch type has no birth date and no gender; the type is kept |
| LivestockForm.ClearedFormValidity | src/components/livestock/LivestockForm.tsx:139-147 | after the effect, validity depends only on the fields of the selected variant: whatever quantity an individual form held, or whatever gender and birth date a batch form held |
| LivestockForm.LivestockFormState.constructor | src/components/livestock/LivestockForm.tsx:139-147 | after mounting, the form holds its initial values with the effect's first run applied: the fields that do not belong to the initial type are cleared |
| LivestockForm.LivestockFormState.SelectLivestockType | src/components/livestock/LivestockForm.tsx:139-147 | selecting a different type sets it and clears the other variant's fields in place, changing nothing else; re-selecting the current type leaves the effect idle and every field as it was |
| AddLivestockPage.RecordFromForm | src/app/livestock/add/page.tsx:16-28 | id, breed, gender, type, pen, image and hint are copied verbatim; health notes default to the empty string; no quantity; the result is absent exactly when the birth date is (the conversion throws) |
| AddLivestockPage.IndividualFormYieldsIndividualRecord | src/app/livestock/add/page.tsx:16-28 | valid Mega/Mid form data always yields a well-formed individual record |
| AddLivestockPage.BatchFormLosesQuantity | src/app/livestock/add/page.tsx:16-28 | valid Mini/Micro form data throws exactly when it has no birth date; otherwise it yields a record that fits neither variant, because the quantity is dropped |
| AddLivestockPage.HandleSubmit | src/app/livestock/add/page.tsx:15-30 | a submit adds exactly one record, built from the form, exactly when the birth date is present; otherwise the store is unchanged; pens are unchanged |
| PensPage.PensWithLivestockCount | src/app/pens/page.tsx:14-17 | one entry per pen, in pen order, each keeping the whole pen; each count is the number of animals referring to that pen and at most the total |
| PensPage.UnassignedAnimalCountedNowhere | src/app/pens/page.tsx:16 | an animal whose pen reference matches no pen, including one without a reference, changes no count |
| PensPage.AssignedAnimalCountedInItsPen | src/app/pens/page.tsx:16 | adding an animal raises exactly the entry of the pen it refers to by one |
| PensPage.NoAnimalsNoCounts | src/app/pens/page.tsx:14-17 | with no animals every count is zero |
| PensPage.SumAfterAppend | src/app/pens/page.tsx:14-17 | with distinct pen ids, adding an animal raises the sum of the counts by one if its reference names a pen, and by nothing otherwise |
| PensPage.CountsNeverExceedTotal | src/app/pens/page.tsx:14-17 | with distinct pen ids no animal is counted twice: the counts add up to at most the number of animals |
| Dashboard.TotalLivestock | src/app/page.tsx:21 | the total is the number of livestock records |
| Dashboard.LivestockByPen | src/app/page.tsx:21-26 | one entry per pen, in pen order, keeping the pen, with the number of animals referring to it; no count exceeds the total livestock |
| Dashboard.DatesOfAnimal | src/app/page.tsx:29-31 | each of an animal's important dates, in order, carrying the animal's id and the name breed + " " + id |
| Dashboard.AllDates | src/app/page.tsx:28-31 | every entry is an important date of some animal, tagged with that animal's id and name, and every important date of every animal appears (order and multiplicity are fixed by the three lemmas below) |
| Dashboard.AllDatesOfOne | src/app/page.tsx:28-31 | a single animal contributes exactly its own tagged dates, in its order |
| Dashboard.AllDatesAppend | src/app/page.tsx:28-31 | the flattening is a concatenation: the dates of one collection followed by the dates of the next, in order, nothing repeated or lost |
| Dashboard.AllDatesLength | src/app/page.tsx:28-31 | the flattening has exactly one entry per important date of every animal |
| Dashboard.DatesFrom | src/app/page.tsx:32 | the tagged dates whose timestamp is at or after now, in flattening order |
| Dashboard.InsertByDate | src/app/page.tsx:33 | inserting into a date-sorted list keeps it sorted and adds exactly that entry |
| Dashboard.SortByDate | src/app/page.tsx:33 | the result is sorted ascending by date and is a permutation of the input |
| Dashboard.SortedPrefixIsEarliest | src/app/page.tsx:33-34 | the first k entries of a sorted permutation are entries of the original, sorted, and no later than any entry left out |
| Dashboard.DatesFromFacts | src/app/page.tsx:32 | every entry kept by the date filter is at or after now and belongs to an animal of the collection |
| Dashboard.UpcomingImportantDates | src/app/page.tsx:28-34 | at most five entries (fewer only when fewer qualify), all at or after now, sorted ascending, drawn from the qualifying dates, each with its owner's id and name, and none later than a qualifying date left out |
| Dashboard.RecentAdditions | src/app/page.tsx:145 | the last (up to) four records, newest first |
| Dashboard.PenLabel | src/app/page.tsx:162 | looks up the animal's pen id, or the empty id when it has none; gives the name of the first pen with that id, or "Unassigned" when no pen has it or its name is empty; never empty (an absent reference shows a pen whose id is empty, if one exists) |
| LivestockTable.GetPenName | src/components/livestock/LivestockTable.tsx:18-22 | "N/A" for an absent or empty pen reference; the name of the first pen with that id; "Unknown Pen" when none matches |
| LivestockTable.AnimalRows | src/components/livestock/LivestockTable.tsx:38-58 | one row per animal, in input order, with its id, type, breed, birth date and pen name |
| LivestockTable.Rows | src/components/livestock/LivestockTable.tsx:38-86 | an empty list gives the single "No livestock found." row; otherwise exactly the animal rows, one per record in order, keyed by its id, with its id, type, breed, birth date and pen-name cells |
| Navigation.NavItems | src/components/layout/AppLayout.tsx:22-28 | the five sidebar items with their hrefs and titles: Dashboard, Livestock, Pens, AI Insights, Settings |
| Navigation.IsActive | src/components/layout/AppLayout.tsx:39 | an item is active when the path equals its href, or, for any href other than "/", when the path starts with it |
| Navigation.NavItemsListed | src/components/layout/AppLayout.tsx:22-28 | five items with distinct hrefs, in the order /, /livestock, /pens, /ai-insights, /settings |
| Navigation.RootActiveOnlyAtRoot | src/components/layout/AppLayout.tsx:39 | the "/" item is active on exactly the path "/" |
| Navigation.NonRootActiveOnPrefix | src/components/layout/AppLayout.tsx:39 | any other item is active if and only if the path starts with its href |
| Navigation.PrefixExamples | src/components/layout/AppLayout.tsx:39 | "/livestock/x" activates "/livestock"; with no separator check, "/pensX" activates "/pens"; "/" is not active on "/livestock" |
| Navigation.AtMostOneActive | src/components/layout/AppLayout.tsx:22-39 | with these hrefs, no path activates two items |
| AddActivityLogForm.ValidActivityLogForm | src/components/livestock/AddActivityLogForm.tsx:21-25 | the activity-log schema, shared by the pen-wide form (src/components/pens/AddBulkActivityLogForm.tsx:18-22): a date, a type, and a description of 1 to 200 characters |
| AddActivityLogForm.DefaultLogForm | src/components/livestock/AddActivityLogForm.tsx:41-45 | the form starts with today's date, no type and an empty description |
| AddActivityLogForm.UntouchedFormInvalid | src/components/livestock/AddActivityLogForm.tsx:21-45 | the untouched form fails the schema (date required, type one of five, description 1 to 200 characters) |
| AddActivityLogForm.LogFromForm | src/components/livestock/AddActivityLogForm.tsx:49-53 | the log copies the type, the description and the date, and has no id of its own |
| AddActivityLogForm.HandleSubmit | src/components/livestock/AddActivityLogForm.tsx:48-60 | a submit stores a log exactly when the schema accepts the values; the log goes at the end of the matching animal's logs, nothing else changes, and otherwise the store is unchanged |
| AddBulkActivityLogForm.FormSubmit | src/components/pens/AddBulkActivityLogForm.tsx:42-44 | the values are forwarded, unchanged, exactly when they pass the schema |
| AddBulkActivityLogForm.SubmitGuards | src/components/pens/AddBulkActivityLogForm.tsx:18-39 | the untouched form (today, no type, empty description) forwards nothing; forwarded values have a date, a type and a description of 1 to 200 characters |
| PenManagement.ValidPenForm | src/components/settings/PenManagement.tsx:18-21 | the pen schema: a non-empty name; the description is optional |
| PenManagement.DefaultPenForm | src/components/settings/PenManagement.tsx:32-35 | the form's initial and reset values: an empty name and an empty description |
| PenManagement.DefaultPenFormInvalid | src/components/settings/PenManagement.tsx:18-35 | the initial or reset form, with its empty name, fails the schema |
| PenManagement.PenFromForm | src/components/settings/PenManagement.tsx:38-39 | the pen handed to the store has the form's name and description and no type restriction |
| PenManagement.DescriptionCell | src/components/settings/PenManagement.tsx:115 | an absent or empty description is shown as "N/A", any other as itself; the cell is never empty |
| PenManagement.CountCell | src/components/settings/PenManagement.tsx:118 | the count is at most the number of records, and is zero exactly when no animal refers to the pen |
| PenManagement.PenManagement.constructor | src/components/settings/PenManagement.tsx:28-36 | the form starts hidden, with an empty name and an empty description |
| PenManagement.PenManagement.OpenForm | src/components/settings/PenManagement.tsx:57 | "Add New Pen" shows the form and keeps its values |
| PenManagement.PenManagement.Cancel | src/components/settings/PenManagement.tsx:90 | "Cancel" hides the form and resets its values |
| PenManagement.PenManagement.HandleSubmit | src/components/settings/PenManagement.tsx:38-46 | a form with a non-empty name adds exactly one pen with its values, then the form is reset and hidden; otherwise nothing changes; the livestock never changes |

## Left out

- Saving to and loading from the browser's local storage, and the JSON round trip (`src/contexts/DataContext.tsx:68-93`), are browser I/O. Only the in-memory collections are modelled.
- The built-in seed records and pens are not modelled. Their dates depend on the local time zone, and the seed records carry no livestock type, so they fit neither variant. This is why a record's type is optional in the model.
- Ids made from `Date.now()` are method parameters. Two calls in the same millisecond would reuse an id, so ids are not assumed unique.
- ISO 8601 date strings and `new Date()` comparisons are integer timestamps, with "now" and "today" as parameters. The calendar widget's date range is a UI concern and is left out.
- Dashboard.SortByDate: a stable insertion sort stands for the engine's `Array.prototype.sort`. Only sortedness and permutation are stated, not stability.
- The AI care-strategy feature is an asynchronous call to an external model. The mobile-breakpoint hook reacts to DOM events. Both are left out.
- Rendering, routing, toasts and the form library's machinery are left out, as are the callbacks `onLogAdded`, `onCancel` and `router.push`. A handler's effect is its store change plus a returned flag.
- The URL-format check on `imageUrl` relies on the schema library's URL parser, which is not part of this model.
- String lengths in the schemas are counted in characters, not UTF-16 code units. Quantities are unbounded integers, not JavaScript numbers.
- The activity-log and important-date rows inside the livestock form are validated but never stored: the add page does not copy them. Their optional `id` field is not modelled.
- `getLivestockInPen` is not defined by the store. It is modelled by assumption as the pen-reference filter (see above). At run time the missing function, and the add page passing its pens as `pens` where the form reads `allPens` (`src/app/livestock/add/page.tsx:57`), make the eligibility filter fail. The model follows the intended rule and does not represent those failures.
- The code has no pen-type inference when an animal is added, no per-pen fan-out of a bulk log, no re-sorting of logs by the store's operations, and no `updatePen`.
- The pen-wide activity-log form's `onSubmit` has no caller in the modelled source files, so nothing is known about what happens to a forwarded bulk log.
- The livestock detail page sorts a record's activity logs (newest first) and important dates (oldest first) with the in-place `Array.prototype.sort` while rendering (`src/app/livestock/[id]/page.tsx:102`, `src/app/livestock/[id]/page.tsx:128`). The record comes from the store's lookup, so this reorders the arrays held by the store: a later append goes after the re-sorted entries, and the dashboard's flattening then lists the dates in the new order. The model's sequences are values with no aliasing, so it does not capture this reordering; in the model the lists keep insertion order.
