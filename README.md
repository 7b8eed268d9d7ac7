# Dental-practice admin console and landing page: the modelled rules

This project is a Dafny model of the logic in a super-admin console and a marketing landing page
for a multi-tenant dental-practice product. The console manages hospitals, clinics,
subscription templates, subscriptions and admin users. Each of its panels keeps a few pieces
of React state: a form, the row being edited and a modal flag. Its handlers turn that state
into insert, update or delete requests against a hosted table store.

The model has these parts:

- **Templates**: the feature-list editor (add, update and remove at an index, never empty), the
  removal of blank features on submit, and the insert-versus-update choice.
- **Subscriptions**: the payload built from the form and the first template whose plan key
  matches ("Template not found" otherwise), the `end_date` '' to null rule, the form defaults,
  edit loading, the search filter and the price column.
- **Hospitals**: the expand/collapse toggle, the per-hospital clinic map built by the fetch
  loop, the clinic count, the two modal forms with null-to-'' defaults, and the clinic writes.
  An added clinic gets `hospital_id`. An edited clinic is sent without it.
- **Clinics**: the case-insensitive search, the edit form with its defaults, the insert/update
  choice and the reset on success or Cancel.
- **AdminUsers**: flattening of the joined hospital name, the insert payload with
  `role: 'admin'` and the four-column update patch, edit loading and the "Not assigned" label.
- **Contact**: the contact form's six field checks, each with its own message.
- **Testimonials**: the carousel index (next, previous, dot selection) modulo the five entries.
- **Faq**: the accordion with at most one open question.

## How the model is organised

There is one module per source file, plus four helper modules:

- `Wrappers` holds Option and Result.
- `Text` models the JavaScript string operations used: `toLowerCase`, `includes`, `trim`,
  `.length` in UTF-16 units, and `x || default`.
- `Seqs` holds `filter` and its positional form, with their lemmas.
- `Store` holds the write requests and the delete that only happens after confirmation.

Pure expressions of the source are functions with lemmas. The React state of each panel is a
class. Its handler methods say, in their `ensures`, what the new state is in terms of those
functions. A handler that writes returns the request it would send. The store's answer is a
boolean `storeFailed`, and `confirm()` is a boolean `confirmed`. The per-hospital clinic
query is a function parameter. Today's date is a parameter `today`.

Three behaviours of the component code are easy to miss, and the model follows the code in each:

- Submitting an edited subscription copies the CURRENT prices of the matching template again
  (see `Subscriptions.EditSubmitRoundTrip`). So the price snapshot is only kept while the
  subscription is not re-saved.
- Closing a hospital or clinic modal after a submit leaves that modal's form as it was. Only the
  modal record is reset.
- Loading the templates always preselects the first plan when the list is non-empty. The
  "no plan chosen yet" test reads the form captured when the panel mounted, whose plan is
  always ''. So templates that arrive after an edit has been opened replace that row's plan
  (see `Subscriptions.SubscriptionsPanel.TemplatesLoaded`).

## Model

| member | source | states |
|---|---|---|
| Store.DeleteIfConfirmed | SuperAdmin-Sales/src/components/HospitalsTab.tsx:145-156 | a delete is issued exactly when the confirmation was accepted, keyed by the row's id (the same rule is used for every panel's delete) |
| Text.ToLower | SuperAdmin-Sales/src/components/SubscriptionsTab.tsx:204-206 | lower-casing keeps the length, turns each ASCII capital into its small letter and changes no other character |
| Text.IncludesIffOccurs | SuperAdmin-Sales/src/components/ClinicsTab.tsx:176-177 | `Text.Includes`, the left-to-right `includes` scan, is true exactly when the needle occurs at some position |
| Text.ToLowerIgnoresCase | SuperAdmin-Sales/src/components/ClinicsTab.tsx:176-177 | two strings that differ only in the ASCII case of letters lower-case to the same string |
| Text.MatchesTermIgnoresCase | SuperAdmin-Sales/src/components/ClinicsTab.tsx:176-177 | `Text.MatchesTerm` (lower-cased field includes lower-cased term) does not change when the case of letters in the field or the term changes |
| Text.EmptyTermMatches | SuperAdmin-Sales/src/components/ClinicsTab.tsx:175-178 | the empty search term matches every field |
| Text.TrimEmptyIffBlank | SuperAdmin-Sales/src/components/TemplatesTab.tsx:58 | `Text.Trim` (`trim()`) gives '' exactly for strings made only of whitespace |
| Text.Utf16Length | SuperAdmin-Sales/src/components/sections/Contact.tsx:10-15 | the JavaScript length lies between the number of characters and twice that |
| Seqs.FilterMembership | SuperAdmin-Sales/src/components/ClinicsTab.tsx:175-178 | `Seqs.Filter` (`Array.prototype.filter`) keeps an element iff it is in the input and passes the predicate |
| Seqs.FilterAppend | SuperAdmin-Sales/src/components/ClinicsTab.tsx:175-178 | filtering distributes over concatenation, so the kept elements stay in their order |
| Seqs.FilterIdempotent | SuperAdmin-Sales/src/components/ClinicsTab.tsx:175-178 | filtering a filtered list again with the same predicate changes nothing |
| Seqs.DropIndexSplice | SuperAdmin-Sales/src/components/TemplatesTab.tsx:145 | `Seqs.DropIndex` (`filter((_, i) => i !== index)`) is the list without position i, or the list itself when i is out of range |
| Templates.SanitizeKeepsExactlyNonBlank | SuperAdmin-Sales/src/components/TemplatesTab.tsx:58 | `Templates.Sanitize` (`filter(f => f.trim() !== '')`): a feature is submitted iff it is a form entry that is not all whitespace |
| Templates.SanitizeEntryWise | SuperAdmin-Sales/src/components/TemplatesTab.tsx:58 | sanitising keeps the order (it distributes over concatenation) and keeps each non-blank entry verbatim, untrimmed |
| Templates.SanitizeShrinksAndIsIdempotent | SuperAdmin-Sales/src/components/TemplatesTab.tsx:58 | sanitising never lengthens the list and a second pass changes nothing |
| Templates.SanitizeKeepsCleanList | SuperAdmin-Sales/src/components/TemplatesTab.tsx:58 | a list without blank entries is submitted unchanged |
| Templates.FeaturesWithout | SuperAdmin-Sales/src/components/TemplatesTab.tsx:144-150 | the list after a removal is never empty |
| Templates.FeaturesWithoutSpec | SuperAdmin-Sales/src/components/TemplatesTab.tsx:144-150 | `Templates.FeaturesWithout`, built on `Seqs.DropIndex`: removal deletes exactly position i and keeps the others in order; removing the only entry gives ['']; an index outside the list changes nothing |
| Templates.FormOf | SuperAdmin-Sales/src/components/TemplatesTab.tsx:98-107 | the edit form copies name, plan key, both prices and active flag verbatim, keeps a non-empty feature list as it is and turns an empty one into [''], so it always has a feature line |
| Templates.SubmitWrite | SuperAdmin-Sales/src/components/TemplatesTab.tsx:56-74 | submit is an update keyed by the edited template's id when editing, an insert otherwise, never a delete |
| Templates.SubmitPayloadSpec | SuperAdmin-Sales/src/components/TemplatesTab.tsx:56-59 | the payload has every non-feature field of the form unchanged, and as features exactly the non-blank entries in order |
| Templates.EditSubmitRoundTrip | SuperAdmin-Sales/src/components/TemplatesTab.tsx:98-107 | editing a template and submitting it untouched writes the row back unchanged under its id, also when it had no features |
| Templates.TemplatesPanel.constructor | SuperAdmin-Sales/src/components/TemplatesTab.tsx:22-29 | the panel starts with `Templates.BlankForm`, a blank active form with one empty feature line, no edited row, modal closed |
| Templates.TemplatesPanel.AddFeature | SuperAdmin-Sales/src/components/TemplatesTab.tsx:128-133 | appends exactly one '' and changes nothing else |
| Templates.TemplatesPanel.UpdateFeature | SuperAdmin-Sales/src/components/TemplatesTab.tsx:135-142 | sets entry i on a copy; length and every other entry and field unchanged |
| Templates.TemplatesPanel.RemoveFeature | SuperAdmin-Sales/src/components/TemplatesTab.tsx:144-150 | replaces the features by `FeaturesWithout` and keeps the list non-empty |
| Templates.TemplatesPanel.ResetForm | SuperAdmin-Sales/src/components/TemplatesTab.tsx:87-96 | the form becomes the blank form with features [''] |
| Templates.TemplatesPanel.Cancel | SuperAdmin-Sales/src/components/TemplatesTab.tsx:329-333 | Cancel closes the modal, forgets the row and restores the blank form, keeping the feature list non-empty |
| Templates.TemplatesPanel.HandleEdit | SuperAdmin-Sales/src/components/TemplatesTab.tsx:98-109 | remembers the row, loads it into the form, opens the modal |
| Templates.TemplatesPanel.HandleSubmit | SuperAdmin-Sales/src/components/TemplatesTab.tsx:51-85 | sends `SubmitWrite` of the form; only a store success closes, forgets the row and resets; the feature list stays non-empty |
| Subscriptions.FirstWithPlanKey | SuperAdmin-Sales/src/components/SubscriptionsTab.tsx:122 | the position returned is that of the first template with the key, or the length when none has it |
| Subscriptions.FindTemplate | SuperAdmin-Sales/src/components/SubscriptionsTab.tsx:122 | `find` returns nothing iff no template has the key, otherwise the first template with that key |
| Subscriptions.BuildPayload | SuperAdmin-Sales/src/components/SubscriptionsTab.tsx:121-130 | payload building fails iff no template matches the plan name, and then with "Template not found" |
| Subscriptions.PayloadSpec | SuperAdmin-Sales/src/components/SubscriptionsTab.tsx:125-130 | a built payload has the first matching template's prices, every other form field unchanged, and a null end date exactly when the form's is '' |
| Subscriptions.MountFormHasNoPlan | SuperAdmin-Sales/src/components/SubscriptionsTab.tsx:48-56 | the form the mount effect captures has plan '' and otherwise equals the reset form |
| Subscriptions.DefaultFormSubmit | SuperAdmin-Sales/src/components/SubscriptionsTab.tsx:158-168 | `Subscriptions.DefaultForm`, the reset form (plan of the first template, active, monthly, no end date, auto-renew) submits with the first template's prices, or fails when no templates are loaded |
| Subscriptions.EditSubmitRoundTrip | SuperAdmin-Sales/src/components/SubscriptionsTab.tsx:170-180 | `Subscriptions.FormOf` (the edit form) then submit writes back the row's own fields, a null end date again as null, with the matching template's current prices |
| Subscriptions.FilterSubscriptionsSpec | SuperAdmin-Sales/src/components/SubscriptionsTab.tsx:203-207 | `Subscriptions.FilterSubscriptions` keeps exactly the rows satisfying `Subscriptions.MatchesSearch`, i.e. whose hospital name, hospital code or plan name contains the term ignoring case, in order; unjoined rows match on plan name only; the empty term keeps all; it is idempotent |
| Subscriptions.DisplayedPrice | SuperAdmin-Sales/src/components/SubscriptionsTab.tsx:277 | the monthly price on a 'monthly' cycle, the yearly price otherwise |
| Subscriptions.SubscriptionsPanel.constructor | SuperAdmin-Sales/src/components/SubscriptionsTab.tsx:48-56 | the panel starts with no templates, the default form and the modal closed |
| Subscriptions.SubscriptionsPanel.TemplatesLoaded | SuperAdmin-Sales/src/components/SubscriptionsTab.tsx:107-111 | loaded templates are stored; a non-empty list sets the form's plan to the first template's key whatever plan the form held (the guard reads the mount-time form), an empty list leaves the form unchanged |
| Subscriptions.SubscriptionsPanel.ResetForm | SuperAdmin-Sales/src/components/SubscriptionsTab.tsx:158-168 | the form becomes the default form for the loaded templates |
| Subscriptions.SubscriptionsPanel.HandleEdit | SuperAdmin-Sales/src/components/SubscriptionsTab.tsx:170-182 | remembers the row, loads it with null end date as '', opens the modal |
| Subscriptions.SubscriptionsPanel.Cancel | SuperAdmin-Sales/src/components/SubscriptionsTab.tsx:409-413 | closes the modal, forgets the row, resets the form |
| Subscriptions.SubscriptionsPanel.HandleSubmit | SuperAdmin-Sales/src/components/SubscriptionsTab.tsx:117-156 | a missing template aborts with "Template not found", writes nothing and changes nothing; otherwise update-by-id or insert; only a store success closes and resets |
| Hospitals.Toggle | SuperAdmin-Sales/src/components/HospitalsTab.tsx:94-102 | toggling flips the membership of that id and of no other |
| Hospitals.ToggleTwice | SuperAdmin-Sales/src/components/HospitalsTab.tsx:94-102 | toggling the same id twice restores the expanded set |
| Hospitals.BuildClinicMap | SuperAdmin-Sales/src/components/HospitalsTab.tsx:75-84 | the fetch loop builds `Hospitals.ClinicMapOf`: a map with exactly one key per fetched hospital id, each holding that hospital's clinics or [] when the query gave no data |
| Hospitals.BuildClinicMapIsClinicMapOf | SuperAdmin-Sales/src/components/HospitalsTab.tsx:75-84 | any map with those keys and values is the specified clinic map |
| Hospitals.ClinicCountAfterFetch | SuperAdmin-Sales/src/components/HospitalsTab.tsx:276 | `Hospitals.ClinicCount` (the entry's length, or 0) of the fetched map is the length of the hospital's entry, 0 without data or without an entry |
| Hospitals.HospitalFormOfSpec | SuperAdmin-Sales/src/components/HospitalsTab.tsx:105-120 | `Hospitals.HospitalFormOf`: name, code and active flag are copied verbatim, each nullable column shows as its value or '', and without a row the form is blank ('' everywhere) and active |
| Hospitals.ClinicFormOfSpec | SuperAdmin-Sales/src/components/HospitalsTab.tsx:159-173 | `Hospitals.ClinicFormOf`: the clinic form shows name, code and active flag verbatim and each nullable column as its value or ''; without a row it is blank and active |
| Hospitals.HospitalSubmitWrite | SuperAdmin-Sales/src/components/HospitalsTab.tsx:122-134 | 'add' inserts the form, 'edit' updates the modal's row, an 'edit' without a row throws, other modes write nothing |
| Hospitals.ClinicSubmitWrite | SuperAdmin-Sales/src/components/HospitalsTab.tsx:175-188 | adding inserts the form plus the modal's hospital id; editing updates by clinic id with the form alone |
| Hospitals.OpenThenSubmit | SuperAdmin-Sales/src/components/HospitalsTab.tsx:105-188 | opening a row for edit and submitting writes back its own values; a clinic edit never carries a hospital id; an added clinic is linked to the hospital it was added from |
| Hospitals.HospitalsPanel.constructor | SuperAdmin-Sales/src/components/HospitalsTab.tsx:37-52 | the panel starts with no hospitals, an empty map, nothing expanded and both modals closed |
| Hospitals.HospitalsPanel.FetchHospitals | SuperAdmin-Sales/src/components/HospitalsTab.tsx:58-92 | a query error or null data leaves hospitals and clinic map unchanged; otherwise they become the rows and their clinic map |
| Hospitals.HospitalsPanel.ToggleHospitalExpansion | SuperAdmin-Sales/src/components/HospitalsTab.tsx:94-102 | the expanded set becomes its toggle |
| Hospitals.HospitalsPanel.OpenHospitalModal | SuperAdmin-Sales/src/components/HospitalsTab.tsx:105-120 | opens the modal with mode and row, and fills the form from the row |
| Hospitals.HospitalsPanel.CloseHospitalModal | SuperAdmin-Sales/src/components/HospitalsTab.tsx:472 | Cancel closes the modal to show false, mode '', no row |
| Hospitals.HospitalsPanel.HandleHospitalSubmit | SuperAdmin-Sales/src/components/HospitalsTab.tsx:122-143 | sends `HospitalSubmitWrite`; the modal closes unless the submit threw or the store failed |
| Hospitals.HospitalsPanel.OpenClinicModal | SuperAdmin-Sales/src/components/HospitalsTab.tsx:159-173 | opens the modal with mode, row and hospital id, and fills the form |
| Hospitals.HospitalsPanel.CloseClinicModal | SuperAdmin-Sales/src/components/HospitalsTab.tsx:569 | Cancel closes the modal to show false, mode '', no row, hospital id '' |
| Hospitals.HospitalsPanel.HandleClinicSubmit | SuperAdmin-Sales/src/components/HospitalsTab.tsx:175-197 | sends `ClinicSubmitWrite`; the modal closes unless the submit threw or the store failed |
| Clinics.FormOfSpec | SuperAdmin-Sales/src/components/ClinicsTab.tsx:133-154 | `Clinics.FormOf`: code and name are copied verbatim; every other field takes its column's value, or the blank form's default ('trial', 'Asia/Kolkata', 'India', 0, today, '') when it is null or '' |
| Clinics.SparseRowLoadsDefaults | SuperAdmin-Sales/src/components/ClinicsTab.tsx:133-154 | a row with only code and name loads as `Clinics.DefaultForm`, the blank form, with that code and name |
| Clinics.SubmitWrite | SuperAdmin-Sales/src/components/ClinicsTab.tsx:88-101 | the form is sent as an update keyed by the edited clinic's id when editing, otherwise as an insert |
| Clinics.FilterClinicsSpec | SuperAdmin-Sales/src/components/ClinicsTab.tsx:175-178 | `Clinics.FilterClinics` keeps exactly the clinics whose name or code contains the term ignoring case, in order; the empty term keeps all; it is idempotent |
| Clinics.ClinicsPanel.constructor | SuperAdmin-Sales/src/components/ClinicsTab.tsx:41-60 | the panel starts with the blank form and the modal closed |
| Clinics.ClinicsPanel.OpenCreate | SuperAdmin-Sales/src/components/ClinicsTab.tsx:201 | the add button only opens the modal |
| Clinics.ClinicsPanel.HandleEdit | SuperAdmin-Sales/src/components/ClinicsTab.tsx:133-156 | remembers the clinic, loads it into the form, opens the modal |
| Clinics.ClinicsPanel.HandleSubmit | SuperAdmin-Sales/src/components/ClinicsTab.tsx:83-131 | sends `SubmitWrite`; only a store success closes, forgets the clinic and resets; on error the state is unchanged |
| Clinics.ClinicsPanel.Cancel | SuperAdmin-Sales/src/components/ClinicsTab.tsx:381-404 | Cancel leaves the same state as a successful submit |
| AdminUsers.Flatten | SuperAdmin-Sales/src/components/AdminUsersTab.tsx:52-55 | flattening keeps length, order and every row, and adds the joined hospital name; null data gives [] |
| AdminUsers.FlattenRows | SuperAdmin-Sales/src/components/AdminUsersTab.tsx:52-55 | each flattened user holds its row and `AdminUsers.JoinedName`, the joined hospital name or none |
| AdminUsers.HospitalLabel | SuperAdmin-Sales/src/components/AdminUsersTab.tsx:210 | the card shows "Not assigned" when the name is absent or empty, the name otherwise |
| AdminUsers.UnjoinedUserNotAssigned | SuperAdmin-Sales/src/components/AdminUsersTab.tsx:210 | a fetched user without a hospital join is shown as "Not assigned" |
| AdminUsers.SubmitWrite | SuperAdmin-Sales/src/components/AdminUsersTab.tsx:84-106 | an update patches exactly email, name, hospital and active flag of the edited user; an insert sends those four with role 'admin' |
| AdminUsers.SubmitRoundTrips | SuperAdmin-Sales/src/components/AdminUsersTab.tsx:131-138 | `AdminUsers.FormOf` (the edit form) then submit patches the user with its own four values; the blank form inserts an active admin |
| AdminUsers.AdminUsersPanel.constructor | SuperAdmin-Sales/src/components/AdminUsersTab.tsx:28-33 | the panel starts with no users, the blank form and the modal closed |
| AdminUsers.AdminUsersPanel.FetchAdminUsers | SuperAdmin-Sales/src/components/AdminUsersTab.tsx:40-63 | on success the list is the flattened data; on error it is kept |
| AdminUsers.AdminUsersPanel.ResetForm | SuperAdmin-Sales/src/components/AdminUsersTab.tsx:122-129 | the form becomes blank strings with is_active true |
| AdminUsers.AdminUsersPanel.HandleEdit | SuperAdmin-Sales/src/components/AdminUsersTab.tsx:131-140 | remembers the user, loads its four fields, opens the modal |
| AdminUsers.AdminUsersPanel.HandleSubmit | SuperAdmin-Sales/src/components/AdminUsersTab.tsx:80-120 | sends `SubmitWrite`; only a store success closes, forgets the user and resets |
| AdminUsers.AdminUsersPanel.Cancel | SuperAdmin-Sales/src/components/AdminUsersTab.tsx:291-295 | closes the modal, forgets the user, resets the form |
| Contact.MinLength | SuperAdmin-Sales/src/components/sections/Contact.tsx:10-15 | a minimum-length check passes iff the JavaScript length reaches the minimum, and otherwise reports its own message |
| Contact.ValidateSpec | SuperAdmin-Sales/src/components/sections/Contact.tsx:9-16 | `Contact.Validate`: the form is valid iff name ≥ 2, email accepted, phone ≥ 10, practice ≥ 2, plan ≥ 1 and message ≥ 10, each failing field with its own message |
| Contact.ErrorsAreIndependent | SuperAdmin-Sales/src/components/sections/Contact.tsx:119-203 | each field's message depends on that field alone |
| Contact.PlanOptionsCheck | SuperAdmin-Sales/src/components/sections/Contact.tsx:180-184 | of the plan options only the "" placeholder is rejected |
| Contact.AstralCharacterCountsTwice | SuperAdmin-Sales/src/components/sections/Contact.tsx:10 | one character outside the BMP already meets a two-unit minimum |
| Testimonials.NextIndex | SuperAdmin-Sales/src/components/sections/Testimonials.tsx:61-63 | next stays in range: i+1, or 0 from the last entry |
| Testimonials.PrevIndex | SuperAdmin-Sales/src/components/sections/Testimonials.tsx:65-67 | previous stays in range: i-1, or n-1 from 0 |
| Testimonials.NextPrevInverse | SuperAdmin-Sales/src/components/sections/Testimonials.tsx:61-67 | next after previous, and previous after next, restore the index |
| Testimonials.Advance | SuperAdmin-Sales/src/components/sections/Testimonials.tsx:62 | repeated next presses stay in range |
| Testimonials.AdvanceAdd | SuperAdmin-Sales/src/components/sections/Testimonials.tsx:62 | a+b presses equal a presses followed by b presses |
| Testimonials.AdvanceWithinRing | SuperAdmin-Sales/src/components/sections/Testimonials.tsx:62 | presses that do not pass the end move one place each |
| Testimonials.FullCycleReturns | SuperAdmin-Sales/src/components/sections/Testimonials.tsx:62 | n consecutive next presses return to the starting index |
| Testimonials.Carousel.constructor | SuperAdmin-Sales/src/components/sections/Testimonials.tsx:6 | the carousel starts at index 0 of five |
| Testimonials.Carousel.Next | SuperAdmin-Sales/src/components/sections/Testimonials.tsx:61-63 | the index becomes `NextIndex` and stays in range |
| Testimonials.Carousel.Prev | SuperAdmin-Sales/src/components/sections/Testimonials.tsx:65-67 | the index becomes `PrevIndex` and stays in range |
| Testimonials.Carousel.Select | SuperAdmin-Sales/src/components/sections/Testimonials.tsx:223-227 | a dot click sets the index to the dot's position, which is in range |
| Faq.Toggled | SuperAdmin-Sales/src/components/sections/FAQ.tsx:43-45 | toggling the open question closes it; toggling any other opens that one |
| Faq.AtMostOneOpen | SuperAdmin-Sales/src/components/sections/FAQ.tsx:102 | no two questions show their answer at once |
| Faq.ToggleTwice | SuperAdmin-Sales/src/components/sections/FAQ.tsx:43-45 | toggling twice restores that question's state and leaves every other closed |
| Faq.Accordion.constructor | SuperAdmin-Sales/src/components/sections/FAQ.tsx:6 | question 0 starts open, and the open question is always one of the eight |
| Faq.Accordion.Toggle | SuperAdmin-Sales/src/components/sections/FAQ.tsx:43-45 | clicking one of the eight questions leaves either nothing open or only that question open, and keeps the open question among the eight |

## Left out

- All store I/O is left out: select, insert, update and delete calls, server-side ordering, and the
  re-fetch after each mutation. A handler returns the request it would send, and the store's
  answer is a boolean input.
- Notifications, `loading` flags and the parent statistics refresh are left out. They do not
  affect the modelled state.
- Async races and unmounting are left out. The model runs handlers one at a time.
- The per-field `onChange` bindings are left out. Each replaces one form field.
- The read-only "view" modals of the hospital and clinic panels are display only and are left out.
- The template, subscription and clinic fetches are modelled only as far as the core needs.
  `TemplatesLoaded` covers the plan preselection; the rest is store I/O.
- Text.ToLower: maps only the ASCII letters. JavaScript's `toLowerCase` also maps non-ASCII
  letters, so non-ASCII search terms are compared case-sensitively in the model.
- The email format rule belongs to the validation library. It is the parameter `isEmail`.
- Prices are exact `real` values. They are only copied, never computed. Revenue, the savings
  line and `parseFloat` are floating-point display code.
- The clock is left out. Today's date is the parameter `today`.
- Testimonials: the auto-advance interval, animations and the header scroll listener are not
  modelled.
- Contact: the simulated submit delay is not modelled.
- Nullable columns that the components type as plain values are modelled as those types:
  `is_active` of hospitals and clinics, and `hospital_id` of subscriptions.
