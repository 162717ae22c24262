# Life-insurance CRM: a Dafny model of the data and session providers and the entry screens

The application is a mobile CRM for life-insurance agents. Agents record customers and their
contracts. Admins manage staff accounts and publish lessons. This project models the parts of it
that decide what is stored and what is shown:

- **Data provider** (`contexts/DataContext.tsx`). The in-memory customer, meeting and lesson lists,
  the five operations that replace them, and the seven dashboard counters.
  The model is the class `DataContext.DataProvider` with `seq` fields, plus the pure function
  `DashboardStatsOf` over the customer list.
- **Session provider** (`contexts/AuthContext.tsx`). The demo login derives the role and the display
  name from the e-mail address. Logout clears the user. `isAuthenticated` means that somebody is
  signed in. The model is the class `AuthContext.AuthProvider`.
- **New-customer screen** (`app/customer/add.tsx`).
  - The loop that rolls a contract's join date forward to its next payment date.
  - The checks and the form reset of "add contract".
  - The checks of "save" and the customer record it builds.
  - The frequency labels.
- **New-account screen** (`app/users/add.tsx`). The Admin gate, the ordered validation chain, the
  e-mail regular expression `^[^\s@]+@[^\s@]+\.[^\s@]+$`, and the request handed to the user store.
- **Staff list** (`app/users/list.tsx`). The gate, the case-insensitive search, the Admin and
  Manager tallies, the role badge colour and icon, and the rule that nobody is offered a delete
  button on their own row.
- **New-lesson screen** (`app/learning/add.tsx`). The checks, the record that is saved, and the pair
  of "saving" flags (React state and a ref) that make a second tap during a save do nothing.

Conventions of the model:

- **Dates** are `Types.Instant(month, offset)`. `month` counts calendar months (year × 12 + month)
  and `offset` is the time elapsed since the first instant of that month. JavaScript's `<` on dates
  is the lexicographic order `Before`. `setMonth(m + n)` and `setFullYear(y + 1)` keep the offset
  and move the month.
- **The clock** (`new Date()`) and the `Date.now()` identifiers are parameters.
- **Lookups the screens ask of the data provider** are parameters. `checkPhoneNumberExists` and
  `checkContractNumberExists` become membership in a set `registered`. `users`, `addUser` and
  `deleteUser` are not declared by `contexts/DataContext.tsx`, so they are not part of this model.
  The staff list takes the user list as a parameter. The new-account screen returns the request it
  would pass to `addUser`.
- **Partial updates.** `Partial<Customer>` is `Types.CustomerPatch`, with one `Option` per field.
  `{ ...c, ...updates }` is `DataContext.Merge`.
- **Strings** are `seq<char>`. `trim()` and the regex class `\s` use ECMAScript's white space and
  line terminators (`Text.IsSpace`).

Where the code and the shared type file disagree, the model follows the code:

- The type file declares `meetingDate` and `insuranceDetails` on a customer.
- The new-customer screen writes `meetingRecords` and `insuranceContracts` instead, and the
  dashboard counters read only the former two.
- The model carries both pairs of fields. `CustomerAdd.SavedCustomerMissesMeetingAndPaymentCounters`
  proves the consequence: a customer saved from this screen never counts as having an upcoming
  meeting or payment.

## Model

| member | source | states |
|---|---|---|
| Text.Trim | app/customer/add.tsx:178-186 | `trim()` returns the empty string exactly when the input is all white space; the result neither starts nor ends with white space; it is a slice of the input with only white space before and after it |
| Text.ContainsIff | app/users/list.tsx:39-43 | `includes` holds exactly when the needle occurs at some position of the string |
| Text.BeforeFirst | contexts/AuthContext.tsx:53 | `split('@')[0]` is a prefix of the address with no '@' in it, and it is either the whole address or stops just before the first '@' |
| Text.ReplaceFirst | contexts/AuthContext.tsx:53 | `replace('.', ' ')` keeps the length, changes nothing when there is no '.', and otherwise turns exactly the first '.' into a space |
| Seqs.Filter | contexts/DataContext.tsx:127-134 | `filter` returns no more elements than it was given, and an element is in the result exactly when it was in the input and passes the test |
| Seqs.FilterIsSubsequence | contexts/DataContext.tsx:154-156 | `filter` keeps the survivors in their original order |
| Seqs.FilterAllPass | app/users/list.tsx:39-43 | when every element passes, `filter` returns its input unchanged |
| Seqs.FilterIdempotent | contexts/DataContext.tsx:154-156 | filtering twice with the same test is filtering once |
| Seqs.FilterAppend | contexts/DataContext.tsx:138-146 | filtering `s + [x]` is filtering `s`, followed by `x` when `x` passes |
| Seqs.FilterDisjointBound | app/users/list.tsx:129-134 | two tests that never hold together select at most as many elements as there are |
| Seqs.FilterNonEmpty | contexts/DataContext.tsx:131-133 | an element that passes the test makes the filtered list non-empty |
| Seqs.FilterSplitsCount | contexts/DataContext.tsx:155 | a test and its negation select every element exactly once between them, duplicates included |
| Types.StartOfMonth | contexts/DataContext.tsx:123 | the first instant of the month is not after `now`, and an instant is not before it exactly when it falls in the month of `now` or later |
| DataContext.DashboardStatsOf | contexts/DataContext.tsx:121-135 | the total is the list length; the Signed, Potential and Dropped counters add up to the total; no counter exceeds the total; an empty list gives all zeros |
| DataContext.ClassificationsPartition | contexts/DataContext.tsx:127-129 | every customer is counted by exactly one of the three classification filters |
| DataContext.StatsOfOne | contexts/DataContext.tsx:126-134 | one customer's exact contribution to every counter; none to upcoming payments without insurance details; none to upcoming meetings when the meeting is at `now` (strictly later is required) |
| DataContext.StatsAppend | contexts/DataContext.tsx:121-146 | the counters of `customers + [c]` are those of `customers` plus those of `[c]` |
| DataContext.CountAppend | contexts/DataContext.tsx:126-134 | for any of the counter tests, the count over `cs + [c]` is the count over `cs` plus that over `[c]` |
| DataContext.AddedThisMonthIsNew | contexts/DataContext.tsx:134-146 | a customer added during the current month raises both the new-this-month counter and the total by one |
| DataContext.UpcomingPaymentsAtMostFutureDetails | contexts/DataContext.tsx:130-132 | the upcoming-payments counter counts customers, so it never exceeds the number of insurance records due after `now` |
| DataContext.Merge | contexts/DataContext.tsx:150 | for every key of the record (id, `createdAt` and all thirteen customer fields), the merged value is the update's when the update carries the key and the record's when it does not; `updatedAt` is the clock reading whatever the update says; an empty update changes nothing else |
| DataContext.MergeProperties | contexts/DataContext.tsx:148-152 | merging an empty update only refreshes `updatedAt`; merging the same update twice at one instant is merging it once; without a new id the id is kept |
| DataContext.Updated | contexts/DataContext.tsx:148-152 | the list keeps its length; the records with the id are merged with the update and every other record is untouched |
| DataContext.UpdateProperties | contexts/DataContext.tsx:148-152 | an update whose id matches no record leaves the list as it was; applying it twice at one instant is applying it once |
| DataContext.WithoutId | contexts/DataContext.tsx:154-156 | deleting keeps the other records in their order, a record survives exactly when its id differs, and the result is shorter by exactly the number of records with the id, so every survivor keeps all its copies |
| DataContext.DeleteProperties | contexts/DataContext.tsx:154-156 | deleting twice is deleting once; deleting an id no record has changes nothing |
| DataContext.DataProvider.constructor | contexts/DataContext.tsx:21-24 | all three lists start empty and loading is on |
| DataContext.DataProvider.AddCustomer | contexts/DataContext.tsx:138-146 | exactly one customer, with the given id and both timestamps at `now`, is appended; the other lists are untouched |
| DataContext.DataProvider.UpdateCustomer | contexts/DataContext.tsx:148-152 | the customer list becomes `Updated` of the old one; the other lists are untouched |
| DataContext.DataProvider.DeleteCustomer | contexts/DataContext.tsx:154-156 | the customer list becomes `WithoutId` of the old one; the other lists are untouched |
| DataContext.DataProvider.AddMeeting | contexts/DataContext.tsx:158-165 | exactly one meeting, stamped with the id and `now`, is appended; the other lists are untouched |
| DataContext.DataProvider.AddLearningContent | contexts/DataContext.tsx:167-174 | exactly one lesson, stamped with the id and `now`, is appended; the other lists are untouched |
| AuthContext.RoleFor | contexts/AuthContext.tsx:43-48 | Admin exactly when the address contains "admin"; Manager exactly when it contains "manager" but not "admin"; Staff otherwise |
| AuthContext.DisplayName | contexts/AuthContext.tsx:53 | the display name is as long as the part of the address before the first '@' and holds no lower-case ASCII letter |
| AuthContext.DisplayNameAt | contexts/AuthContext.tsx:53 | the display name has the length of the part before the first '@'; each character is that part's character upper-cased, except that the first '.' becomes a space |
| AuthContext.AuthProvider.constructor | contexts/AuthContext.tsx:16-17 | nobody is signed in and loading is on |
| AuthContext.AuthProvider.IsAuthenticated | contexts/AuthContext.tsx:75 | the session is authenticated exactly when a user is signed in |
| AuthContext.AuthProvider.CheckAuthStatus | contexts/AuthContext.tsx:24-35 | loading ends and the user is left as it was |
| AuthContext.AuthProvider.Login | contexts/AuthContext.tsx:37-65 | the signed-in user has id "1", the given address, the role `RoleFor` and the name `DisplayName` of it; the session is authenticated and loading is off |
| AuthContext.AuthProvider.Logout | contexts/AuthContext.tsx:67-69 | nobody is signed in and the session is no longer authenticated |
| AuthContext.AdminGate | app/users/add.tsx:34-46 | the form is reachable exactly when a signed-in user has the Admin role |
| CustomerAdd.FrequencyLabel | app/customer/add.tsx:240-247 | "Tháng", "Quý", "Nửa năm" and "Năm" label exactly the 1-, 3-, 6- and 12-month periods |
| CustomerAdd.FrequencyLabelsDistinct | app/customer/add.tsx:240-247 | no two payment frequencies share a label |
| CustomerAdd.FirstDueDate | app/customer/add.tsx:112-134 | the date the catch-up loop reaches is not before `now`; it is the join date while that is not past; it keeps the join date's day and time and is not earlier than the join date |
| CustomerAdd.FirstDueDateIsFirst | app/customer/add.tsx:112-134 | the next payment date lies a whole number of periods after the join date, and one period earlier it would still be before `now`, so no due date is skipped |
| CustomerAdd.NextPaymentDate | app/customer/add.tsx:112-134 | the loop stops at `FirstDueDate` of the join date |
| CustomerAdd.CheckContract | app/customer/add.tsx:137-150 | a missing company is reported first, then a missing contract number, then a registered contract number; the contract passes exactly when all three are fine |
| CustomerAdd.CheckCustomerAsWritten | app/customer/add.tsx:178-192 | the checks as written pass exactly when name and phone are not blank and the phone, as typed, is not registered |
| CustomerAdd.AsWrittenAdmitsRegisteredPhone | app/customer/add.tsx:189 | the checks as written let " 1" through when "1" is registered |
| CustomerAdd.TrimmedPhone | app/customer/add.tsx:213 | " 1" is saved as "1" |
| CustomerAdd.CheckCustomer | app/customer/add.tsx:178-192 | a blank name is reported first, then a blank phone, then a registered (trimmed) phone; the customer passes exactly when none applies |
| CustomerAdd.NewCustomerInfo | app/customer/add.tsx:198-232 | name, phone, occupation, financial status and family information are saved trimmed and the date of birth as given; one meeting record exactly when there are notes, holding the meeting date and notes; the contracts and classification of the form; no `meetingDate`, `meetingNotes` or `insuranceDetails`; the creator is the signed-in user's id when it is non-empty, and "1" otherwise |
| CustomerAdd.SavedCustomerIsNew | app/customer/add.tsx:177-234 | a customer that passes the checks is saved with a non-empty, trimmed name and phone, and with a phone that is not registered |
| CustomerAdd.SavedCustomerMissesMeetingAndPaymentCounters | app/customer/add.tsx:198-232 | a customer built by this screen adds nothing to the upcoming-meetings and upcoming-payments counters |
| CustomerAdd.AddCustomerForm.constructor | app/customer/add.tsx:31-79 | the form starts empty, with every date at today, the Potential classification and the monthly frequency |
| CustomerAdd.AddCustomerForm.AddInsuranceContract | app/customer/add.tsx:136-175 | the result is `CheckContract`; a rejection changes nothing; an accepted contract is appended with its next payment date, and the contract fields are reset |
| CustomerAdd.AddCustomerForm.HandleSave | app/customer/add.tsx:177-238 | the result is `CheckCustomer` (the corrected lookup of the Findings row); a rejection leaves the provider untouched; otherwise exactly one customer built by `NewCustomerInfo` is appended and nothing else in the provider changes |
| UsersAdd.EmailCheckIsSound | app/users/add.tsx:76-77 | every address the direct check accepts matches the regular expression |
| UsersAdd.EmailCheckIsComplete | app/users/add.tsx:76-77 | every address the regular expression matches passes the direct check |
| UsersAdd.EmailCharsHaveNoAt | app/users/add.tsx:76 | a run of `[^\s@]` characters holds no '@' |
| UsersAdd.EmailCharsAroundDot | app/users/add.tsx:76 | two runs of `[^\s@]` characters joined by a '.' form one run |
| UsersAdd.EmailCheckMatchesPattern | app/users/add.tsx:76-77 | the direct check and the regular expression accept the same addresses |
| UsersAdd.ValidateNewUser | app/users/add.tsx:66-80 | missing fields are reported first, then a password shorter than six characters, then an address the pattern rejects; the form passes exactly when none applies |
| UsersAdd.AddUserForm.constructor | app/users/add.tsx:27-32 | the form starts empty with the Staff role |
| UsersAdd.AddUserForm.HandleSave | app/users/add.tsx:65-91 | behind the Admin gate: the first failing check, or the request carrying the form's values and the Admin as creator, with a password of at least six characters and an address the pattern matches |
| UsersList.EmptyQueryKeepsAll | app/users/list.tsx:39-43 | an empty search shows every user |
| UsersList.FilteredUsers | app/users/list.tsx:39-43 | the shown users keep their order; a user is shown exactly when the lower-cased query occurs in their lower-cased name, e-mail or role; the list is shorter by exactly the number of users that do not match, so no matching entry is dropped; an empty query shows everyone |
| UsersList.RoleCountsBounded | app/users/list.tsx:124-134 | the Admin and Manager tallies together never exceed the user count |
| UsersList.RoleColor | app/users/list.tsx:67-76 | red exactly for Admin, amber exactly for Manager, the primary blue exactly for every other role name |
| UsersList.RoleIcon | app/users/list.tsx:78-87 | a crown exactly for Admin, a star exactly for Manager, a person exactly for every other role name |
| UsersList.RoleBadges | app/users/list.tsx:67-87 | Admin and Manager get different colours and icons; any other role gets the primary colour and the person icon, shared with neither |
| UsersList.OffersDelete | app/users/list.tsx:171 | the signed-in user's own row never offers delete; every other row does |
| UsersList.UserListScreen | app/users/list.tsx:25-43 | anyone but an Admin gets the error screen; an Admin gets the filtered users, a delete flag per row that is off exactly on their own row, the total, and the numbers of Admins and Managers among all users, which together fit in the total |
| LearningAdd.CheckLearning | app/learning/add.tsx:53-61 | a blank title or description is reported first, then a video without a link; the lesson passes exactly when neither applies |
| LearningAdd.NewLearningDraft | app/learning/add.tsx:69-76 | title, description and content are the trimmed inputs; the link is the trimmed link for a video and absent otherwise; no file or thumbnail link; the creator is the signed-in user's id, or "" |
| LearningAdd.SavedLessonIsClean | app/learning/add.tsx:69-76 | a lesson that passes the checks is saved with a non-empty, trimmed title and description, a non-empty link exactly when it is a video, no other link, and its author's id |
| LearningAdd.LearningForm.constructor | app/learning/add.tsx:24-30 | the form starts empty on the video kind, with both flags down |
| LearningAdd.LearningForm.BeginSave | app/learning/add.tsx:46-65 | a tap while either flag is up is ignored and changes nothing; otherwise the checks decide, and only a lesson that passes raises both flags; the form's text is never changed |
| LearningAdd.LearningForm.EndSave | app/learning/add.tsx:91-95 | both flags are lowered |
| LearningAdd.LearningForm.HandleSave | app/learning/add.tsx:46-96 | an ignored or rejected tap changes nothing; an accepted one appends exactly one lesson, built by `NewLearningDraft`, and lowers both flags; nothing else in the provider changes |
| LearningAdd.DoubleTap | app/learning/add.tsx:46-51 | a second tap that arrives while the first save is under way adds nothing, so the list grows by one lesson |

## Left out

- Rendering, navigation, alerts and styles are not modelled. The image and file pickers are left out too.
- `app/login.tsx` is not part of this model.
- `loadDemoData` is not modelled. The demo records it loads are data, not behaviour.
- The address, avatar, location, files and `hasInsurance` fields of the new-customer form are left out. The form only copies them into the record.
- The province, district and commune lookups are left out for the same reason.
- The premium amount is kept as the string typed, and `parseFloat` of the location is left out, because floating point is not modelled.
- `AddMonths`: JavaScript's `setMonth` rolls an overflowing day into the next month (31 January + 1 month is 2 or 3 March). The yearly step, `setFullYear(getFullYear() + 1)` at app/customer/add.tsx:128, does the same to 29 February, which becomes 1 March in a year that is not a leap year. The model keeps the day in both cases, so the date it gives differs from the one the code computes for days 29–31.
- `DataContext.DataProvider.AddCustomer`: the code reads the clock twice, once for `createdAt` and once for `updatedAt` (contexts/DataContext.tsx:142-143), so the two can differ by the time between the reads. The model passes one clock reading `now` for both, so `createdAt == updatedAt` always holds for a new customer.
- `CustomerAdd.AddCustomerForm.constructor`: the code reads the clock three times, for the initial date of birth, meeting date and join date (app/customer/add.tsx:35, 55, 72). The model passes one reading `today` for all three.
- `CustomerAdd.AddCustomerForm.AddInsuranceContract`: the due-date loop reads the clock (app/customer/add.tsx:114), and the form reset reads it again for the new join date (app/customer/add.tsx:169). The model passes one reading `now` for both.
- `CustomerAdd.AddCustomerForm.HandleSave`: the meeting record is stamped from one clock reading (app/customer/add.tsx:202) and the customer's two timestamps from two more (contexts/DataContext.tsx:142-143). The model passes one reading `now` for all three, so in the model they are always equal.
- Time zones and daylight saving are not modelled; an `Instant` is a local calendar position.
- `Text.Lower`, `Text.Upper`: only ASCII letters change case. `toLowerCase` and `toUpperCase` also map other scripts (Vietnamese letters among them).
- `UsersAdd.ValidateNewUser`: the password length counts code points, while JavaScript's `length` counts UTF-16 units. They differ only for characters outside the Basic Multilingual Plane.
- `checkAuthStatus` waits one second before ending the load. The wait is not modelled.
- `login` awaits nothing and never throws. Its error branch is not modelled.
- The password is ignored by the code, and so it is by the model.
- `addUser` and `deleteUser` themselves are not part of this model, and neither are their failures. The staff-list delete confirmation and the error alerts after `addUser` are left out with them.
- `addLearningContent` never throws in the provider. The error alert of the lesson screen is therefore not modelled; its `finally` is `EndSave`.
- `CustomerAdd.AddCustomerForm.HandleSave` gates on the corrected check `CheckCustomer`, which looks up the trimmed phone number. The code looks up the phone as typed (app/customer/add.tsx:189), so it saves a padded phone that is already registered, for example " 1" when "1" is registered. The model rejects that save. `CustomerAdd.CheckCustomerAsWritten` and `CustomerAdd.AsWrittenAdmitsRegisteredPhone` show the code's behaviour, as the Findings row says.
- Concurrency is not modelled. React batches its state updates and re-renders between taps. The two flags are treated as fields that every tap reads fresh, which is what the ref gives. A stale `isSaving` captured by an old closure is not modelled.

## Findings

| source | as written | input that shows it | evidently intended | confidence | as-written member | corrected member |
|---|---|---|---|---|---|---|
| app/customer/add.tsx:189 | the duplicate-phone lookup is given the phone number as typed, while the record stores it trimmed (line 213); the edit screen trims before the same lookup (app/customer/edit/[id].tsx:288) | phone " 1" while "1" is registered: the check passes and a second customer with phone "1" is saved | look up the trimmed phone number, the value that is saved | medium, not executed | CustomerAdd.CheckCustomerAsWritten, CustomerAdd.AsWrittenAdmitsRegisteredPhone | CustomerAdd.CheckCustomer, CustomerAdd.SavedCustomerIsNew |
