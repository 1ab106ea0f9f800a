# Dazzle admin console — a Dafny model

This project models the client-side logic of the Dazzle Light admin console. The console is a
React single-page application over a hosted backend, which supplies authentication, tables and
file storage. The model covers:

- the session store: who is signed in, whether that user is an admin, and whether that is still
  loading;
- the route table;
- the registration flow: ordered form checks, sign-up, a pending admin request, then sign-out;
- the approvals page: its filters, the pending counter, and the two-write approval and
  one-write rejection;
- the products page: the save guard, payload normalisation, insert-or-update, image checks and
  storage path, search;
- the inquiries page: the status-filtered fetch, search, detail notes, status changes, and the
  CSV export;
- the settings page's password change;
- the toast buffer;
- the navigation rules of the admin shell;
- the table rows and enumerations of the database types.

The backend is abstract. Each table a page touches is a field of that page's class (a `seq` of
rows). Each remote call's answer is a parameter: success or failure, and the id and timestamp
the backend assigns. A handler that awaits is a method that runs to completion with those
answers. The session store is the exception: the store is visible between its `await` steps,
so each step is its own method.

JavaScript behaviour is written out where the code relies on it:

- `||` treats `""`, `0`, `NaN`, `null` and `undefined` as false (`Products.Falsy`, `Products.StrOrNull`).
- `trim` uses JavaScript's white-space set (`Strings.Trim`).
- `length` counts UTF-16 code units (`Strings.Utf16Length`).
- `split(".").pop()` is `Strings.LastSegment`.
- `toLowerCase` on ASCII is `Strings.Lower`.
- `.maybeSingle()` fails when more than one row matches (`Auth.FetchIsAdmin`).

Modules, one per file: `Common` (option type, filter, map, subsequence), `Strings`, `Schema`,
`Routes`, `Toasts`, `Auth`, `Approvals`, `Registration`, `Products`, `Csv`, `Inquiries`,
`Settings`, `Layout`.

Two behaviours of the code are modelled as written, although they look unintended:

- Approving does not check the request's status; only the buttons are limited to pending rows.
  So `Approvals.ApprovalsPage.Approve` has no status precondition, and `OpenDialog` carries the
  pending-only rule.
- The admin lookup ends in `.maybeSingle()`, which expects at most one grant per user. The
  approval inserts a grant every time, without checking for an earlier one. A second grant
  therefore makes the lookup fail, and the user then reads as "not admin".
  `Approvals.RepeatedApprovalRevokesAdmin` states this.

## Model

| member | source | states |
|---|---|---|
| Schema.ParseRequestStatus | src/integrations/supabase/database.types.ts:147 | a stored request status is accepted exactly when it is one of the three names, and then as that status |
| Schema.InquiryStatusIndex | src/integrations/supabase/database.types.ts:215 | `Constants` lists each status's name at that status's position in the type |
| Schema.InquiryConstantsDistinct | src/integrations/supabase/database.types.ts:215 | `Constants` holds seven distinct names |
| Schema.ParseInquiryStatus | src/integrations/supabase/database.types.ts:6 | exactly the seven names are accepted, each as its own status |
| Schema.StoredRequest | src/integrations/supabase/database.types.ts:153-163 | an `admin_requests` insert needs user, name and e-mail; a given status is kept and a left-out one takes the column default; the review columns are stored as given; the backend supplies id and creation time |
| Routes.Resolve | src/App.tsx:14-60 | "/" and every unknown path redirect to "/admin"; exactly the login and register paths are public; exactly the five admin paths are guarded |
| Routes.PathOf | src/App.tsx:16-58 | each page's path resolves to that page, guarded unless it is sign-in or registration |
| Routes.RedirectsEndOnDashboard | src/App.tsx:14-60 | every redirect lands on the guarded dashboard in one step |
| Toasts.MakeToast | src/hooks/use-toast.tsx:24-25 | the input's fields with the given id; the variant defaults to "default" |
| Toasts.Pushed | src/hooks/use-toast.tsx:26 | the new toast is first, followed by the newest of the previous ones in order, at most three in all |
| Toasts.Dismissed | src/hooks/use-toast.tsx:28 | a toast remains exactly when it was there and has another id |
| Toasts.DismissKeepsOrder | src/hooks/use-toast.tsx:28 | dismissal keeps the remaining toasts in order |
| Toasts.DismissAbsentId | src/hooks/use-toast.tsx:28 | dismissing an id that is not shown (already pushed out) changes nothing |
| Toasts.DismissOwnToast | src/hooks/use-toast.tsx:23-29 | a fresh toast's timer removes that toast and nothing else |
| Toasts.ToastStore.Push | src/hooks/use-toast.tsx:23-26 | the list becomes `Pushed(old, MakeToast(input, id))` and stays within three entries |
| Toasts.ToastStore.Dismiss | src/hooks/use-toast.tsx:27-29 | the list becomes `Dismissed(old, id)` and stays within three entries |
| Auth.AdminGrants | src/contexts/AuthContext.tsx:16-20 | the role rows kept are exactly the "admin" rows of that user |
| Auth.FetchIsAdmin | src/contexts/AuthContext.tsx:15-25 | the flag is true exactly when the lookup succeeds and exactly one "admin" row for the user exists; a failed lookup, no grant, or two or more grants (`.maybeSingle()` fails) give false |
| Auth.FetchIsAdminSingleGrant | src/contexts/AuthContext.tsx:21-24 | with exactly one grant the flag is true when the lookup succeeds and false when it fails |
| Auth.SignInResult | src/contexts/AuthContext.tsx:80-83 | an error comes back exactly when the backend reported one, with the same message |
| Auth.AuthStore.constructor | src/contexts/AuthContext.tsx:28-30 | no user, not admin, loading |
| Auth.AuthStore.InitStart | src/contexts/AuthContext.tsx:36 | loading starts; nothing else changes |
| Auth.AuthStore.InitSessionResolved | src/contexts/AuthContext.tsx:41-50 | unmounted: nothing changes; otherwise the user is set, and with no session the store settles as not admin, not loading |
| Auth.AuthStore.InitLookupResolved | src/contexts/AuthContext.tsx:46-52 | while mounted, the flag is the lookup's answer and loading ends; unmounted, neither changes |
| Auth.AuthStore.Unmount | src/contexts/AuthContext.tsx:69-71 | only the mounted flag clears |
| Auth.AuthStore.AuthChangeBegin | src/contexts/AuthContext.tsx:57-64 | the user is replaced and loading starts; with no user the store settles as not admin, not loading |
| Auth.AuthStore.AuthChangeLookupResolved | src/contexts/AuthContext.tsx:62-66 | the flag is the lookup's answer for the pending user; loading ends |
| Auth.InitWithoutSession | src/contexts/AuthContext.tsx:28-52 | a load with no session ends signed out, not admin, not loading |
| Auth.InitWithSession | src/contexts/AuthContext.tsx:28-52 | a load with a session ends with that user, not loading, and the lookup's answer (false if it failed) |
| Auth.InitAfterUnmount | src/contexts/AuthContext.tsx:41-70 | a store unmounted before the session arrives keeps its initial state |
| Auth.SignInEvent | src/contexts/AuthContext.tsx:57-66 | a sign-in event ends with that user, not loading, and the lookup's answer |
| Approvals.FilteredRequests | src/pages/admin/AdminApprovals.tsx:151-157 | a request is listed exactly when its name or e-mail contains the query, ignoring case, and the filter is "all" or its status |
| Approvals.FilteredRequestsKeepOrder | src/pages/admin/AdminApprovals.tsx:151 | the filtered list is a subsequence of the fetched list |
| Approvals.UnfilteredShowsAll | src/pages/admin/AdminApprovals.tsx:151-157 | an empty query with "all" lists every request |
| Approvals.StatusCountsAddUp | src/pages/admin/AdminApprovals.tsx:159 | the pending, approved and rejected counts add up to the number of requests |
| Common.TextOrNull | src/pages/admin/AdminApprovals.tsx:127 | `rejectReason \|\| null` (and `followUpDate \|\| null` on the inquiries page): an empty text is stored as null, any other as itself |
| Common.FilterMultiplicity | src/pages/admin/AdminApprovals.tsx:151-157 | `filter` keeps every occurrence of a kept value and none of a dropped one, so no duplicate is merged or invented (every page's search and the toast dismissal filter this way) |
| Approvals.ApprovedIn | src/pages/admin/AdminApprovals.tsx:89-96 | rows with the id become approved by the reviewer at that time, every other column (name, e-mail, creation time, reason) unchanged; every other row is unchanged |
| Approvals.RejectedIn | src/pages/admin/AdminApprovals.tsx:121-129 | rows with the id become rejected by the reviewer with the reason or null, every other column unchanged; every other row is unchanged |
| Approvals.ApprovalLowersPendingCount | src/pages/admin/AdminApprovals.tsx:89-159 | approving the one pending request with an id lowers the pending count by one |
| Approvals.ApprovalGrantsAdmin | src/pages/admin/AdminApprovals.tsx:84-86 | a user with no grant who is approved then reads as admin |
| Approvals.RepeatedApprovalRevokesAdmin | src/pages/admin/AdminApprovals.tsx:84-86 | approving an admin again adds a second grant, and the single-row lookup then reads "not admin" |
| Approvals.ApprovalsPage.constructor | src/pages/admin/AdminApprovals.tsx:48-55 | the page's initial state |
| Approvals.ApprovalsPage.FetchRequests | src/pages/admin/AdminApprovals.tsx:61-77 | on success the list becomes the table; loading ends either way |
| Approvals.ApprovalsPage.OpenDialog | src/pages/admin/AdminApprovals.tsx:273 | only a pending row can be selected for approval or rejection |
| Approvals.ApprovalsPage.CancelDialog | src/pages/admin/AdminApprovals.tsx:307-344 | the dialog closes (Cancel buttons and close events of both dialogs); the selection stays |
| Approvals.ApprovalsPage.Approve | src/pages/admin/AdminApprovals.tsx:79-114 | no selection or no reviewer: nothing; the role insert comes first; a failed insert leaves both tables unchanged; a failed update keeps the role row; selection and dialog clear only on success; processing ends |
| Approvals.ApprovalsPage.Reject | src/pages/admin/AdminApprovals.tsx:116-149 | no selection or no reviewer: nothing; one update with the reason; selection, dialog and reason clear only on success; processing ends |
| Approvals.ApproveScenario | src/pages/admin/AdminApprovals.tsx:61-114 | fetch, select a pending request, approve: both writes succeed gives an admin row and the request approved by the reviewer; a failed role write changes neither table |
| Registration.ValidationErrors | src/pages/admin/Register.tsx:23-36 | each form error is reported exactly when the earlier checks pass and its own fails: blank field, then mismatch, then fewer than six code units |
| Registration.SpacesOnlyPasswordIsMissing | src/pages/admin/Register.tsx:23 | a password of spaces is reported as missing |
| Registration.RequestInsertFor | src/pages/admin/Register.tsx:60-65 | the request holds the new user's id, the name and e-mail as typed, status pending, no review |
| Registration.RegisterPage.Submit | src/pages/admin/Register.tsx:20-95 | a form failing a check changes nothing and reports that check; otherwise the sign-up and insert outcomes hold as `Sent` states them |
| Registration.RegisterPage.Send | src/pages/admin/Register.tsx:38-94 | a sign-up error or exception writes nothing; a user creates the account and, if the insert succeeds, one pending request; no user still reports success; only success signs out and goes to "/admin/login"; loading ends |
| Products.FormOf | src/pages/admin/Products.tsx:96 | the form holds each of the product's columns, id and timestamps included |
| Products.FormValidMeaning | src/pages/admin/Products.tsx:152-155 | the guard passes exactly when name and category are present and not blank |
| Products.StrOrNull | src/pages/admin/Products.tsx:161 | absent or empty text becomes null, other text is kept |
| Products.NumOrNull | src/pages/admin/Products.tsx:166-176 | an absent, NaN or zero number becomes null, any other is kept |
| Products.PriceOrZero | src/pages/admin/Products.tsx:165 | a falsy price becomes 0, any other is kept |
| Products.Payload | src/pages/admin/Products.tsx:159-180 | name and category as typed; each optional text is null exactly when absent or empty and otherwise kept; each optional number is null exactly when falsy (absent, NaN, 0) and otherwise kept; a falsy price becomes 0, any other is kept; featured only if set true; active unless set false |
| Products.PayloadIsNormalized | src/pages/admin/Products.tsx:159-180 | a payload holds no empty optional text, no zero or NaN optional number, and a numeric price |
| Products.SamePayloadIff | src/pages/admin/Products.tsx:159-180 | two forms save the same payload exactly when they agree on name, category, every truthy value and the flags |
| Products.EmptyProductIsValid | src/pages/admin/Products.tsx:152-155 | the new-product form passes the guard once it has a name |
| Products.EmptyProductPayload | src/pages/admin/Products.tsx:41-61 | the new-product form saves with price 0, null MRP, wattage, lumens and SKU, MOQ 100 |
| Products.Updated | src/pages/admin/Products.tsx:183-184 | an update keeps the row's id, certifications and timestamps and takes each of the payload's columns, the two flags as set values |
| Products.Inserted | src/pages/admin/Products.tsx:188-189 | an inserted row has the backend's id and time, no certifications, and the payload's columns |
| Products.ResaveWritesSamePayload | src/pages/admin/Products.tsx:93-192 | reopening a just-saved row and saving it unchanged passes the guard and writes the same payload |
| Products.UpdatedIn | src/pages/admin/Products.tsx:184 | rows with the id take the payload; the others are unchanged |
| Products.FilteredProducts | src/pages/admin/Products.tsx:224-229 | a product is listed exactly when its name, SKU (if any) or category contains the query, ignoring case |
| Products.FilteredProductsKeepOrder | src/pages/admin/Products.tsx:224-229 | the search keeps the list order; an empty query lists everything |
| Products.ImageRejection | src/pages/admin/Products.tsx:108-116 | refused as not an image exactly when the type lacks "image/"; as too large exactly when it is an image over 5 MiB; accepted otherwise |
| Products.SizeLimitIsInclusive | src/pages/admin/Products.tsx:113 | exactly 5 MiB is accepted, one byte more is refused |
| Products.UploadPath | src/pages/admin/Products.tsx:120-122 | "products/", the generated name, ".", then the text after the file name's last dot, which holds no dot |
| Products.UploadPathKeepsExtension | src/pages/admin/Products.tsx:120 | a file `base.ext` is stored under extension `ext` |
| Products.ProductsPage.constructor | src/pages/admin/Products.tsx:65-72 | the page's initial state, with the form set to `emptyProduct` |
| Products.ProductsPage.FetchProducts | src/pages/admin/Products.tsx:75-87 | on success the list becomes the table; loading ends either way |
| Products.ProductsPage.OpenDialog | src/pages/admin/Products.tsx:93-102 | the form copies the product, or resets to `emptyProduct`; the dialog opens |
| Products.ProductsPage.RemoveImage | src/pages/admin/Products.tsx:147-149 | only the image URL changes, to null |
| Products.ProductsPage.UploadImage | src/pages/admin/Products.tsx:104-145 | no file or a refused file changes nothing; an accepted file is stored at `UploadPath` and its URL set on success; a failed upload leaves the form; uploading ends |
| Products.ProductsPage.Save | src/pages/admin/Products.tsx:151-207 | nothing is written exactly when the guard fails; otherwise the form's payload is written as `Written` states |
| Products.ProductsPage.Write | src/pages/admin/Products.tsx:157-206 | an edit with an id updates that id's rows, otherwise one row is inserted first; the dialog closes only on success; saving ends |
| Products.ProductsPage.Delete | src/pages/admin/Products.tsx:209-222 | after confirmation and a successful delete, exactly the rows with the id are gone; otherwise nothing changes |
| Csv.QuotedCell | src/pages/admin/Inquiries.tsx:158 | the cell between two double quotes, nothing escaped |
| Csv.QuotedCells | src/pages/admin/Inquiries.tsx:158 | each cell quoted, in order |
| Csv.ReadQuoted | src/pages/admin/Inquiries.tsx:158 | reading a quoted field always consumes input |
| Csv.ReadLineOfPlainCells | src/pages/admin/Inquiries.tsx:158 | a line of cells without quotes reads back as those cells, commas included |
| Csv.CsvLineHasNoBreak | src/pages/admin/Inquiries.tsx:158 | a line of cells without line breaks holds no line break |
| Csv.ReadLinesOfPlainRows | src/pages/admin/Inquiries.tsx:158-159 | lines built from rows of plain cells read back as those rows |
| Csv.ReadCsvOfPlainRows | src/pages/admin/Inquiries.tsx:144-159 | the text of plain rows has one line per row and reads back as exactly those rows |
| Csv.EmbeddedQuoteIsLost | src/pages/admin/Inquiries.tsx:158 | a cell holding one double quote is written as three quotes, which do not read back as that cell |
| Csv.EscapeQuotes | src/pages/admin/Inquiries.tsx:158 | escaping never shortens a cell and leaves cells without quotes unchanged |
| Csv.ReadQuotedEscaped | src/pages/admin/Inquiries.tsx:158 | an escaped field reads back as the original cell, quotes included |
| Csv.ReadEscapedLine | src/pages/admin/Inquiries.tsx:158 | with quotes doubled, every line of cells reads back as those cells |
| Csv.EscapedLineAgreesOnPlainCells | src/pages/admin/Inquiries.tsx:158 | for cells without quotes the escaped line equals the line written today |
| Inquiries.FetchedInquiries | src/pages/admin/Inquiries.tsx:60-64 | "all" fetches the whole table; any other value, exactly the rows whose status has that name |
| Inquiries.FetchedInquiriesKeepOrder | src/pages/admin/Inquiries.tsx:60-64 | the fetch keeps the table's order |
| Inquiries.FilteredInquiries | src/pages/admin/Inquiries.tsx:170-176 | an inquiry is listed exactly when its name, e-mail, company or product (if present) contains the query, ignoring case |
| Inquiries.FilteredInquiriesKeepOrder | src/pages/admin/Inquiries.tsx:170-176 | the search keeps the list order; an empty query lists everything |
| Inquiries.DecimalDigitsValue | src/pages/admin/Inquiries.tsx:152 | a natural number's decimal digits spell it back |
| Inquiries.DecimalStringValue | src/pages/admin/Inquiries.tsx:152 | an integer's string is a minus sign exactly when it is negative, then digits that spell its magnitude |
| Inquiries.QuantityCell | src/pages/admin/Inquiries.tsx:152 | the quantity cell is empty exactly when the quantity is null; zero exports as "0" |
| Inquiries.InquiryCells | src/pages/admin/Inquiries.tsx:146-156 | nine cells in header order; null phone, company, product or priority is an empty cell |
| Inquiries.ExportRows | src/pages/admin/Inquiries.tsx:144-157 | the header, then one row per fetched inquiry in list order |
| Inquiries.ExportReadsBack | src/pages/admin/Inquiries.tsx:143-159 | the export has one line more than the fetched list and reads back as header plus rows, when no cell holds a quote or line break |
| Inquiries.Seed | src/pages/admin/Inquiries.tsx:85-86 | a null note or date seeds the field with "" |
| Inquiries.SeedThenSaveRoundTrip | src/pages/admin/Inquiries.tsx:83-133 | opening and saving at once writes back the stored values, except that an empty date becomes null and a null note becomes "" |
| Inquiries.InquiriesPage.constructor | src/pages/admin/Inquiries.tsx:48-56 | the page's initial state, filter "all" |
| Inquiries.InquiriesPage.Fetch | src/pages/admin/Inquiries.tsx:58-76 | on success the list is the status-filtered table; loading ends |
| Inquiries.InquiriesPage.ChangeStatusFilter | src/pages/admin/Inquiries.tsx:78-81 | a new filter fetches again under it |
| Inquiries.InquiriesPage.OpenDetail | src/pages/admin/Inquiries.tsx:83-88 | the detail opens on the inquiry, with notes and date seeded |
| Inquiries.InquiriesPage.StatusChange | src/pages/admin/Inquiries.tsx:90-105 | on success the rows with the id take the status, and the open detail follows only if its id matches |
| Inquiries.InquiriesPage.PriorityChange | src/pages/admin/Inquiries.tsx:107-118 | on success the rows with the id take the priority |
| Inquiries.InquiriesPage.SaveNotes | src/pages/admin/Inquiries.tsx:120-141 | no selection: nothing; otherwise one update of notes and date (or null), mirrored into the detail on success; saving ends |
| Settings.ValidatePasswordChange | src/pages/admin/Settings.tsx:21-29 | mismatch exactly when the fields differ; too short exactly when they agree and are under six code units; otherwise accepted |
| Settings.RegisteredPasswordsAreChangeable | src/pages/admin/Settings.tsx:21-29 | a password the registration form accepts passes the password change |
| Settings.BlankPasswordOnlyChangeable | src/pages/admin/Settings.tsx:21-29 | six spaces pass the password change but are reported missing at registration |
| Settings.SettingsPage.constructor | src/pages/admin/Settings.tsx:14-16 | empty fields, not updating |
| Settings.SettingsPage.UpdatePassword | src/pages/admin/Settings.tsx:18-48 | a failed check changes nothing; otherwise the account takes the password and both fields clear on success, the fields stay on failure; updating ends |
| Layout.PendingCountOf | src/components/admin/AdminLayout.tsx:46 | a missing count shows as 0, a present one as itself |
| Layout.NavLinksAreGuardedPaths | src/components/admin/AdminLayout.tsx:25-31 | the five links are the guarded routes, in order |
| Layout.AtMostOneActive | src/components/admin/AdminLayout.tsx:97 | at most one item is highlighted, and one is exactly when the path is a guarded route |
| Layout.BadgeAndChevron | src/components/admin/AdminLayout.tsx:98-117 | the badge shows only on "Approvals" with a positive count, and never together with the chevron |
| Layout.BadgeMeansPendingRequests | src/components/admin/AdminLayout.tsx:40-98 | the badge shows exactly when some request is pending |
| Layout.Shell.constructor | src/components/admin/AdminLayout.tsx:37-38 | count 0, sidebar shut |
| Layout.Shell.CountArrived | src/components/admin/AdminLayout.tsx:41-47 | the count becomes the backend's, or 0 when missing |
| Layout.Shell.SetSidebar | src/components/admin/AdminLayout.tsx:70-89 | the sidebar takes the requested state |
| Layout.Shell.Follow | src/components/admin/AdminLayout.tsx:100-108 | following a link moves to its page, highlights it, and shuts the sidebar |
| Layout.Shell.SignOut | src/components/admin/AdminLayout.tsx:63-66 | the session ends and the path becomes the public sign-in page |
| Strings.IncludesOccurs | src/pages/admin/Products.tsx:226 | `includes` holds exactly when the needle occurs at some index |
| Strings.ContainsIgnoreCaseMeaning | src/pages/admin/Products.tsx:226 | the search compares lower-cased text only: a match is an occurrence of the lower-cased query in the lower-cased text |
| Strings.TrimEmptyIffBlank | src/pages/admin/Products.tsx:152 | a trimmed string is empty exactly when every character is white space |
| Strings.Utf16Length | src/pages/admin/Register.tsx:33 | the length lies between the number of characters and twice that, and equals it inside the Basic Multilingual Plane |
| Strings.SplitJoin | src/pages/admin/Products.tsx:120 | joining pieces without the separator and splitting again gives the pieces back |
| Strings.LastSegment | src/pages/admin/Products.tsx:120 | the text after the last separator (all of it if none): a suffix without the separator |
| Strings.LastSegmentAfter | src/pages/admin/Products.tsx:120 | the last segment of `a.y` is `y` when `y` has no dot |

## Left out

- Backend calls are not modelled. Table queries, authentication, storage upload and public URL
  are replaced by table fields and answer parameters. Ordering by `created_at` is kept as table order.
- The reload a handler starts after a write is a separate `Fetch…` call, not part of the handler.
- The realtime subscription that re-counts pending requests is left out. `Layout.Shell.CountArrived` is its result.
- Interleaving of asynchronous handlers is not modelled. Races between `init` and the
  auth-change callback, and two reviewers approving at once, are left out. Each handler runs
  to completion; the session store keeps its `await` points as separate steps.
- `ProtectedRoute` is not part of this model. Only which routes request it is modelled.
- The dashboard page is left out: it shows remote counts and fixed display values.
- UI primitives, styling, animation and layout are left out.
- Toasts that handlers show are left out. `SubmitOutcome`, `ReviewOutcome` and the other outcome types name the path taken instead.
- Values from the clock and random generator are parameters: ids, the upload's file name
  (`stamp`), and timestamps (`now`).
- `toLocaleDateString` is the `formatDate` parameter.
- Browser side effects are left out: `window.open`, the `Blob` download, `console.error`, and
  clearing the file input. `confirm()` is the `confirmed` parameter. The 3500 ms toast timer is the `Dismiss` call.
- Products.Falsy: numbers are `NaN` or a real value; negative zero and floating-point rounding are not modelled.
- Inquiries.QuantityCell: the quantity is an integer, so fractional numbers and JavaScript's exponent notation are not modelled.
- Strings.Lower: lower-casing covers ASCII only; Unicode case folding is not modelled.
- Strings.Utf16Length: strings are sequences of Unicode scalar values, so lone surrogates are not modelled.
- Routes.Resolve: paths are compared as given; the router's case and trailing-slash normalisation is not modelled.
- Toasts.MakeToast: an input whose variant is present but explicitly `undefined` overrides the default in JavaScript; the model treats it as absent.
- Registration.RegisterPage.Send: a failing sign-out after success is not modelled.
- Schema.StoredRequest: the column default for a left-out status is a parameter, because the
  backend schema is not part of this model.
- Column triggers such as `updated_at` maintenance are not modelled: an update keeps the stored timestamps.
- Products.Payload: it requires name and category to be present, which the guard ensures; the untyped form fields of the source are not modelled.
- The product `certifications` column is never written by the payload and stays as stored.
- Inquiries.InquiriesPage.Export: the export reads the page's list and has no contract of its own; `Inquiries.ExportReadsBack` states what the text means.
- The escaped CSV writer is a corrected definition beside the export. The export itself keeps
  the code's behaviour, and the corrected reader covers one line, since quoted line breaks are
  outside the line-based reader.

## Findings

| source | as written | input that shows it | evidently intended | confidence | as-written member | corrected member |
|---|---|---|---|---|---|---|
| src/pages/admin/Inquiries.tsx:158 | each cell is wrapped in double quotes with embedded quotes left as they are | an inquiry whose name is `"` is written as `"""`, which an RFC 4180 reader does not read back as that name | embedded quotes doubled, as section 2, item 7 of RFC 4180 requires, so every cell reads back | medium, not executed | Csv.EmbeddedQuoteIsLost | Csv.ReadEscapedLine |
