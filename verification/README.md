# Ticket resolution system: a verified model of its decision logic

The ticket resolution system is a help desk. Users submit tickets as text or
as screenshots. A Python backend classifies and stores them, and a React front
end lets users and administrators sign up, log in and work with tickets.
This project models in Dafny the parts of the system that make exact
decisions, and proves what those decisions guarantee:

- `clean_text`, the backend's text normaliser: lower-case the text, remove
  links, remove special characters, then collapse and strip white space.
- `GET /tickets/all`, which tags the text tickets and the image tickets and
  merges them into one envelope with a total.
- The admin dashboard's ticket view: statistics, the search and selector
  filters, and the local update after an admin solution has been saved.
- The text ticket form and the image ticket form: validation, the submit
  gate, per-field error clearing, the image media-type gate and the
  multipart payload.
- The ticket card: priority and type styling, the badge texts, and the admin
  note editor.
- The sign-up page: password-strength score and buckets, storage writes and
  role dispatch.
- The login page: the response check, `login`, then role dispatch.
- The authentication context: a session with three state fields and a
  persisted record, changed by init, login and logout.
- The protected route guard.

Modules follow the source files. There are also four shared modules:

- `Wrappers`: optional values and JavaScript truthiness.
- `Text`: character classes, ASCII case mapping, JavaScript `trim`, and
  Python's and JavaScript's white-space sets.
- `Tickets`: the ticket record the front end receives.
- `Roles`: the trimmed, lower-cased role dispatch that sign-up and login share.

Stateful components are classes whose fields are the component's state. The
decisions they make are functions, and lemmas relate those functions.

## Model

| member | source | states |
|---|---|---|
| Text.Lower | backend/utils/preprocess.py:6 | every character is mapped to lower case and the length is kept |
| Text.Upper | src/components/dashboard/TicketCard.jsx:75 | every character is mapped to upper case and the length is kept |
| Text.LowerIdempotent | backend/utils/preprocess.py:6 | lower-casing twice is lower-casing once |
| Text.TrimStart | src/pages/Login.jsx:56 | the result starts with no white space and only white space was removed in front |
| Text.TrimEnd | src/pages/Login.jsx:56 | the result ends with no white space and only white space was removed at the back |
| Text.Trim | src/components/forms/TextTicketForm.jsx:17 | the trimmed text neither starts nor ends with JavaScript white space |
| Text.TrimStartSuffix | src/pages/Login.jsx:56 | trimming the front keeps a suffix of the string |
| Text.TrimEndPrefix | src/pages/Login.jsx:56 | trimming the back keeps a prefix of the string |
| Text.BlankIffAllSpace | src/components/forms/TextTicketForm.jsx:17 | `!s.trim()` holds exactly when every character is white space |
| Text.TrimLowerCommute | src/pages/Signup.jsx:114 | trimming then lower-casing equals lower-casing then trimming |
| Text.TrimIdempotent | src/pages/Signup.jsx:114 | trimming twice is trimming once |
| Preprocess.RunLength | backend/utils/preprocess.py:7 | the greedy `\S+` reaches exactly to the first white-space character |
| Preprocess.StripLinks | backend/utils/preprocess.py:7 | link removal never lengthens the text |
| Preprocess.StripLinksLinkFree | backend/utils/preprocess.py:7 | after link removal no `http` followed by a non-white character is left anywhere |
| Preprocess.StripLinksFixpoint | backend/utils/preprocess.py:7 | text without a link is left unchanged by link removal |
| Preprocess.StripLinksIdempotent | backend/utils/preprocess.py:7 | removing links twice is removing them once |
| Preprocess.StripLinksPrefix | backend/utils/preprocess.py:7 | a leading non-white stretch of the output is copied from the input unchanged |
| Preprocess.OutsideLinks | backend/utils/preprocess.py:7 | the reference meaning of the link pass: the characters from a position on that lie in no `http\S+` match, in order |
| Preprocess.InLinkIff | backend/utils/preprocess.py:7 | a position lies inside a `http\S+` match exactly when a link starts at or before it with no white character in between |
| Preprocess.StripLinksDeletesLinks | backend/utils/preprocess.py:7 | the link pass deletes exactly the characters inside a `http\S+` match (a link start at or before them with no white space in between) and keeps every other character, in order |
| Preprocess.StripLinksFrom | backend/utils/preprocess.py:7 | from any position that no earlier match reaches, the scan of the rest agrees with the reference meaning |
| Preprocess.RemoveSpecials | backend/utils/preprocess.py:8 | special-character removal never lengthens the text |
| Preprocess.RemoveSpecialsOnlyKept | backend/utils/preprocess.py:8 | only ASCII letters, digits and white space survive the second pass |
| Preprocess.RemoveSpecialsFixpoint | backend/utils/preprocess.py:8 | text made only of letters, digits and white space is unchanged |
| Preprocess.RemoveSpecialsAppend | backend/utils/preprocess.py:8 | the pass works character by character: it distributes over concatenation |
| Preprocess.NonWhiteSpecials | backend/utils/preprocess.py:8 | the non-white characters the pass keeps are exactly the ASCII letters and digits of its input, in order |
| Preprocess.Collapse | backend/utils/preprocess.py:9 | the only white character left is the plain space, never two white characters are adjacent, and the output starts with white space exactly when the input does |
| Preprocess.CollapseRun | backend/utils/preprocess.py:9 | a non-empty white-space run collapses to one space |
| Preprocess.CollapseAppend | backend/utils/preprocess.py:9 | collapsing works run by run: collapsing two pieces cut outside a white-space run and joining them equals collapsing the whole, so each maximal run becomes one space |
| Preprocess.CollapseKeepsWords | backend/utils/preprocess.py:9 | collapsing keeps every non-white character, in order, and changes only white space |
| Preprocess.CollapseFixpoint | backend/utils/preprocess.py:9 | text whose only white characters are single spaces is unchanged |
| Preprocess.StripStart | backend/utils/preprocess.py:9 | the result does not start with Python white space and is never longer |
| Preprocess.StripStartIs | backend/utils/preprocess.py:9 | when the first n characters are white and the next is not, exactly those n are removed |
| Preprocess.StripStartDropsWhite | backend/utils/preprocess.py:9 | only white characters are removed from the front |
| Preprocess.StripStartAppend | backend/utils/preprocess.py:9 | when the first piece holds a non-white character, stripping the front of a concatenation only touches that piece |
| Preprocess.StripEnd | backend/utils/preprocess.py:9 | the result does not end with Python white space, keeps the first character, and is never longer |
| Preprocess.NonWhiteStripStart | backend/utils/preprocess.py:9 | stripping the front removes white space only |
| Preprocess.NonWhiteStripEnd | backend/utils/preprocess.py:9 | stripping the back removes white space only |
| Preprocess.Strip | backend/utils/preprocess.py:9 | the stripped text neither starts nor ends with Python white space |
| Preprocess.StripSlice | backend/utils/preprocess.py:9 | `strip()` returns a contiguous slice of its argument |
| Preprocess.CleanText | backend/utils/preprocess.py:5-10 | the output is never longer than the input |
| Preprocess.Normalized | backend/utils/preprocess.py:5-10 | normalized text holds no upper-case letter and no white character other than the plain space |
| Preprocess.CleanTextNormalized | backend/utils/preprocess.py:5-10 | every output character is in `[a-z0-9 ]`, with no leading or trailing space and no two spaces in a row |
| Preprocess.CleanTextWords | backend/utils/preprocess.py:5-10 | apart from spaces, the output is exactly the ASCII letters and digits of the lower-cased input that lie in no link, in order |
| Preprocess.BlankCleansToEmpty | backend/utils/preprocess.py:5-10 | empty or all-white input cleans to the empty string |
| Preprocess.CleanFixpointIfLinkFree | backend/utils/preprocess.py:5-10 | cleaning is idempotent on inputs whose cleaned form contains no link |
| Preprocess.CleanNotIdempotent | backend/utils/preprocess.py:7-8 | "ht!tpx"-shaped input (an ASCII special character third) cleans to "httpx", and cleaning that again gives "" |
| Preprocess.LinksBeforeSpecials | backend/utils/preprocess.py:7-8 | "http" followed by ASCII punctuation is removed whole, whereas the passes in the other order would leave "http" |
| AllTicketsRoutes.PyStr | backend/routes/all_tickets_routes.py:33 | `str()` of a missing value is "None"; a present string is kept |
| AllTicketsRoutes.Get | backend/routes/all_tickets_routes.py:46-53 | `doc.get(key)` is present exactly when the document has the key |
| AllTicketsRoutes.PgEntry | backend/routes/all_tickets_routes.py:24-34 | as intended: a text entry keeps the integer id, has source "text", copies the columns and stringifies `created_at` |
| AllTicketsRoutes.MongoEntry | backend/routes/all_tickets_routes.py:43-54 | an image entry has the string id, source "image" and each field read with `get` |
| AllTicketsRoutes.PostgresData | backend/routes/all_tickets_routes.py:23-36 | as intended: one entry per row, in row order |
| AllTicketsRoutes.PostgresDataAsWritten | backend/routes/all_tickets_routes.py:23-36 | as written the comprehension finishes only on an empty table, because reading `created_at` raises for every row |
| AllTicketsRoutes.MongoData | backend/routes/all_tickets_routes.py:41-54 | the loop produces one entry per document, in document order |
| AllTicketsRoutes.GetAllTickets | backend/routes/all_tickets_routes.py:19-61 | as intended: the envelope holds both lists in order, every entry is tagged with its source, and the total is the sum of the two lengths |
| AllTicketsRoutes.GetAllTicketsAsWritten | backend/routes/all_tickets_routes.py:19-61 | as written the handler raises `AttributeError` exactly when the tickets table has a row; on an empty table it returns the image tickets alone, with their count as the total |
| AllTicketsRoutes.OneTextTicketBreaksListing | backend/routes/all_tickets_routes.py:33 | a single text ticket makes the written handler fail, while the intended one lists it first with its integer id |
| AllTicketsRoutes.AllTickets | backend/routes/all_tickets_routes.py:57-61 | the merged list holds exactly the entries of the two lists, and its length is the total |
| AllTicketsRoutes.SourcesNeverShareIds | backend/routes/all_tickets_routes.py:23-54 | a text ticket and an image ticket never have equal ids |
| AllTicketsRoutes.SourceTellsOrigin | backend/routes/all_tickets_routes.py:23-54 | in the merged list, the source tag tells which list an entry came from |
| AdminDashboard.Filter | src/pages/AdminDashboard.jsx:65 | filtering never lengthens the list |
| AdminDashboard.FilterMembers | src/pages/AdminDashboard.jsx:65 | a ticket is in the result exactly when it is in the input and passes the test |
| AdminDashboard.FilterIsSubseq | src/pages/AdminDashboard.jsx:65 | the result is an order-preserving subsequence of the input |
| AdminDashboard.FilterFilter | src/pages/AdminDashboard.jsx:60-81 | two successive filters are one filter by the conjunction |
| AdminDashboard.FilterCommute | src/pages/AdminDashboard.jsx:60-81 | two successive filters may be applied in either order |
| AdminDashboard.FilterAppend | src/pages/AdminDashboard.jsx:65 | filtering distributes over concatenation |
| AdminDashboard.CalculateStats | src/pages/AdminDashboard.jsx:48-56 | the total is the list length and no bucket exceeds it |
| AdminDashboard.EmptyStats | src/pages/AdminDashboard.jsx:48-56 | an empty list gives all-zero statistics |
| AdminDashboard.BucketsWithinTotal | src/pages/AdminDashboard.jsx:51-55 | high + medium + low and software + hardware never exceed the total |
| AdminDashboard.StatsAppend | src/pages/AdminDashboard.jsx:48-56 | the statistics of a concatenation are the sums of the parts' statistics |
| AdminDashboard.SingleTicketStats | src/pages/AdminDashboard.jsx:51-55 | a ticket counts in a bucket exactly when its field equals that key, case-sensitively |
| AdminDashboard.UnknownOnlyInTotal | src/pages/AdminDashboard.jsx:50-55 | a ticket with an unknown priority and type raises only the total |
| AdminDashboard.MatchesSearch | src/pages/AdminDashboard.jsx:65-68 | a ticket with neither subject nor body never matches |
| AdminDashboard.SearchIgnoresCase | src/pages/AdminDashboard.jsx:65-68 | upper- or lower-casing the term, the subject or the body never changes whether a ticket matches |
| AdminDashboard.SearchStage | src/pages/AdminDashboard.jsx:64-69 | an empty term passes the list through; otherwise exactly the listed tickets that match are kept |
| AdminDashboard.PriorityStage | src/pages/AdminDashboard.jsx:72-74 | "all" passes the list through; otherwise exactly the listed tickets with that priority are kept |
| AdminDashboard.TypeStage | src/pages/AdminDashboard.jsx:77-79 | "all" passes the list through; otherwise exactly the listed tickets with that type are kept |
| AdminDashboard.SearchStageIsFilter | src/pages/AdminDashboard.jsx:64-69 | the search stage is a filter that passes everything when the term is empty |
| AdminDashboard.PriorityStageIsFilter | src/pages/AdminDashboard.jsx:72-74 | the priority stage is a filter that passes everything when the selector is "all" |
| AdminDashboard.TypeStageIsFilter | src/pages/AdminDashboard.jsx:77-79 | the type stage is a filter that passes everything when the selector is "all" |
| AdminDashboard.ApplyFilters | src/pages/AdminDashboard.jsx:60-81 | the filtered list is never longer than the ticket list |
| AdminDashboard.ApplyFiltersMembers | src/pages/AdminDashboard.jsx:60-81 | a ticket is shown exactly when it is in the list and passes the search, the priority and the type conditions |
| AdminDashboard.ApplyFiltersIsOneFilter | src/pages/AdminDashboard.jsx:60-81 | the three stages together are one filter by the conjunction of their conditions |
| AdminDashboard.FilteredIsSubseq | src/pages/AdminDashboard.jsx:60-81 | the filtered list is an order-preserving subsequence of the ticket list |
| AdminDashboard.DefaultsShowEverything | src/pages/AdminDashboard.jsx:60-81 | an empty search with both selectors at "all" shows the whole list |
| AdminDashboard.FilterOrderIrrelevant | src/pages/AdminDashboard.jsx:64-79 | applying the three stages in reverse order gives the same list |
| AdminDashboard.WithSolution | src/pages/AdminDashboard.jsx:89-91 | a ticket with the given id gets the new admin solution; any other ticket is unchanged |
| AdminDashboard.SetAdminSolution | src/pages/AdminDashboard.jsx:88-92 | the list keeps its length |
| AdminDashboard.SetAdminSolutionEffect | src/pages/AdminDashboard.jsx:88-92 | position by position, only tickets with the id change, and only in their admin solution |
| AdminDashboard.UpdateKeepsStats | src/pages/AdminDashboard.jsx:88-92 | an admin-solution update never changes the statistics |
| AdminDashboard.UpdateCommutesWithFilters | src/pages/AdminDashboard.jsx:84-92 | updating then filtering equals filtering then updating |
| AdminDashboard.SetAdminSolutionIdempotent | src/pages/AdminDashboard.jsx:88-92 | applying the same update twice is applying it once |
| AdminDashboard.Dashboard.constructor | src/pages/AdminDashboard.jsx:8-22 | the initial state is an empty list, zero statistics, loading, no error and neutral filters |
| AdminDashboard.Dashboard.FetchTickets | src/pages/AdminDashboard.jsx:32-46 | on success the list, statistics and filtered list are replaced; on failure the list and statistics are kept and the error is set; loading always ends |
| AdminDashboard.Dashboard.UpdateAdminSolution | src/pages/AdminDashboard.jsx:84-96 | the list changes only when the call succeeded; the filtered list and statistics stay in step with it |
| AdminDashboard.Dashboard.SetSearchTerm | src/pages/AdminDashboard.jsx:187 | a new search term re-filters the list; nothing else changes |
| AdminDashboard.Dashboard.SetFilterPriority | src/pages/AdminDashboard.jsx:194 | a new priority selector re-filters the list; nothing else changes |
| AdminDashboard.Dashboard.SetFilterType | src/pages/AdminDashboard.jsx:205 | a new type selector re-filters the list; nothing else changes |
| Forms.Lookup | src/components/forms/TextTicketForm.jsx:45 | `errors[name]` is present exactly when the map has the key |
| Forms.ClearError | src/components/forms/TextTicketForm.jsx:45-47 | only the named field's error becomes "", its entry stays, and the other entries are untouched |
| Forms.ClearErrorIdempotent | src/components/forms/ImageTicketForm.jsx:44-46 | clearing a field's error twice is clearing it once |
| Forms.ClearErrorKeepsEntries | src/components/forms/TextTicketForm.jsx:45-47 | clearing never turns a non-empty error map into an empty one, or the reverse |
| TextTicketForm.ValidationErrors | src/components/forms/TextTicketForm.jsx:14-27 | a field has an error exactly when it is blank or its untrimmed length is below 5 (subject) or 10 (body) |
| TextTicketForm.ValidationMessages | src/components/forms/TextTicketForm.jsx:17-27 | a blank field gets the "required" message; otherwise it gets the minimum-length message |
| TextTicketForm.ValidIff | src/components/forms/TextTicketForm.jsx:14-30 | the form is valid exactly when both fields have a non-white character and reach their minimum lengths |
| TextTicketForm.BlankSubjectIsRequired | src/components/forms/TextTicketForm.jsx:17-18 | a white-space-only subject gets "Subject is required", however long it is |
| TextTicketForm.PaddedSubjectPasses | src/components/forms/TextTicketForm.jsx:19-20 | the length check counts padding, so a padded short subject passes |
| TextTicketForm.ShortSubjectExample | src/components/forms/TextTicketForm.jsx:19-27 | subject "Hi" with body "short desc here" reports only the short subject |
| TextTicketForm.TextTicketForm.constructor | src/components/forms/TextTicketForm.jsx:6-12 | all three fields start empty, with no errors |
| TextTicketForm.TextTicketForm.ValidateForm | src/components/forms/TextTicketForm.jsx:14-31 | earlier errors are replaced by the fresh map, and the answer is whether that map is empty |
| TextTicketForm.TextTicketForm.HandleSubmit | src/components/forms/TextTicketForm.jsx:33-38 | the form data go to the callback exactly when validation passes |
| TextTicketForm.TextTicketForm.HandleChange | src/components/forms/TextTicketForm.jsx:40-48 | only the named field changes, and only its error is cleared |
| ImageTicketForm.ValidationErrors | src/components/forms/ImageTicketForm.jsx:16-21 | a field has an error exactly when subject or body is blank or the image is missing; there are no length minimums |
| ImageTicketForm.ValidationMessages | src/components/forms/ImageTicketForm.jsx:19-21 | each missing field gets its "required" message |
| ImageTicketForm.ValidIff | src/components/forms/ImageTicketForm.jsx:16-24 | the form is valid exactly when subject and body have a non-white character and an image is present |
| ImageTicketForm.Payload | src/components/forms/ImageTicketForm.jsx:30-36 | subject and body come first and the image last, with three parts or four when there is an admin solution |
| ImageTicketForm.AdminSolutionSentIffNonEmpty | src/components/forms/ImageTicketForm.jsx:33-35 | an admin_solution part is sent exactly when the admin solution is non-empty, and it carries that value |
| ImageTicketForm.MediaTypeGate | src/components/forms/ImageTicketForm.jsx:50 | a file is accepted exactly when its type starts with "image/"; no file is never accepted |
| ImageTicketForm.ImageTicketForm.constructor | src/components/forms/ImageTicketForm.jsx:6-14 | the text fields start empty, with no image, no preview and no errors |
| ImageTicketForm.ImageTicketForm.ValidateForm | src/components/forms/ImageTicketForm.jsx:16-25 | the error map is replaced by the fresh one, and the answer is whether it is empty |
| ImageTicketForm.ImageTicketForm.HandleSubmit | src/components/forms/ImageTicketForm.jsx:27-39 | a payload is built exactly when validation passes, and it is the payload of the current fields |
| ImageTicketForm.ImageTicketForm.HandleChange | src/components/forms/ImageTicketForm.jsx:41-47 | only the named field changes, and only its error is cleared; the image and the preview are kept |
| ImageTicketForm.ImageTicketForm.HandleImageChange | src/components/forms/ImageTicketForm.jsx:49-59 | an accepted file becomes the image and its data URL the preview, clearing only the image error; a rejected file changes nothing |
| ImageTicketForm.ImageTicketForm.RemoveImage | src/components/forms/ImageTicketForm.jsx:81-84 | image and preview are cleared; the text fields and errors are untouched |
| TicketCard.Key | src/components/dashboard/TicketCard.jsx:29 | the lookup key is the lower-cased value, and a missing value has no key |
| TicketCard.GetPriorityConfig | src/components/dashboard/TicketCard.jsx:11-30 | "high" and "low" in any letter case pick their style; anything else, or nothing, gets the medium style |
| TicketCard.GetTypeConfig | src/components/dashboard/TicketCard.jsx:32-50 | "software" and "hardware" in any letter case pick their style; anything else is "General" |
| TicketCard.LookupsIgnoreCase | src/components/dashboard/TicketCard.jsx:11-50 | lower-casing or upper-casing the value never changes either style |
| TicketCard.GetPriorityConfigAsWritten | src/components/dashboard/TicketCard.jsx:29 | the object-literal lookup returns an inherited member exactly for the keys "constructor" and "__proto__" |
| TicketCard.GetTypeConfigAsWritten | src/components/dashboard/TicketCard.jsx:45-49 | the same holds for the type lookup |
| TicketCard.AsWrittenAgreesElsewhere | src/components/dashboard/TicketCard.jsx:11-50 | away from those two keys, the written lookups agree with the corrected ones |
| TicketCard.ConstructorPriorityHasNoStyle | src/components/dashboard/TicketCard.jsx:29 | priority "Constructor" gets an inherited member rather than the medium style |
| TicketCard.ProtoTypeHasNoStyle | src/components/dashboard/TicketCard.jsx:45 | type "__PROTO__" gets an inherited member rather than "General" |
| TicketCard.PriorityLabel | src/components/dashboard/TicketCard.jsx:75 | the badge is the upper-cased priority, or "MEDIUM" when the priority is missing or empty |
| TicketCard.UnknownPriorityBadge | src/components/dashboard/TicketCard.jsx:75 | an unknown priority keeps its own text on the badge but takes the medium style |
| TicketCard.AdminNotesText | src/components/dashboard/TicketCard.jsx:156 | the note shown is the admin solution, or the placeholder when there is none |
| TicketCard.ShowsResolved | src/components/dashboard/TicketCard.jsx:167-172 | the badge needs a present, non-empty resolution; an empty one shows no badge |
| TicketCard.SavedNoteShown | src/components/dashboard/TicketCard.jsx:150-172 | a saved note is shown, and neither the "Resolved" marker nor the priority style changes |
| TicketCard.TicketCardState.constructor | src/components/dashboard/TicketCard.jsx:8-9 | not editing, and the draft starts as the saved note or "" |
| TicketCard.TicketCardState.ToggleEdit | src/components/dashboard/TicketCard.jsx:123 | the button only flips the mode; a cancelled draft is kept |
| TicketCard.TicketCardState.EditDraft | src/components/dashboard/TicketCard.jsx:131-136 | typing, possible only in edit mode, replaces the draft and keeps the mode |
| TicketCard.TicketCardState.Save | src/components/dashboard/TicketCard.jsx:52-57 | the callback, if there is one, receives the ticket id and the draft; edit mode always ends |
| Roles.Path | src/pages/Login.jsx:57-61 | the admin route navigates to "/admin-dashboard" and the user route to "/user-dashboard", and to no other |
| Roles.NormalizeRole | src/pages/Signup.jsx:114 | the normalised role has no surrounding white space and no upper-case letter |
| Roles.Destination | src/pages/Login.jsx:56-63 | the admin dashboard exactly for a normalised "admin", the user dashboard exactly for "user", otherwise none |
| Roles.NormalizeIdempotent | src/pages/Signup.jsx:114 | normalising twice is normalising once |
| Roles.DestinationOfNormalized | src/pages/Signup.jsx:114-120 | dispatch on an already normalised role gives the same destination |
| Roles.PaddedAdminExample | src/pages/Login.jsx:56-58 | " Admin " is sent to the admin dashboard |
| Roles.PaddedTrim | src/pages/Login.jsx:56 | trimming removes exactly the white padding around a core that has no padding of its own |
| Signup.CriteriaMet | src/pages/Signup.jsx:69-72 | at most four criteria are met |
| Signup.PasswordStrength | src/pages/Signup.jsx:67-74 | the score is 25 per criterion met, so it is always 0, 25, 50, 75 or 100 |
| Signup.AppendNeverLowers | src/pages/Signup.jsx:69-72 | appending a character never lowers the score |
| Signup.ExtendNeverLowers | src/pages/Signup.jsx:69-72 | appending any suffix never lowers the score |
| Signup.StrengthExamples | src/pages/Signup.jsx:67-74 | "password" scores 25 and "Passw0rd!" scores 100 |
| Signup.StrengthColor | src/pages/Signup.jsx:82-87 | red below 25, orange from 25, yellow from 50, green from 75, each exactly on its range |
| Signup.StrengthText | src/pages/Signup.jsx:89-94 | Weak below 25, Fair from 25, Good from 50, Strong from 75, each exactly on its range |
| Signup.TextAndColorAgree | src/pages/Signup.jsx:82-94 | two scores share a strength text exactly when they share a colour |
| Signup.TextOfPassword | src/pages/Signup.jsx:89-94 | no criterion gives Weak, one Fair, two Good, three or more Strong |
| Signup.Stored | src/pages/Signup.jsx:105-107 | a missing field is stored as "undefined" |
| Signup.SignupWrites | src/pages/Signup.jsx:105-107 | a successful call writes token, role and username and keeps every other key; a failed call writes nothing |
| Signup.SignupDecision | src/pages/Signup.jsx:114-127 | navigation happens exactly for a recognised role, otherwise the matching error is shown |
| Signup.InvalidRoleIsPersisted | src/pages/Signup.jsx:105-123 | an unrecognised role is still stored, while the page reports it as invalid |
| Signup.SignupPage.constructor | src/pages/Signup.jsx:56-63 | no error, not loading, no navigation, and the given storage |
| Signup.SignupPage.HandleSubmit | src/pages/Signup.jsx:96-131 | storage, error and navigation follow the write and the decision; loading ends on every path |
| AuthContext.InitStep | src/context/AuthContext.jsx:11-18 | a stored record with a token and a role restores the session with the role lower-cased; otherwise nothing changes |
| AuthContext.LoginStep | src/context/AuthContext.jsx:20-25 | login sets the user, sets authenticated, and sets the role lower-cased |
| AuthContext.LogoutStep | src/context/AuthContext.jsx:27-32 | logout leaves a consistent, logged-out session |
| AuthContext.InitKeepsConsistent | src/context/AuthContext.jsx:7-18 | init keeps "authenticated exactly when a user and a role are set" |
| AuthContext.LoginLogoutRoundTrip | src/context/AuthContext.jsx:20-32 | login then logout returns to the initial state, and logout is idempotent |
| AuthContext.ReloadRestoresLogin | src/context/AuthContext.jsx:11-25 | after login and a reload, the session is restored exactly when the token and the role are non-empty |
| AuthContext.ReloadAfterLogout | src/context/AuthContext.jsx:11-32 | after logout and a reload, the user stays logged out |
| AuthContext.AuthProvider.constructor | src/context/AuthContext.jsx:7-9 | the provider starts logged out over the given stored record |
| AuthContext.AuthProvider.Init | src/context/AuthContext.jsx:11-18 | the state follows the init step over the persisted record, and consistency is kept |
| AuthContext.AuthProvider.Login | src/context/AuthContext.jsx:20-25 | the record is persisted and the state is the login step |
| AuthContext.AuthProvider.Logout | src/context/AuthContext.jsx:27-32 | the record is removed and the state is logged out |
| ProtectedRoute.Guard | src/routes/ProtectedRoute.jsx:5-17 | children render exactly when authenticated and either there is no role list or the lower-cased role is in it; an empty list admits nobody |
| ProtectedRoute.LoggedOutRedirects | src/routes/ProtectedRoute.jsx:8-10 | after logout every protected page redirects to the login page |
| ProtectedRoute.NoListAdmitsAnyUser | src/routes/ProtectedRoute.jsx:12-16 | with no role list, exactly the logged-in sessions are admitted |
| ProtectedRoute.LoginAdmitsIff | src/routes/AppRoutes.jsx:19-27 | after login, a dashboard admits the user exactly when the lower-cased role is that dashboard's role |
| ProtectedRoute.DestinationAdmitted | src/routes/AppRoutes.jsx:19-27 | for an unpadded role, the dashboard chosen at login admits the user |
| ProtectedRoute.PaddedRoleBouncedBack | src/pages/Login.jsx:54-58 | role " admin" is sent to the admin dashboard, whose guard then redirects to the login page |
| Login.LoginDecision | src/pages/Login.jsx:38-70 | login is called exactly when all three fields are present, navigation happens exactly when no error is shown, and each failure path has its message |
| Login.InvalidRoleStaysLoggedIn | src/pages/Login.jsx:53-62 | with an unrecognised role the user is still logged in, but the page does not navigate |
| Login.FailureAlwaysShowsError | src/pages/Login.jsx:64-66 | when the page does not navigate, it shows a non-empty error |
| Login.LoginPage.constructor | src/pages/Login.jsx:36 | no error, not loading, no navigation |
| Login.LoginPage.HandleSubmit | src/pages/Login.jsx:38-70 | the error, the navigation and the session follow the decision, and loading always ends |

## Left out

- The API client (`src/services/api.js`) is not part of this model. Its
  outcomes enter as parameters: the fetch result, the update call's success,
  and the login and sign-up responses.
- The client writes `token`, `role` and `username` while the authentication
  context persists one `user` record. The two stores are modelled separately
  (`Signup.SignupPage.storage` and `AuthContext.AuthProvider.persisted`), and
  nothing assumes they agree.
- Rendering, JSX markup, icons, the random particle layout, the drag
  highlight (`dragActive`, `handleDrag`) and `handleDrop` are not modelled.
  `handleDrop` only forwards the first dropped file to `handleImageChange`.
- Async handlers are modelled as one atomic step each. Interleavings of
  `await` and duplicate refreshes are not modelled.
- The `FileReader` result enters `HandleImageChange` as the `dataUrl`
  parameter. Its later, asynchronous arrival is not modelled.
- The machine-learning, OCR and language-model calls are not part of this
  model. Neither are the database sessions, the FastAPI wiring or the
  pydantic schemas. The all-tickets router is not registered in
  `backend/app.py`.
- Image documents are written with `full_body` and `timestamp` but read back
  as `body` and `created_at`. `MongoEntry` models the read as written:
  those two fields are simply absent.
- `backend/db/models.py` declares no `created_at` column, yet the handler
  reads `ticket.created_at`, so as written it raises for every row (see
  Findings). `PgRow.createdAt` is the value the intended handler renders;
  the database session and the query are not modelled.
- The dashboard stores the fetch result as if it were a flat ticket array,
  while the endpoint returns the envelope. The model keeps the two separate,
  as the code does.
- Case mapping covers ASCII letters only. Python's `str.lower()` and
  JavaScript's `toLowerCase()` also map other letters, some of them onto
  ASCII: U+212A KELVIN SIGN becomes "k", and U+0130 becomes "i" followed by
  U+0307. For input holding such letters `clean_text` keeps letters that
  `Preprocess.CleanText` deletes, so `CleanTextWords` describes the model
  only. `CleanTextNormalized` holds for the real cleaner too, since its
  passes after lower-casing keep only ASCII. `CleanNotIdempotent` and
  `LinksBeforeSpecials` ask for ASCII special characters, so they hold for
  the real cleaner as well. Search, role and style comparisons are affected
  the same way for non-ASCII letters.
- Lengths are counted in characters. JavaScript's `.length` counts UTF-16
  code units, which differs only outside the Basic Multilingual Plane.
- `JSON.parse` of a malformed stored record throws. This is not modelled:
  the persisted record is either absent or well formed.
- Non-string field values, such as a numeric `role` in a response, are not
  modelled. Fields are strings or absent.
- `handlePasswordChange` only stores the password and its score, so it is
  covered by `Signup.PasswordStrength`. It has no class of its own.
- The code has no pagination, no status filter, no optimistic update with
  rollback, and no cancel button that restores the saved note; the model
  has none either.

## Findings

| source | as written | input that shows it | evidently intended | confidence | as-written member | corrected member |
|---|---|---|---|---|---|---|
| src/components/dashboard/TicketCard.jsx:29 | `configs[priority?.toLowerCase()] \|\| configs.medium` indexes a plain object literal, so a lower-cased key naming an inherited member returns that member, which is truthy | priority "Constructor" | unknown priorities get the medium style | not executed | TicketCard.GetPriorityConfigAsWritten (TicketCard.ConstructorPriorityHasNoStyle) | TicketCard.GetPriorityConfig (TicketCard.AsWrittenAgreesElsewhere) |
| src/components/dashboard/TicketCard.jsx:45 | `configs[type?.toLowerCase()] \|\| {…General…}` has the same inherited-member lookup | ticket type "__PROTO__" | unknown types are labelled "General" | not executed | TicketCard.GetTypeConfigAsWritten (TicketCard.ProtoTypeHasNoStyle) | TicketCard.GetTypeConfig (TicketCard.AsWrittenAgreesElsewhere) |
| backend/routes/all_tickets_routes.py:33 | each text entry reads `ticket.created_at`, but the mapped `Ticket` class in `backend/db/models.py` declares no such column, so the attribute lookup raises `AttributeError` | a tickets table holding any one row | list every text ticket with its creation time rendered by `str()` | not executed | AllTicketsRoutes.GetAllTicketsAsWritten | AllTicketsRoutes.GetAllTickets |
