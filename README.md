# Travel booking back office: a Dafny model

This project models the client side of a travel-agency back-office
application written in React. Employees sign in with a role. They enter
bookings through one multi-step form per booking kind: flight, hotel,
airport transfer, car rental, forex, visa and miscellaneous services. They
find and amend bookings on a unified search screen. They export bookings
to a spreadsheet or a Word document.

The modules follow the program's own structure:

- `Wrappers` holds `Option`, the request and outcome types, and JavaScript's `||` on values that may be missing or empty.
- `Text` holds the string operations the code relies on: trimming, case mapping, `includes`, `split`, `replace`.
- `Records` holds the booking record, the object spread, and the table of booking kinds with their tags and collections.
- `Auth` holds the role and permission table and the sign-in and sign-out steps.
- `SearchFilter` holds the client-side filter predicates of the search screen.
- `FederatedSearch` holds the fan-out over every booking kind. For a kind, a ticket-ID search uses its search endpoint and falls back to filtering the kind's list. The combined results are compacted and given a type.
- `SearchSession` is the search screen as a class. It covers the connectivity probe, the search step with its local fallback, selection, editing, and the write-back that replaces the edited record in the shown results.
- `BookingStore` is the application's store of every booking and of each kind's list. It covers adding and updating records under the role's permissions, and which records each tab exports.
- `WordExport` holds the Word export: `safeGet` over JSON values, the cell texts, the basic information table, the file name and the error classification.
- `FormKit` holds what the booking forms share: the tab wizard with its rules, the booking ID generator, the required-field check, the lists of repeated entries and the submit timestamps.
- `FlightForm`, `HotelForm`, `TransferForm`, `CarRentalForm`, `ForexForm`, `VisaForm` and `MiscForm` each model one form as a class. Each covers the fields, the prefill from an edited record, the wizard moves, the payload, the request, and the state after a reply.

Several things are outside the model's reach and become inputs:

- Remote calls become outcome values passed in, so the model never talks to a server.
- The clock becomes a `now` parameter.
- Random picks for booking IDs become bounded index sequences.
- Browser prompts become their answers.

Where the system's design description and its code disagree, the model
follows the code:

- In the search screen, the backend search can never fail. Every per-kind failure is caught inside it. So the local fallback after a failed backend search is dead code in the source. The model keeps that branch reachable through the `RunSearch` outcome and proves what it does.
- After a remote update succeeds, the search screen commits the server's reply as returned. It does not add a `lastModified` stamp to the reply.

## Model

| member | source | states |
|---|---|---|
| Wrappers.Or | src/components/Search.jsx:40 | the JavaScript or on strings: `a` when it is present and non-empty, else `b` |
| Wrappers.OrElse | src/components/AuthenticationSystem.jsx:47 | `a` or a literal default: the literal exactly when `a` is missing or empty |
| Text.TrimStart | src/components/Search.jsx:98 | the result is a suffix of the input and does not start with white space |
| Text.TrimStartRemovesSpace | src/components/Search.jsx:98 | every character the leading trim removes is white space |
| Text.TrimEnd | src/components/Search.jsx:98 | the result is a prefix of the input and does not end with white space |
| Text.TrimEndRemovesSpace | src/components/Search.jsx:98 | every character the trailing trim removes is white space |
| Text.BlankIffAllSpace | src/components/Search.jsx:96 | `!s.trim()` holds exactly when every character of `s` is white space |
| Text.Lower | src/components/Search.jsx:98 | `toLowerCase` keeps the length and maps each character by itself (ASCII letters) |
| Text.Upper | src/components/Search.jsx:486 | `toUpperCase` keeps the length and maps each character by itself (ASCII letters) |
| Text.LowerIdempotent | src/components/Search.jsx:98 | lower-casing twice is lower-casing once |
| Text.LowerWithoutCapitals | src/components/Search.jsx:213 | a string without capitals is its own lower case |
| Text.LowerSlices | src/components/Search.jsx:98 | lower-casing commutes with taking a slice |
| Text.TrimStartLower | src/components/Search.jsx:98 | the leading trim commutes with lower-casing |
| Text.TrimEndLower | src/components/Search.jsx:98 | the trailing trim commutes with lower-casing |
| Text.TrimLowerCommute | src/components/Search.jsx:98 | `toLowerCase().trim()` equals `trim().toLowerCase()` |
| Text.ContainsAt | src/components/Search.jsx:103 | `includes` holds when the substring occurs at some position |
| Text.ContainsSelf | src/components/Search.jsx:103 | every string includes itself |
| Text.TrimContained | src/components/Search.jsx:98 | a string includes its trimmed form |
| Text.ContainsTail | src/components/Search.jsx:163-164 | a string including `x + y` includes `y` |
| Text.ContainsChars | src/components/Search.jsx:163-164 | every character of an included substring occurs in the string |
| Text.ReplaceAll | src/utils/wordExport.js:56 | `replace(/x/g, y)` replaces exactly the occurrences of `x` and keeps the rest |
| Text.CapitaliseWords | src/components/Search.jsx:486 | `replace(/\b\w/g, upper)` keeps the length |
| Text.CapitaliseWordsCases | src/components/Search.jsx:486 | the word starts stay where they were; a word-initial character is upper-cased and never a lower-case letter; every other character is kept |
| Text.CapitaliseWordsIdempotent | src/components/Search.jsx:486 | capitalising words twice is capitalising them once |
| Text.CapitaliseWordsKeepsChar | src/components/Search.jsx:486 | a non-word character (the space) is at the same positions before and after capitalising |
| Text.Split | src/utils/wordExport.js:68 | `split` always yields at least one piece |
| Text.SplitPiecesAvoidSeparator | src/utils/wordExport.js:68 | no piece of a split contains the separator |
| Text.JoinGrowFirst | src/utils/wordExport.js:68 | helper for the round trip: one more leading character on the first piece is one more leading character on the join |
| Text.JoinSplit | src/utils/wordExport.js:68 | joining the pieces of a split with the separator gives back the string |
| Text.SplitWithoutSeparator | src/utils/wordExport.js:68 | a string without the separator splits into itself alone |
| Records.Merge | src/App.jsx:420 | `{ ...base, ...update }`: the update's fields win, every other field of the base is kept, the keys are the union |
| Records.MergeIdempotent | src/App.jsx:420 | spreading the same update twice equals spreading it once |
| Records.KindOfTag | src/App.jsx:428-484 | the switch on `bookingType` finds the kind carrying the tag, and no kind when none carries it |
| Records.TagRoundTrip | src/App.jsx:428-484 | every kind's tag is switched back to that kind |
| Auth.RolePermissions | src/components/AuthenticationSystem.jsx:68-71 | only ADMIN and PARENT are listed in the permission table; any other role has no entry |
| Auth.HasPermission | src/components/AuthenticationSystem.jsx:65-74 | a missing user has no permission; a granted permission is listed for the user's role |
| Auth.AdminPermissions | src/components/AuthenticationSystem.jsx:69 | ADMIN holds exactly create, view and edit bookings |
| Auth.ParentPermissions | src/components/AuthenticationSystem.jsx:69-70 | PARENT holds ADMIN's permissions plus export_excel and app_control, and no others |
| Auth.UnknownRoleHasNone | src/components/AuthenticationSystem.jsx:73 | a role outside the table holds no permission (the optional chaining and its false default) |
| Auth.SignedIn | src/components/AuthenticationSystem.jsx:29-38 | a reply signs in exactly when the response is ok, the body has `success` and a user; the stored user and token are the reply's |
| Auth.LoginResultOf | src/components/AuthenticationSystem.jsx:19-57 | success iff signed in; a rejected reply gives its message or 'Invalid credentials'; an unreachable server or a missing user (a throw) gives the network error |
| Auth.FailureHasMessage | src/components/AuthenticationSystem.jsx:45-55 | every failed login carries a non-empty error message |
| Auth.AuthState.constructor | src/components/AuthenticationSystem.jsx:9-11 | the provider starts with no user and no token |
| Auth.AuthState.Login | src/components/AuthenticationSystem.jsx:19-57 | returns LoginResultOf; sets user and token exactly when the reply signs in, else leaves both unchanged |
| Auth.AuthState.Logout | src/components/AuthenticationSystem.jsx:59-63 | clears the user and the token |
| Auth.AuthState.Can | src/components/AuthenticationSystem.jsx:65-66 | a permission is only granted to a signed-in user |
| Auth.LoggedOutHasNoPermission | src/components/AuthenticationSystem.jsx:66 | after logout no permission holds |
| Auth.LoginForm.constructor | src/components/AuthenticationSystem.jsx:101-104 | empty e-mail and password, not loading, no error |
| Auth.LoginForm.SetFields | src/components/AuthenticationSystem.jsx:126-131 | the inputs set e-mail and password |
| Auth.LoginForm.HandleSubmit | src/components/AuthenticationSystem.jsx:107-124 | login is attempted iff neither field is blank after trimming; otherwise the fill-in message is shown and the auth state is unchanged; a failed login shows its error; loading ends false |
| SearchFilter.CaseOf | src/components/Search.jsx:100-169 | an unlisted search type falls to the default ticket-ID case; only 'date' selects the date case |
| SearchFilter.AnyHitsIff | src/components/Search.jsx:100-169 | a case's chain of alternatives holds iff one of its disjuncts holds |
| SearchFilter.Filter | src/components/Search.jsx:95-171 | a blank search value yields no records |
| SearchFilter.KeepInOrder | src/components/Search.jsx:100 | `bookings.filter` keeps records in their original order |
| SearchFilter.FilterInOrder | src/components/Search.jsx:95-171 | the filter's result is a subsequence of the input |
| SearchFilter.KeepMembers | src/components/Search.jsx:100-170 | a record is kept iff it is in the input and its case matches |
| SearchFilter.FilterMembers | src/components/Search.jsx:95-171 | a record is in the result iff the value is not blank, the record is in the input and it matches |
| SearchFilter.KeepConcat | src/components/Search.jsx:100 | filtering a concatenation is the concatenation of the filtered parts |
| SearchFilter.FilterConcat | src/components/Search.jsx:95-171 | the same for the whole filter |
| SearchFilter.TicketSearchFindsOwnRecord | src/components/Search.jsx:96-104 | searching by a record's non-blank ticket ID finds that record |
| SearchFilter.OwnTicketMatches | src/components/Search.jsx:100-104 | a record matches the ticket-ID search for its own ticket ID |
| SearchFilter.SearchIgnoresCase | src/components/Search.jsx:98-168 | every case but the date case gives the same answer for a value and its lower case |
| SearchFilter.DateSearchIsUntrimmed | src/components/Search.jsx:122-133 | the date case matches the raw value, so a value with a space never matches a record without spaces |
| SearchFilter.PropsSearch | src/components/Search.jsx:174-177 | nothing for a blank value or missing booking data; otherwise the filter over the booking data |
| SearchFilter.SearchTypeLabel | src/components/Search.jsx:383-396 | an unlisted search type is labelled 'Ticket ID' |
| SearchFilter.LabelsDistinct | src/components/Search.jsx:383-396 | the nine offered search types have pairwise different labels |
| SearchFilter.LabelOf | src/components/Search.jsx:384-394 | the label of the i-th offered search type is the i-th label of the table |
| SearchFilter.DisplayType | src/components/Search.jsx:484-487 | a missing or empty type shows 'Unknown'; otherwise the text keeps its length and contains no '_' or '-'; a word-initial character is the original upper-cased, never a lower-case letter; every other character is the original, with '_' and '-' turned into spaces |
| SearchFilter.DisplaySpellingsAgree | src/components/Search.jsx:486 | the underscore and hyphen spellings of a type display the same |
| SearchFilter.DisplayTypeIdempotent | src/components/Search.jsx:484-487 | formatting a formatted type changes nothing |
| SearchFilter.FormFor | src/components/Search.jsx:212-232 | no passport record opens an edit form |
| SearchFilter.FormForIgnoresCase | src/components/Search.jsx:213 | the form chosen does not depend on the case of the type |
| SearchFilter.FormForEveryTag | src/components/Search.jsx:213-231 | every kind but passport opens its own form under both its tag and its path spelling; passport gets the unknown-type message |
| SearchFilter.SpellingsLowerCase | src/components/Search.jsx:214-229 | the tags and path spellings are already lower case |
| FederatedSearch.FilterListed | src/components/Search.jsx:72-77 | a list call that threw, failed or returned no data yields nothing; otherwise its records filtered by the search |
| FederatedSearch.SearchKind | src/components/Search.jsx:60-92 | a ticket-ID search uses the search endpoint's record when it answers, the filtered list when it throws; any other search filters the list |
| FederatedSearch.Present | src/components/Search.jsx:184 | every record is wrapped as present, in order |
| FederatedSearch.Compact | src/components/Search.jsx:184 | `.filter(Boolean)` keeps exactly the present records and never adds any |
| FederatedSearch.CompactConcat | src/components/Search.jsx:184 | compacting a concatenation compacts each part |
| FederatedSearch.CompactPresent | src/components/Search.jsx:184 | compacting present records gives them back |
| FederatedSearch.WithType | src/components/Search.jsx:187-190 | every record leaves with a truthy `bookingType`: its own or 'flight'; no other field changes |
| FederatedSearch.WithTypes | src/components/Search.jsx:187-190 | the final `.map` applies the type default to every record, in order |
| FederatedSearch.WithTypesConcat | src/components/Search.jsx:187-190 | the type default distributes over concatenation |
| FederatedSearch.BackendSearch | src/components/Search.jsx:179-197 | every combined result carries a truthy `bookingType` |
| FederatedSearch.GatherIsContributions | src/components/Search.jsx:182-190 | flattening, compacting and typing the per-kind results equals concatenating each kind's contribution |
| FederatedSearch.BackendSearchOrder | src/components/Search.jsx:180-190 | the combined result lists the kinds' contributions in the fixed kind order, passport excluded |
| FederatedSearch.FailingKindContributesNothing | src/components/Search.jsx:88-91 | a kind whose endpoints both throw contributes nothing and does not fail the search |
| FederatedSearch.TicketHitContributesRecord | src/components/Search.jsx:65-68 | a successful ticket-ID lookup contributes exactly that record, typed |
| FederatedSearch.TicketFallbackFilters | src/components/Search.jsx:69-77 | when the ticket-ID endpoint throws, the kind contributes its whole list filtered by ticket ID |
| SearchSession.BackendAttempt | src/components/Search.jsx:179-197 | the backend search always completes (every per-kind failure is caught), with the combined results |
| SearchSession.Stamped | src/components/Search.jsx:323-340 | `{ ...updatedData, lastModified }`: lastModified is now, every other field is kept |
| SearchSession.ReplaceMatching | src/components/Search.jsx:361-367 | the results keep their length; each entry with the selection's ticket ID or `_id` becomes the committed record, the others are unchanged |
| SearchSession.CommittedReplacesSelection | src/components/Search.jsx:361-367 | after the update the committed record is listed and the old selection is gone unless it equals it |
| SearchSession.ReplaceMatchingIdempotent | src/components/Search.jsx:361-367 | replacing twice equals replacing once |
| SearchSession.MissingTicketIdMatchesAll | src/components/Search.jsx:363 | when the selection has no ticket ID, every result without one is replaced too (`undefined === undefined`) |
| SearchSession.TransferUpdateMissesCollection | src/components/Search.jsx:294 | the as-written update path for an airport transfer is not under its collection `/airport-transfer-bookings` |
| SearchSession.UpdatePath | src/components/Search.jsx:292-309 | an unknown type keeps the as-written path |
| SearchSession.UpdatePathInCollection | src/components/Search.jsx:292-309 | the corrected path of every kind is one segment under that kind's collection, and equals the as-written path wherever the tag is the slug |
| SearchSession.Chosen | src/components/Search.jsx:250-263 | the backend's results when the backend is on and completes, else the props search |
| SearchSession.Single | src/components/Search.jsx:266-268 | a result is auto-selected exactly when there is one result |
| SearchSession.SearchStep | src/components/Search.jsx:247-289 | the shown results are the chosen ones; the backend stays on only if it was on and completed |
| SearchSession.SearchSelectsSingle | src/components/Search.jsx:265-268 | a selection is made iff there is exactly one result, and it is that result |
| SearchSession.SearchErrorIffEmpty | src/components/Search.jsx:265-282 | an error shows iff there are no results, and then it is the not-found message naming the value and the type's label |
| SearchSession.FallbackIsSticky | src/components/Search.jsx:254-259 | after a failed backend search the props search is used, and every later search too, whatever the backend would answer |
| SearchSession.Session.constructor | src/components/Search.jsx:16-26 | the screen's initial state: ticket-ID search, empty value, nothing selected or edited, backend on |
| SearchSession.Session.SetQuery | src/components/Search.jsx:570-600 | the inputs set the search type and value |
| SearchSession.Session.CheckConnectivity | src/components/Search.jsx:518-531 | the backend is used iff the probe request answers |
| SearchSession.Session.HandleSearch | src/components/Search.jsx:236-289 | a blank value only sets the empty-search message; otherwise the shown state is SearchStep of the backend attempt, loading ends and the backend flag is kept |
| SearchSession.Session.RunSearch | src/components/Search.jsx:236-289 | the same for a given backend outcome, including the failed backend that switches to the props search |
| SearchSession.Session.Show | src/components/Search.jsx:242-288 | the screen shows the found state and stops loading |
| SearchSession.Session.HandleSelectResult | src/components/Search.jsx:399-411 | the clicked record becomes the selection |
| SearchSession.Session.HandleEdit | src/components/Search.jsx:414-417 | editing starts with the form chosen by the selection's type |
| SearchSession.Session.HandleCancelEdit | src/components/Search.jsx:444-447 | editing ends and the form is dropped |
| SearchSession.Session.HandleNewSearch | src/components/Search.jsx:450-457 | value, results, selection, error and editing are cleared; the type and backend flag are kept |
| SearchSession.Session.HandleUpdateSubmit | src/components/Search.jsx:312-380 | with a selection: a PUT to the corrected path when the backend is on and the record has an `_id`; the parent callback with the stamped data when that is not saved; the committed record (the reply's data or the stamped data) becomes the selection and replaces the matching results; editing ends. Without a selection nothing changes |
| SearchSession.CommitKeepsSelectionListed | src/components/Search.jsx:361-367 | the update keeps the result count and lists the committed record |
| BookingStore.MergeMatching | src/App.jsx:418-422 | the list keeps its length; every record with the given ticket ID gets the update spread over it, the others are unchanged |
| BookingStore.MergeMatchingIdempotent | src/App.jsx:418-422 | applying the same update twice equals applying it once, when the update does not change the ticket ID |
| BookingStore.Modification | src/App.jsx:410-415 | the update stamped with lastModified, lastModifiedBy and lastModifiedByEmail from the clock and the user; every other field of the update is kept |
| BookingStore.FirstMatchType | src/App.jsx:426 | no matching record gives no type; a found type is that of some matching record |
| BookingStore.UpdatedKind | src/App.jsx:425-428 | the update's own truthy type decides the per-kind list; a chosen kind's tag is the JavaScript or of the update's type and the first match's type |
| BookingStore.NewBooking | src/App.jsx:311-320 | `bookingWithMetadata`: the type, both timestamps and the submitter's name, e-mail and role are set; every other field is the form's |
| BookingStore.DisplayedTotal | src/App.jsx:711 | the displayed total never exceeds the number of records |
| BookingStore.DisplayedTotalCounts | src/App.jsx:711 | the total is exactly the number of positions holding a record not tagged 'passport' |
| BookingStore.DisplayedTotalExtremes | src/App.jsx:711 | a list of passport records only totals zero; a list without passport records totals its length |
| BookingStore.Relisted | src/App.jsx:428-484 | only the chosen kind's list is rewritten with the merged records; the other lists are unchanged; no kind, or an unknown one, changes no list |
| BookingStore.Store.constructor | src/App.jsx:151-161 | the combined list and every per-kind list start empty |
| BookingStore.Store.AddBookingData | src/App.jsx:309-326 | returns the stamped record and appends it to the combined list |
| BookingStore.Store.HandleSubmit | src/App.jsx:329-399 | a booking is added iff the user may create bookings; then the stamped record is appended to the combined list and to its kind's list, and nothing else changes; the displayed total rises by one for a non-passport booking and is unchanged otherwise |
| BookingStore.Store.HandleUpdateBooking | src/App.jsx:403-485 | the update happens iff the user may edit bookings; the stamped update is merged into every matching record of the combined list and of the chosen kind's list |
| BookingStore.Unwrap | src/App.jsx:47 | an array body is the records; an object body gives `data`, else `bookings`, else nothing |
| BookingStore.UnwrapData | src/App.jsx:275-281 | the search export reads an array body or `data`, else nothing |
| BookingStore.UnwrapAgree | src/App.jsx:47 | the two ways of reading a body differ only for an object body without `data` and with a non-empty `bookings` |
| BookingStore.TabKind | src/App.jsx:208-256 | a tab that exports one kind is never the search or passport tab and never exports passport records |
| BookingStore.Concatenated | src/App.jsx:264-286 | the combined search export fails iff some kind's fetch fails |
| BookingStore.ConcatenatedSlices | src/App.jsx:264-286 | with every fetch answered, the export is the kinds' records concatenated in order, and its length is the sum of theirs |
| BookingStore.TabExport | src/App.jsx:191-306 | no export permission refuses; the passport tab refuses with its message; a kind tab exports that kind's records under its file name, or reports no data; a failed fetch is reported; an export is never empty; an unknown tab has no data |
| BookingStore.SearchExportOrder | src/App.jsx:258-287 | the search tab exports every kind but passport, in the fixed order, as `All_Bookings.xlsx` |
| BookingStore.FormExport | src/App.jsx:28-91 | the passport form has no export; otherwise permission is checked first and the form's kind is exported as for its tab, never empty |
| WordExport.NatText | src/utils/wordExport.js:62 | the decimal text of a number is non-empty and all digits |
| WordExport.Digit | src/utils/wordExport.js:62 | a digit value below ten is a digit character |
| WordExport.NatTextValue | src/utils/wordExport.js:62 | the decimal text of `n` reads back as `n` |
| WordExport.SafeString | src/utils/wordExport.js:59-62 | `null`, `undefined` and '' become 'N/A'; anything else is its `String` conversion |
| WordExport.SafeStringEmptyOnlyForArrays | src/utils/wordExport.js:59-62 | only an array (whose `String` can be '') gives an empty cell text |
| WordExport.ArrayIndex | src/utils/wordExport.js:73 | a key read as an array index is the canonical decimal text of that index |
| WordExport.ArrayIndexOfNatText | src/utils/wordExport.js:73 | every index's decimal text reads back as that index |
| WordExport.NatTextNoLeadingZero | src/utils/wordExport.js:73 | decimal texts have no leading zero |
| WordExport.NatTextNotZero | src/utils/wordExport.js:73 | only zero is written '0' |
| WordExport.Member | src/utils/wordExport.js:73 | `result[key]` on an object is its member or undefined; on null, a boolean or a number it is undefined |
| WordExport.Reach | src/utils/wordExport.js:70-76 | a path that reaches something never reaches `null` |
| WordExport.WalkIsReach | src/utils/wordExport.js:66-81 | the `safeGet` loop yields what the path reaches, else the default |
| WordExport.ReachAppend | src/utils/wordExport.js:70-76 | following `p + q` is following `p` and then `q` |
| WordExport.SafeGet | src/utils/wordExport.js:66-81 | the loop over the split path returns the path walk of the value, or the default |
| WordExport.FieldIsSafeGet | src/utils/wordExport.js:127-135 | `safeGet` of a key without a dot is a single member lookup |
| WordExport.FieldOfObject | src/utils/wordExport.js:127-135 | a one-key lookup on an object gives its non-null member, else the default |
| WordExport.FormatBookingType | src/utils/wordExport.js:54-57 | a falsy type shows 'Unknown'; otherwise the text keeps its length, has no '_', and has a space exactly where the original had a space or an underscore; a word-initial character is the original upper-cased, never a lower-case letter; every other character is the original, with '_' turned into a space |
| WordExport.FormatBookingTypeIdempotent | src/utils/wordExport.js:54-57 | formatting a formatted type changes nothing |
| WordExport.BasicInfoRows | src/utils/wordExport.js:138-148 | the basic information table has four fixed rows and up to four optional ones |
| WordExport.Labels | src/utils/wordExport.js:138-148 | the headings of the rows, in order |
| WordExport.BasicInfoLayout | src/utils/wordExport.js:138-148 | the row headings are the fixed layout with Booking Agent, Agent Name, Email and Passport Number present exactly when the field is not 'N/A' |
| WordExport.OptionalLabels | src/utils/wordExport.js:140 | an optional row appears iff its value is not 'N/A' |
| WordExport.LabelsConcat | src/utils/wordExport.js:138-148 | headings distribute over concatenation |
| WordExport.LayoutRows | src/utils/wordExport.js:138-148 | Booking Type comes first; Booking Entity, Traveler Name and Contact Number are always present; each optional heading is present iff its field is |
| WordExport.InLayout | src/utils/wordExport.js:138-148 | a heading is in the table iff it is a fixed heading or a present optional one |
| WordExport.ContactPrefersContact | src/utils/wordExport.js:133 | the contact cell is `contact` when present, else `contactNumber`, else 'N/A' |
| WordExport.Sanitize | src/utils/wordExport.js:432 | the replace keeps the length, leaves only letters, digits, '-' and '_', and keeps those characters in place |
| WordExport.SanitizeIdempotent | src/utils/wordExport.js:432 | sanitising twice is sanitising once |
| WordExport.DefaultFileNameShape | src/utils/wordExport.js:432-435 | the default name is `booking_<ticket>[_<agent>]_<date>.docx` with the agent part exactly when an agent is shown, and the date before the 'T' |
| WordExport.ChosenFileName | src/utils/wordExport.js:436 | a truthy given file name wins; otherwise the default name |
| WordExport.ClassifyErrorCases | src/utils/wordExport.js:463-471 | the caught error is rethrown with the data-structure, browser, packer or generic message, tested in that order |
| WordExport.GenerateWordDocument | src/utils/wordExport.js:9-473 | no booking data throws at once; a library failure throws the classified message; a download carries the basic information rows |
| WordExport.DownloadedName | src/utils/wordExport.js:127-130 | an object booking exports under the default name built from its ticket ID ('Unknown' when missing) and its booking agent |
| FormKit.IdOfWellFormed | src/components/AirportTransferForm.jsx:109-124 | every ID built from in-range picks is the prefix, a capital letter, a digit and `n` letters or digits |
| FormKit.IndexIn | src/components/AirportTransferForm.jsx:110 | the position of a character in the alphabet string holds that character |
| FormKit.WellFormedIdGenerated | src/components/AirportTransferForm.jsx:109-124 | every well-formed ID is produced by some choice of random picks, so the generator reaches every such ID |
| FormKit.SplitAfter | src/components/AirportTransferForm.jsx:114-120 | an ID splits into its prefix, the two guaranteed characters and the tail |
| FormKit.TailPicks | src/components/AirportTransferForm.jsx:118-120 | a tail of letters and digits has picks that select exactly its characters |
| FormKit.GenerateId | src/components/AirportTransferForm.jsx:109-124 | the loop appends one character per pick: the result is IdOf of the picks and is well formed |
| FormKit.CanProceedToTab | src/components/AirportTransferForm.jsx:96-101 | the first tab is always reachable; any other tab needs basic info; the three-tab rule refuses tabs past the third |
| FormKit.RulesAgreeOnThreeTabs | src/components/ForexBookingForm.jsx:178-182 | the forex rule (any later tab) and the three-tab rule agree on the first three tabs |
| FormKit.NextTab | src/components/AirportTransferForm.jsx:296-300 | next moves one tab forward only when it stays in range and the tab is allowed; otherwise it stays |
| FormKit.PrevTab | src/components/AirportTransferForm.jsx:303-307 | previous moves back one tab, never below the first |
| FormKit.IdAfterArrival | src/components/AirportTransferForm.jsx:104-107 | the ID only changes when a new, unnumbered booking arrives at the second tab, and then it is the generated ID |
| FormKit.IdAfterArrivalKeeps | src/components/AirportTransferForm.jsx:104-107 | an existing ID or an edit keeps the ID; a new one is well formed |
| FormKit.Wizard.constructor | src/components/AirportTransferForm.jsx:25-26 | the wizard starts on the first tab without an ID |
| FormKit.Wizard.Arrive | src/components/AirportTransferForm.jsx:104-107 | the tab is set and the ID follows IdAfterArrival |
| FormKit.Wizard.HandleNext | src/components/AirportTransferForm.jsx:296-300 | the tab follows NextTab with the form's rule, the ID follows IdAfterArrival |
| FormKit.Wizard.HandlePrevious | src/components/AirportTransferForm.jsx:303-307 | the tab follows PrevTab, the ID follows IdAfterArrival |
| FormKit.Wizard.SelectTab | src/components/AirportTransferForm.jsx:15 | a clicked tab is entered only when allowed, the ID follows IdAfterArrival |
| FormKit.Wizard.SetId | src/components/AirportTransferForm.jsx:67-71 | the edit ID is stored |
| FormKit.Wizard.Reset | src/components/AirportTransferForm.jsx:268-269 | back to the first tab, without an ID |
| FormKit.StuckWithoutBasicInfo | src/components/AirportTransferForm.jsx:96-101 | without basic info next stays on the first tab and no other tab can be clicked |
| FormKit.MissingLabelsEmpty | src/components/AirportTransferForm.jsx:167-169 | nothing is reported missing iff no required field is missing or blank after trimming |
| FormKit.MissingLabelsMembers | src/components/AirportTransferForm.jsx:167-170 | a title is reported iff some required field with that title is missing or blank |
| FormKit.NothingMissingMeansFilled | src/components/AirportTransferForm.jsx:167-169 | passing the check means every required field is non-empty |
| FormKit.WithoutIsSlice | src/components/FlightBookingForm.jsx:168 | `filter((_, i) => i !== index)` removes exactly the entry at an in-range index and nothing otherwise |
| FormKit.RemoveEntry | src/components/FlightBookingForm.jsx:165-171 | the last remaining entry is never removed |
| FormKit.RemoveEntryIsSlice | src/components/FlightBookingForm.jsx:165-171 | a single entry stays; with several, the entry at an in-range index is removed and the rest keep their order |
| FormKit.ChangeEntry | src/components/FlightBookingForm.jsx:174-178 | only the field of the entry at the index changes; every other entry and field is kept |
| FormKit.Pick | src/components/CarRentalForm.jsx:153-170 | the copied fields are exactly the form's fields among the chosen keys, with the form's values |
| FormKit.SetField | src/components/AirportTransferForm.jsx:127-134 | `{ ...formData, [name]: value }`: the named field is set and every other field is kept |
| FormKit.LocationEdit | src/components/AirportTransferForm.jsx:137-145 | a cancelled prompt changes nothing; an answer sets the field |
| FormKit.Prefilled | src/components/AirportTransferForm.jsx:29-46 | the form has the blank form's fields; each takes the initial record's truthy value, else the blank value |
| FormKit.Stamps | src/components/AirportTransferForm.jsx:192-198 | a new booking gets submittedAt now; an edit keeps the original submittedAt (or now) and gets lastModified now |
| FormKit.StampedLookup | src/components/AirportTransferForm.jsx:192-198 | adding the stamps changes only the two timestamp fields |
| FormKit.Delivered | src/components/AirportTransferForm.jsx:239-251 | the record handed to `onSubmit`: the form's fields win, then the timestamps; the booking ID under its key; `_id` from the reply or the initial record; other fields from the reply |
| FormKit.WithIds | src/components/AirportTransferForm.jsx:243-245 | the booking ID is set under its key and `_id` is the reply's or the initial record's; nothing else changes |
| FormKit.Restamped | src/components/AirportTransferForm.jsx:247-248 | submittedAt and lastModified follow the editing mode (lastModified undefined for a new booking); nothing else changes |
| TransferForm.RequiredAreBasic | src/components/AirportTransferForm.jsx:151-162 | the required fields of the submit check are the basic-info fields, in the same order |
| TransferForm.PassingCheckMeansBasicInfo | src/components/AirportTransferForm.jsx:164-169 | a form that passes the submit check has basic info filled |
| TransferForm.SpacesReported | src/components/AirportTransferForm.jsx:164-171 | a required field holding only spaces passes the tab rule but is reported missing by the submit check |
| TransferForm.KeysApart | src/components/AirportTransferForm.jsx:175-198 | the fields the payload sets itself are never copied from the form |
| TransferForm.Extras | src/components/AirportTransferForm.jsx:176-191 | the ticket ID, the 'airport_transfer' tag, invoice and credit note defaulting to '', amount and refund defaulting to '0' |
| TransferForm.Header | src/components/AirportTransferForm.jsx:175-191 | the copied fields are the form's, the set fields are the extras, no timestamp yet |
| TransferForm.SubmitData | src/components/AirportTransferForm.jsx:175-198 | the payload: the header plus submittedAt (kept on edit) and lastModified only on edit |
| TransferForm.SubmitRequest | src/components/AirportTransferForm.jsx:203-223 | PUT to `/api/airport-transfer-bookings/<_id>` iff editing a record with a truthy `_id`; otherwise POST to `/api/airport-transfer` |
| TransferForm.Form.constructor | src/components/AirportTransferForm.jsx:25-71 | first tab; the fields come from the initial record whenever there is one; the ID is its ticket ID only when editing |
| TransferForm.Form.HandleChange | src/components/AirportTransferForm.jsx:127-134 | the named field is set |
| TransferForm.Form.HandleLocationEdit | src/components/AirportTransferForm.jsx:137-145 | a prompt answer sets the field; a cancel changes nothing |
| TransferForm.Form.HandleNext | src/components/AirportTransferForm.jsx:296-300 | the tab follows NextTab with the three-tab rule on this form's basic info; the ID follows IdAfterArrival with 'TRF-' and four more characters |
| TransferForm.Form.HandlePrevious | src/components/AirportTransferForm.jsx:303-307 | the tab follows PrevTab; the ID follows IdAfterArrival |
| TransferForm.Form.SelectTab | src/components/AirportTransferForm.jsx:15 | a clicked tab is entered only when allowed |
| TransferForm.Form.HandleSubmit | src/components/AirportTransferForm.jsx:148-286 | missing required fields stop the submit and are reported; otherwise the request is sent; a stored reply hands `Delivered` to `onSubmit` and resets a new booking's form; nothing else changes |
| TransferForm.Form.ResetForm | src/components/AirportTransferForm.jsx:253-270 | blank fields, first tab, no ID |
| CarRentalForm.BlankHasNoBasicInfo | src/components/CarRentalForm.jsx:79-92 | a new form has no basic info, so only the first tab is open |
| CarRentalForm.KeysApart | src/components/CarRentalForm.jsx:153-178 | the fields the payload sets itself are never copied from the form |
| CarRentalForm.Extras | src/components/CarRentalForm.jsx:153-170 | the booking ID, the 'car_rental' tag, invoice and credit note defaulting to '', amount and refund defaulting to '0' |
| CarRentalForm.Header | src/components/CarRentalForm.jsx:153-170 | the copied fields are the form's, the set fields are the extras, and no other field is sent |
| CarRentalForm.SubmitData | src/components/CarRentalForm.jsx:153-178 | the payload: the header plus submittedAt (kept on edit) and lastModified only on edit |
| CarRentalForm.SubmitRequest | src/components/CarRentalForm.jsx:181-199 | PUT to `http://localhost:3000/api/car-rentals/<_id>` iff editing a record with a truthy `_id`; otherwise POST to the collection on the same fixed server |
| CarRentalForm.RequestUnderCollection | src/components/CarRentalForm.jsx:181-199 | every request goes under `http://localhost:3000/api/car-rentals` |
| CarRentalForm.Form.constructor | src/components/CarRentalForm.jsx:30-76 | first tab; the fields come from the initial record whenever there is one; the ID is its `bookingId` only when editing |
| CarRentalForm.Form.HandleChange | src/components/CarRentalForm.jsx:127-133 | the named field is set |
| CarRentalForm.Form.HandleLocationEdit | src/components/CarRentalForm.jsx:136-145 | a prompt answer sets the field; a cancel changes nothing |
| CarRentalForm.Form.HandleNext | src/components/CarRentalForm.jsx:270-274 | the tab follows NextTab with the three-tab rule; the ID follows IdAfterArrival with 'CAR-' and three more characters |
| CarRentalForm.Form.HandlePrevious | src/components/CarRentalForm.jsx:277-281 | the tab follows PrevTab; the ID follows IdAfterArrival |
| CarRentalForm.Form.SelectTab | src/components/CarRentalForm.jsx:14 | a clicked tab is entered only when allowed |
| CarRentalForm.Form.HandleSubmit | src/components/CarRentalForm.jsx:148-260 | the request is always sent; a stored reply hands `Delivered` (ID under `bookingId`) to `onSubmit` and resets a new booking's form; nothing else changes |
| CarRentalForm.Form.ResetForm | src/components/CarRentalForm.jsx:228-248 | blank fields, first tab, no ID |
| FlightForm.AddedLegUnfilled | src/components/FlightBookingForm.jsx:161-163 | adding a blank leg clears basic info until the leg is filled in |
| FlightForm.FinalData | src/components/FlightBookingForm.jsx:243-250 | the payload: the legs, the ticket ID, the 'flight' tag, submittedAt kept from the initial record (else now), lastModified only when editing; every other field is the form's |
| FlightForm.RequestAt | src/components/FlightBookingForm.jsx:9-50 | PUT to `<base>/flight-bookings/<_id>` iff editing a record with a truthy `_id`; otherwise POST to `<base>/flight-bookings` |
| FlightForm.RequestMissesApi | src/components/FlightBookingForm.jsx:4 | as written, every request URL starts with the literal '${' and never with the configured API URL |
| FlightForm.SubmitRequest | src/components/FlightBookingForm.jsx:4-50 | corrected, every request goes under `<API URL>/flight-bookings` |
| FlightForm.Form.constructor | src/components/FlightBookingForm.jsx:106-158 | a new form is blank with one blank leg; an edit form takes each field from the record or its blank value, the stored legs and the record's ticket ID |
| FlightForm.Form.HandleChange | src/components/FlightBookingForm.jsx:229-235 | the named field is set |
| FlightForm.Form.AddJourneyEntry | src/components/FlightBookingForm.jsx:161-163 | one blank leg is appended |
| FlightForm.Form.RemoveJourneyEntry | src/components/FlightBookingForm.jsx:166-171 | RemoveEntry on the legs: the last leg is never removed |
| FlightForm.Form.HandleJourneyChange | src/components/FlightBookingForm.jsx:174-178 | ChangeEntry on the legs |
| FlightForm.Form.HandleNext | src/components/FlightBookingForm.jsx:304-308 | the tab follows NextTab with basic info over header and legs; the ID follows IdAfterArrival with 'FLT-' and three more characters |
| FlightForm.Form.HandlePrevious | src/components/FlightBookingForm.jsx:311-315 | the tab follows PrevTab; the ID follows IdAfterArrival |
| FlightForm.Form.SelectTab | src/components/FlightBookingForm.jsx:96 | a clicked tab is entered only when allowed |
| FlightForm.Form.HandleSubmit | src/components/FlightBookingForm.jsx:238-294 | nothing is sent iff an edit form has no initial record (the throw); a failure sets the 'Failed to update/submit' message and changes nothing else; a success hands the reply to `onSubmit`, and a create resets the form, the legs, the tab and the ID; loading ends false |
| HotelForm.NoHotelNoBasicInfo | src/components/HotelBookingForm.jsx:73-86 | without a hotel name there is no basic info |
| HotelForm.InitialId | src/components/HotelBookingForm.jsx:66 | the edit ID is the truthy ticket ID, else the truthy booking ID, else '' |
| HotelForm.KeysApart | src/components/HotelBookingForm.jsx:137-159 | the fields the payload sets itself are never copied from the form |
| HotelForm.Extras | src/components/HotelBookingForm.jsx:147-159 | ticketId and bookingId are the booking ID; invoice, credit note, amount and refund default to ''; submittedAt kept from the initial record (else now); lastModified only when editing |
| HotelForm.SubmitData | src/components/HotelBookingForm.jsx:137-159 | the payload holds only copied and set fields: copied ones as the form has them, set ones from Extras |
| HotelForm.RequestWith | src/components/HotelBookingForm.jsx:161-175 | nothing is sent iff an edit form has no initial record (the throw); PUT iff editing, to `<API>/hotel-bookings/<_id>` with a missing `_id` rendered 'undefined'; a new booking is POSTed to the given URL |
| HotelForm.NewBookingMissesApi | src/components/HotelBookingForm.jsx:164 | as written, a new booking is posted to the literal '${...}' text, never to the configured API, while an update does reach the API |
| HotelForm.SubmitRequest | src/components/HotelBookingForm.jsx:161-175 | corrected, every request goes under `<API URL>/hotel-bookings` |
| HotelForm.UpdateUnderCollection | src/components/HotelBookingForm.jsx:162-164 | corrected, an update goes to the create URL followed by the record's `_id` |
| HotelForm.Form.constructor | src/components/HotelBookingForm.jsx:25-68 | a new form is blank; an edit form is prefilled from the record with the ID InitialId; not submitting |
| HotelForm.Form.HandleChange | src/components/HotelBookingForm.jsx:121-127 | the named field is set |
| HotelForm.Form.HandleNext | src/components/HotelBookingForm.jsx:229-233 | the tab follows NextTab with the three-tab rule; the ID follows IdAfterArrival with 'HTL-' and three more characters |
| HotelForm.Form.HandlePrevious | src/components/HotelBookingForm.jsx:236-240 | the tab follows PrevTab; the ID follows IdAfterArrival |
| HotelForm.Form.SelectTab | src/components/HotelBookingForm.jsx:14 | a clicked tab is entered only when allowed |
| HotelForm.Form.BeginSubmit | src/components/HotelBookingForm.jsx:130-135 | a submit while one is running does nothing; otherwise the corrected request is built from the current form, and the form counts as submitting iff it was sent |
| HotelForm.Form.FinishSubmit | src/components/HotelBookingForm.jsx:177-218 | submitting ends; a stored reply goes to `onSubmit`, and a new booking's form is reset; a failure changes nothing |
| MiscForm.AddedDetailUnfilled | src/components/MiscellaneousBookingForm.jsx:77-112 | adding a blank service detail clears basic info until its description is filled in |
| MiscForm.CleanDetail | src/components/MiscellaneousBookingForm.jsx:177-180 | a sent detail has exactly a description and notes, each the detail's truthy value or '' |
| MiscForm.CleanDetails | src/components/MiscellaneousBookingForm.jsx:177-180 | every detail is cleaned, in order, none dropped |
| MiscForm.Metadata | src/components/MiscellaneousBookingForm.jsx:184-199 | lastModified is now; a new booking is stamped now by 'Current User' as 'PARENT' with no `_id`; an edit keeps the record's submittedAt (else now), submittedBy and role (else ''), and its `_id` iff that is truthy |
| MiscForm.KeysApart | src/components/MiscellaneousBookingForm.jsx:162-199 | the metadata keys are never header keys |
| MiscForm.Header | src/components/MiscellaneousBookingForm.jsx:162-176 | the header copies the form's named fields as they are, with the ticket ID and the 'miscellaneous' tag, and nothing else |
| MiscForm.SubmitData | src/components/MiscellaneousBookingForm.jsx:162-199 | the payload is the header, the cleaned details and the metadata, and holds no other key |
| MiscForm.SubmitRequest | src/components/MiscellaneousBookingForm.jsx:202-213 | PUT iff editing; the URL names the record's `_id` iff editing a record with a truthy `_id`, else the collection |
| MiscForm.Form.constructor | src/components/MiscellaneousBookingForm.jsx:24-74 | a new form is blank with one blank detail; an edit form is prefilled from the record, takes its details when it has them and its ticket ID; not submitting |
| MiscForm.Form.HandleChange | src/components/MiscellaneousBookingForm.jsx:147-153 | the named field is set |
| MiscForm.Form.AddServiceDetail | src/components/MiscellaneousBookingForm.jsx:77-79 | one blank detail is appended |
| MiscForm.Form.RemoveServiceDetail | src/components/MiscellaneousBookingForm.jsx:82-87 | RemoveEntry on the details; the last one is never removed |
| MiscForm.Form.HandleServiceDetailChange | src/components/MiscellaneousBookingForm.jsx:90-94 | ChangeEntry on the details |
| MiscForm.Form.HandleNext | src/components/MiscellaneousBookingForm.jsx:272-276 | the tab follows NextTab with basic info over the form and the details; the ID follows IdAfterArrival |
| MiscForm.Form.HandlePrevious | src/components/MiscellaneousBookingForm.jsx:279-283 | the tab follows PrevTab; the ID follows IdAfterArrival |
| MiscForm.Form.SelectTab | src/components/MiscellaneousBookingForm.jsx:14 | a clicked tab is entered only when allowed |
| MiscForm.Form.BeginSubmit | src/components/MiscellaneousBookingForm.jsx:156-213 | a submit while one is running sends nothing; otherwise the request for the current form is sent and the form is submitting |
| MiscForm.Form.FinishSubmit | src/components/MiscellaneousBookingForm.jsx:215-261 | submitting ends; a stored reply goes to `onSubmit`, and a new booking's form, details, tab and ID are reset; a failure or an edit changes nothing |
| MiscForm.SubmitTwice | src/components/MiscellaneousBookingForm.jsx:156-261 | a second submit before the first finishes sends nothing; once it finishes, a submit is sent again |
| ForexForm.OrValue | src/components/ForexBookingForm.jsx:100-155 | the JavaScript or over field values: a truthy value (non-empty text, true, a document map) wins, otherwise the default |
| ForexForm.OrMaybe | src/components/ForexBookingForm.jsx:256 | the JavaScript or over values that may be undefined |
| ForexForm.PrefilledFields | src/components/ForexBookingForm.jsx:98-156 | an edit form has exactly the blank form's fields; a date field is the normalised date when the record's value is truthy, else ''; every other field is the record's truthy value or its blank value |
| ForexForm.StoredId | src/components/ForexBookingForm.jsx:158-162 | the edit ID is the record's truthy ticket ID, else its truthy booking ID, else '' |
| ForexForm.BlankHasNoBasicInfo | src/components/ForexBookingForm.jsx:166-182 | a new form has no basic info, so no tab after the first can be entered |
| ForexForm.Changed | src/components/ForexBookingForm.jsx:201-214 | a `doc_X` change sets only document X to the checkbox state and keeps every other document and field; a checkbox sets the field to its checked state; any other input sets the field to its text |
| ForexForm.DocumentChangeKeepsBasicInfo | src/components/ForexBookingForm.jsx:166-176 | ticking or clearing a document never changes whether basic info is filled |
| ForexForm.Payload | src/components/ForexBookingForm.jsx:219-225 | the form's fields win over the ticket ID and the 'forex' tag; amount and refund default to '0'; nothing else changes |
| ForexForm.SubmitData | src/components/ForexBookingForm.jsx:219-232 | the payload with submittedAt kept from the record when editing (else now) and lastModified now when editing, else as the form has it |
| ForexForm.SubmitRequest | src/components/ForexBookingForm.jsx:234-247 | PUT to `<API>/forex-bookings/<_id>` iff editing a record with a truthy `_id`; otherwise POST to the collection |
| ForexForm.DeliveredRecord | src/components/ForexBookingForm.jsx:253-261 | what `onSubmit` receives: the form's fields win, then the ticket ID and the reply's `_id` or else the record's, then the reply; submittedAt as sent, lastModified only when editing |
| ForexForm.WithIds | src/components/ForexBookingForm.jsx:255-257 | the reply with the given `_id` and ticket ID over it; nothing else changes |
| ForexForm.Restamped | src/components/ForexBookingForm.jsx:259-260 | submittedAt is the given stamp; lastModified is now when editing and absent otherwise; nothing else changes |
| ForexForm.Form.constructor | src/components/ForexBookingForm.jsx:24-164 | a new form is blank; an edit form with a record is PrefillFrom the record and takes StoredId |
| ForexForm.Form.HandleChange | src/components/ForexBookingForm.jsx:201-214 | the form becomes Changed |
| ForexForm.Form.HandleNext | src/components/ForexBookingForm.jsx:292-296 | the tab follows NextTab over five tabs, where every tab after the first needs basic info; the ID follows IdAfterArrival with 'FX-' |
| ForexForm.Form.HandlePrevious | src/components/ForexBookingForm.jsx:298-300 | the tab follows PrevTab; the ID follows IdAfterArrival |
| ForexForm.Form.SelectTab | src/components/ForexBookingForm.jsx:14 | a clicked tab is entered only when allowed |
| ForexForm.Form.HandleSubmit | src/components/ForexBookingForm.jsx:216-290 | the request is sent; a stored reply gives `onSubmit` the DeliveredRecord, and a new booking's form, tab and ID are reset; a failure or an edit changes nothing |
| ForexForm.Form.ResetForm | src/components/ForexBookingForm.jsx:264-279 | blank form, first tab, no ID |
| VisaForm.BlankHasNoBasicInfo | src/components/VisaBookingForm.jsx:83-106 | a new form has no basic info, so the wizard stays on its first tab |
| VisaForm.Payload | src/components/VisaBookingForm.jsx:145-150 | the form with the booking ID as `ticketId` and the 'visa' tag over it; every other field is the form's |
| VisaForm.SubmitRequest | src/components/VisaBookingForm.jsx:152-164 | nothing is sent iff an edit form has no record (the throw); PUT iff editing, to `<API>/visa-bookings/<_id>` with a missing `_id` rendered 'undefined'; POST to the collection otherwise |
| VisaForm.RequestUnderCollection | src/components/VisaBookingForm.jsx:152-158 | every request that is sent goes under `<API>/visa-bookings` |
| VisaForm.Form.constructor | src/components/VisaBookingForm.jsx:30-78 | the fields come from the record whenever there is one; the ID only when editing, from the record's ticket ID |
| VisaForm.Form.HandleChange | src/components/VisaBookingForm.jsx:134-140 | the named field is set |
| VisaForm.Form.HandleNext | src/components/VisaBookingForm.jsx:227-231 | the tab follows NextTab with the three-tab rule; the ID follows IdAfterArrival with 'VISA-' and four more characters |
| VisaForm.Form.HandlePrevious | src/components/VisaBookingForm.jsx:234-238 | the tab follows PrevTab; the ID follows IdAfterArrival |
| VisaForm.Form.SelectTab | src/components/VisaBookingForm.jsx:14 | a clicked tab is entered only when allowed |
| VisaForm.Form.HandleSubmit | src/components/VisaBookingForm.jsx:143-217 | the request is SubmitRequest of the payload; a stored reply goes to `onSubmit`, and a new booking's form, tab and ID are reset; otherwise nothing changes |

## Left out

- Network, clock and randomness: requests are returned as values and replies are passed in as outcomes. Headers, JSON parsing of replies and HTTP status codes are not modelled.
- Alerts, `console` output, scrolling, rendering and styling are not modelled. The search screen's `'search'` tab and the dashboard layout are left out as well. These only present state.
- The spreadsheet library and the Word library are not modelled, because they are foreign code. For the spreadsheet export, the model covers only which records go to which file. For the Word export, it covers the table that is built and how a library failure is reported.
- The passport form, the passport service, the home page and the logout button are not part of this model. They are outside the modelled core.
- JSON values have integer numbers only. Floating point and its `String` conversion are left out.
- `JSON.stringify`, which the `all` search uses, is a parameter of the filter. JavaScript's key order is not fixed by the model.
- Date normalisation (`new Date(x).toISOString().split('T')[0]`) is a parameter `day` of the forex prefill. It is not computed.
- FlightForm.Form.constructor: an edited record's legs are kept as stored. The date normalisation of each leg is not modelled. The `Array.isArray` test is taken as given, because legs are a typed sequence.
- FlightForm.LegFilled: a leg without `from` or `to` makes `entry.from.trim()` throw while the form renders, which breaks the form. The model counts such a leg as not filled, so the later tabs stay locked. The render failure is not modelled.
- MiscForm.DetailFilled: a service detail without a `description` makes `detail.description.trim()` throw while the form renders. The model counts it as not filled, so the later tabs stay locked. The render failure is not modelled.
- BookingStore.NewBooking: the source reads the clock twice, once for `submittedAt` and once for `lastModified`. The model takes one instant `now`, so the two stamps are always equal.
- Every booking form guards its callback with `if (onSubmit)`. The model assumes the callback is always given and reports the record handed to it as `submitted`. Only the search screen's update callback is optional in the model (`hasUpdateCallback`).
- MiscForm.Form.constructor: the `Array.isArray` test on the service details is taken as given, because details are a typed sequence.
- Text.Lower and Text.Upper map ASCII letters only. Unicode case mapping is out of reach without a library.
- Form fields other than the forex form's are strings. The forex form's documents and checkboxes are typed values. Other forms carry only text inputs.
- The transfer, car rental, forex and visa forms set an `isSubmitting` flag that only disables a button. The model does not store it. The hotel and miscellaneous forms use the flag as a guard, and the model keeps it there.
- `isPaymentInfoFilled` in the transfer and visa forms is never called, so it is not modelled.
- The lists of repeated entries change an entry in place (`newEntries[index][field] = value`), so the old entry object is mutated as well. The model updates a value copy and does not capture that aliasing.
- Passport records in the store are counted and excluded as the code does. Their form is not modelled.

## Findings

| source | as written | input that shows it | evidently intended | confidence | as-written member | corrected member |
|---|---|---|---|---|---|---|
| src/components/Search.jsx:294 | the update path is `/${bookingType}-bookings/<id>`, built from the record's type tag | an `airport_transfer` record is sent to `/airport_transfer-bookings/<id>`, but the kind is listed from `/airport-transfer-bookings` (the same holds for `car_rental`) | the update goes to the collection the kind is listed from | not executed | SearchSession.TransferUpdateMissesCollection | SearchSession.UpdatePathInCollection |
| src/components/FlightBookingForm.jsx:4 | the API base is a single-quoted string, so `${...}` is not interpolated | any submit: the URL starts with the literal `${import.meta.env.VITE_API_URL}` | requests go under the configured API URL | not executed | FlightForm.RequestMissesApi | FlightForm.SubmitRequest |
| src/components/HotelBookingForm.jsx:164 | the create URL is a single-quoted string while the update URL is a template | a new hotel booking is posted to the literal `${import.meta.env.VITE_API_URL}/hotel-bookings` | a new booking is posted to `<API URL>/hotel-bookings` | not executed | HotelForm.NewBookingMissesApi | HotelForm.SubmitRequest |
