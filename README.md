# Leadership development app: onboarding copy, coach actions, weekly nudges

A Dafny model of the server-side core of a leadership-coaching web application, plus two
onboarding pages. It covers:

- **Onboarding copy overrides.**
  - Four pages have fixed default copy.
  - A coach can store a sparse override per page. The actions clean it of empty values before storing it.
  - The pages read the override merged over the defaults.
  - A coach-side editor keeps the override being edited.
- **Role-gated actions.**
  - A coach edits a client's Padlet link, leadership purpose, themes and weekly hypotheses, or deletes the client.
  - Each coach action is a fixed-order chain of checks (identifier shape, text rules, authentication, coach role, client role, ownership of the addressed row), followed by a single write.
  - A user updates their own profile and reads it back. The profile input is validated by the input schemas.
- **The weekly SMS nudge batch.**
  - A bearer-token gate admits the scheduler.
  - The route sends the weekly message to every opted-in client in order, through the SMS helper's pre-send checks, and logs an audit row for each delivered message.
- **The job-role and company-info onboarding pages.**
  - The job-role page keeps a list of one to three themes and saves the non-blank entries, trimmed.
  - The company-info page keeps one success description per theme and writes them back onto the themes.

The database is a class, `Db.Store`, with one map per table, the append-only nudge log, and the
signed-in caller. Each action is a module-level method that takes the store as a parameter and
may modify it. Its contract says:

- which error comes first;
- that nothing is written on any failure, other than the users write that
  `ProfileActions.UpdateProfile` keeps when its later settings write fails;
- exactly which row and column change on success.

A failing write is a boolean parameter. The SMS provider is a function parameter from the request
to its reply. The URL parser is a predicate parameter. Stateful code is modelled as classes or
methods with loops, proved against specification functions: the merge loop, the cleaning loop, the
copy-map loop, the send loop, and the editor and page state. Pure code is modelled as functions and
lemmas.

Text is `seq<char>`. The JavaScript `trim()` is modelled with the ECMAScript whitespace and line
terminator set (`Text.Trim`), and JavaScript truthiness is spelled out where the code relies on it:

- `''` is false;
- `[]` is true;
- `x || fallback` takes the fallback only when `x` is false.

## Model

| member | source | states |
|---|---|---|
| Text.Trim | lib/actions/coach.ts:47 | the trimmed text is no longer than the input, is empty exactly when the input is all whitespace, and neither starts nor ends with whitespace |
| Text.TrimStartSpec | lib/actions/coach.ts:47 | stripping leading whitespace leaves a suffix that starts with a non-whitespace character, and everything removed is whitespace |
| Text.TrimEndSpec | lib/actions/coach.ts:47 | stripping trailing whitespace leaves a prefix that ends with a non-whitespace character, and everything removed is whitespace |
| Text.TrimIdempotent | lib/actions/coach.ts:47 | trimming twice is trimming once |
| Text.TrimOfUnpadded | lib/actions/coach.ts:47 | a text that neither starts nor ends with whitespace is its own trim |
| Text.TrimIsWindow | lib/actions/coach.ts:47 | the trim is a contiguous window of the input with only whitespace on either side |
| Text.BlankIffAllWhitespace | lib/twilio/send-sms.ts:32-35 | a text is blank (its trim is falsy) exactly when every character is whitespace, i.e. when no character is non-whitespace |
| Text.NatToString | app/api/weekly-nudges/send/route.ts:13 | the decimal rendering of a count is non-empty and made of digits |
| Text.NatToStringRoundTrip | app/api/weekly-nudges/send/route.ts:13 | reading the rendered digits back gives the count |
| Text.NatToStringInjective | app/api/weekly-nudges/send/route.ts:13 | different counts render differently |
| Lists.RemoveAt | app/job-role/page.tsx:58 | dropping index `i` shortens the list by one and keeps the other items in order; an index outside the list changes nothing |
| Lists.NonBlank | app/job-role/page.tsx:69 | the filtered list is no longer than the input and holds only non-blank entries; `NonBlankConcat` pins its order |
| Lists.NonBlankConcat | app/job-role/page.tsx:69 | the filter keeps order: filtering two runs in turn is filtering each, and one entry is kept exactly when it is not blank |
| Lists.NonBlankMembers | app/job-role/page.tsx:69 | an entry is kept exactly when it is in the input and is not blank |
| Lists.NonBlankEmptyIff | app/job-role/page.tsx:69-70 | the filter leaves nothing exactly when every entry is blank |
| Lists.NonBlankHead | app/job-role/page.tsx:78 | the first kept entry is the first non-blank entry, and everything before it is blank |
| Lists.NonBlankIdempotent | app/job-role/page.tsx:69 | filtering twice is filtering once |
| Lists.NonBlankOfNonBlank | app/job-role/page.tsx:69 | a list with no blank entry passes the filter whole |
| Lists.TrimAll | app/job-role/page.tsx:76 | mapping `trim` keeps the length and trims each entry in place |
| OnboardingDefaults.ParsePageKey | lib/config/onboarding-defaults.ts:53 | a parsed key prints back as the text it came from; text that is not one of the four keys parses to nothing |
| OnboardingDefaults.ParseKeyText | lib/config/onboarding-defaults.ts:53 | each page key parses back from its text |
| OnboardingDefaults.DefaultCopy | lib/config/onboarding-defaults.ts:115-127 | defines each of the four pages' fixed default record; its key sets and values are stated by `FieldsAreDefaultKeys` and `DefaultsAreSet` |
| OnboardingDefaults.GetDefaultCopy | lib/config/onboarding-defaults.ts:115-127 | a default record exists exactly for the four page keys, and it is that page's record; any other key fails |
| OnboardingDefaults.FieldsAreDefaultKeys | lib/config/onboarding-defaults.ts:6-51 | each page's declared field list is exactly the key set of its default record, with no repeats |
| OnboardingDefaults.OnboardingFieldsListed | lib/config/onboarding-defaults.ts:6-68 | the onboarding page declares exactly the keys of its default record, each once |
| OnboardingDefaults.JobRoleFieldsListed | lib/config/onboarding-defaults.ts:15-82 | the job-role page declares exactly the keys of its default record, each once |
| OnboardingDefaults.CompanyInfoFieldsListed | lib/config/onboarding-defaults.ts:29-93 | the company-info page declares exactly the keys of its default record, each once |
| OnboardingDefaults.WelcomeFieldsListed | lib/config/onboarding-defaults.ts:40-110 | the welcome page declares exactly the keys of its default record, each once |
| OnboardingDefaults.Merge | lib/config/onboarding-defaults.ts:133-158 | defines the merged record in closed form; `MergeFields` states its keys and each field's source, and the loop is proved equal to it |
| OnboardingDefaults.Overlaid | lib/config/onboarding-defaults.ts:144-155 | defines the field-by-field overlay of an override on a default record, as the loop computes it |
| OnboardingDefaults.MergeCopyWithDefaults | lib/config/onboarding-defaults.ts:133-158 | the merge loop computes `Merge`: the defaults without an override, else each default field overwritten by the override where the override sets it |
| OnboardingDefaults.Overlay | lib/config/onboarding-defaults.ts:144-155 | overwriting the copied defaults key by key, skipping `undefined`, `null`, `''` and `[]`, yields the field-wise overlay |
| OnboardingDefaults.DefaultsAreSet | lib/config/onboarding-defaults.ts:61-110 | every default value is a non-empty string or a non-empty list |
| OnboardingDefaults.OnboardingDefaultsSet | lib/config/onboarding-defaults.ts:61-68 | every onboarding default is a non-empty string |
| OnboardingDefaults.JobRoleDefaultsSet | lib/config/onboarding-defaults.ts:70-82 | every job-role default is a non-empty string or a non-empty list |
| OnboardingDefaults.CompanyInfoDefaultsSet | lib/config/onboarding-defaults.ts:84-93 | every company-info default is a non-empty string |
| OnboardingDefaults.WelcomeDefaultsSet | lib/config/onboarding-defaults.ts:95-110 | every welcome default is a non-empty string or a non-empty list |
| OnboardingDefaults.MergeWithoutOverride | lib/config/onboarding-defaults.ts:139-141 | with no override, or an empty one, the merge is exactly the page's defaults |
| OnboardingDefaults.MergeFields | lib/config/onboarding-defaults.ts:144-154 | the merged keys are the default keys; a field is the override's value when the override sets it and the default otherwise; other override keys are ignored |
| OnboardingDefaults.MergeNeverEmpty | lib/config/onboarding-defaults.ts:147-154 | no merged field is ever `null`, `''` or `[]` |
| OnboardingDefaults.MergeIdempotent | lib/config/onboarding-defaults.ts:133-158 | merging a merged record again changes nothing, and merging the defaults as an override gives the defaults |
| OnboardingDefaults.OverlaidIdempotent | lib/config/onboarding-defaults.ts:144-155 | over defaults that are all set, overlaying the result of an overlay again changes nothing, and overlaying the defaults on themselves gives the defaults |
| OnboardingDefaults.MergeDependsOnlyOnSetFields | lib/config/onboarding-defaults.ts:146-154 | two overrides that set the same default fields to the same values merge alike |
| OnboardingDefaults.AllPageKeys | lib/config/onboarding-defaults.ts:163-165 | four page keys, all different |
| OnboardingDefaults.AllPageKeysComplete | lib/config/onboarding-defaults.ts:163-165 | every page key is listed |
| OnboardingDefaults.PageName | lib/config/onboarding-defaults.ts:170-183 | a key outside the four is returned as given |
| OnboardingDefaults.PageNamesDistinct | lib/config/onboarding-defaults.ts:170-179 | the four pages have four different names |
| Db.NudgesWithout | lib/actions/coach.ts:590-592 | the rows that survive deleting a client are exactly the log rows about other clients |
| Db.NudgesWithoutConcat | lib/actions/coach.ts:590-592 | deleting a client's rows keeps every other row, duplicates included, in order: it distributes over concatenation, and one row survives exactly when it is about another client |
| Db.Store.DeleteUserCascade | lib/actions/coach.ts:590-592 | deleting an identity removes it together with its themes, actions, settings and nudge history, and keeps every other row |
| Guards.Guard.Then | lib/actions/coach.ts:126-176 | a check chain passes exactly when both links pass; a failing first link is the result, and after a passing one the second link decides |
| Guards.IdCheck | lib/actions/coach.ts:133-136 | the identifier check passes exactly for the 8-4-4-4-12 hexadecimal shape and otherwise fails with the action's message |
| Guards.CoachCheck | lib/actions/coach.ts:138-158 | passes exactly for a signed-in caller whose row has the coach role; no caller means "Not authenticated"; other failures are the lookup failure or the action's message |
| Guards.ClientCheck | lib/actions/coach.ts:160-173 | passes exactly when the target row exists with the client role; otherwise "Client not found" or the action's message |
| Guards.ClientCallerIsForbidden | lib/actions/coach.ts:156-158 | a signed-in client is refused with the action's own message |
| Schemas.IsUuid | lib/validations/schemas.ts:35 | defines a UUID as 36 characters with hyphens at 8, 13, 18 and 23 and hexadecimal digits, of either case, elsewhere |
| Schemas.IsRole | lib/validations/schemas.ts:12 | defines the role enum as exactly `client` or `coach` |
| Schemas.IsE164 | lib/validations/schemas.ts:21 | defines `^\+[1-9]\d{1,14}$`: a plus, a non-zero digit, then 1 to 14 digits |
| Schemas.IsValidPhone | lib/validations/schemas.ts:18-23 | defines the phone schema as the empty string or an E.164 number; `PhoneExamples` checks it on samples |
| Schemas.PhoneExamples | lib/validations/schemas.ts:18-23 | `5551234`, `+1` and `+0123` are rejected and `+14155551234` is accepted |
| Schemas.IsValidSaveTheme | lib/validations/schemas.ts:45-51 | defines a valid theme save as a UUID user id and 1 to 500 characters of theme text |
| Schemas.IsValidSaveProgress | lib/validations/schemas.ts:53-59 | defines a valid progress save as a UUID user id and 1 to 2000 characters of text |
| Schemas.IsValidWeeklyAction | lib/validations/schemas.ts:61-64 | defines a valid weekly action as 1 to 500 characters |
| Schemas.IsValidSaveWeeklyActions | lib/validations/schemas.ts:66-72 | defines a valid action save as a UUID user id and 1 to 10 valid actions |
| Schemas.IsValidIdWithFlag | lib/validations/schemas.ts:74-86 | defines the nudge-preference and toggle schemas as a UUID id, the flag being typed |
| Schemas.IsValidSendNudge | lib/validations/schemas.ts:92-98 | defines a valid nudge as a UUID client id and 1 to 320 characters of message |
| Schemas.IsValidUpdateProfile | lib/validations/schemas.ts:34-39 | defines a valid profile update: a UUID user id, a name of 1 to 100 characters if given, a valid phone if given |
| Schemas.IsValidUserProfile | lib/validations/schemas.ts:25-29 | defines a valid user profile: a name of 1 to 100 characters, an email accepted by the library's email check, and any phone or none |
| Schemas.ValidateUpdateProfile | lib/validations/schemas.ts:34-39 | an update is accepted exactly when the user id is a UUID, a given name has 1 to 100 characters and a given phone is valid; otherwise the message of the first violated rule in field order: "Invalid user ID", then "Name is required" or the too-long message, then the phone format message |
| Schemas.OnlyUserIdRequired | lib/validations/schemas.ts:34-39 | an update naming no field besides a UUID user id is valid |
| CoachActions.NormalizeOptionalText | lib/actions/coach.ts:201 | blank text becomes null; other text is stored trimmed, non-empty and already trimmed |
| CoachActions.RequiredTextCheck | lib/actions/coach.ts:239-244 | passes exactly for non-blank text within the limit; blank text fails with "required" before the length is looked at |
| CoachActions.MaxLengthCheck | lib/actions/coach.ts:190-192 | passes exactly when the text is within the limit |
| CoachActions.Ownership | lib/actions/coach.ts:252-261 | passes exactly when the addressed row belongs to the client, and otherwise fails with "not found" |
| CoachActions.VerifyCoachAccess | lib/actions/coach.ts:126-176 | passes exactly when the id is a UUID, the caller is a coach and the target is a client; a malformed id fails first |
| CoachActions.VerifyCoachAccessOrder | lib/actions/coach.ts:133-173 | each of the six failures is reported by the first check that fails, in the source's order |
| CoachActions.MalformedIdIndependentOfStore | lib/actions/coach.ts:133-136 | a malformed id is refused whatever the store holds and whoever calls |
| CoachActions.NormalizePadletUrl | lib/actions/coach.ts:47 | a missing or blank URL becomes null; any other URL is stored trimmed |
| CoachActions.PadletUrlCheck | lib/actions/coach.ts:50-57 | a URL passes when there is none, or when it has at most 2048 characters and parses as https |
| CoachActions.PadletChecks | lib/actions/coach.ts:41-95 | passes exactly when the id, the URL rules, the coach and client checks all pass; a bad URL is reported before authentication |
| CoachActions.UpdateClientPadletUrl | lib/actions/coach.ts:35-120 | returns the first failed check's error or the write failure and writes nothing; on success only the client's `padletUrl` changes, to the normalised URL |
| CoachActions.PurposeChecks | lib/actions/coach.ts:190-197 | a purpose over 500 characters is refused before access is verified; otherwise access decides |
| CoachActions.UpdateClientLeadershipPurpose | lib/actions/coach.ts:185-220 | on failure nothing is written; on success only the client's purpose changes, to the trimmed text or null |
| CoachActions.ThemeNameChecks | lib/actions/coach.ts:235-261 | passes exactly for a UUID theme id, a non-blank name of at most 100 characters, verified access and a theme owned by the client; text rules come before access |
| CoachActions.ThemeNameLengthBoundary | lib/actions/coach.ts:242-244 | a 100-character name passes the text rules; a 101-character name is refused before any lookup |
| CoachActions.UpdateClientThemeName | lib/actions/coach.ts:229-284 | on failure nothing is written; on success only that theme's text changes, to the trimmed name |
| CoachActions.DescriptionChecks | lib/actions/coach.ts:299-321 | passes exactly for a UUID theme id, at most 2000 characters, verified access and an owned theme |
| CoachActions.UpdateClientSuccessDescription | lib/actions/coach.ts:293-345 | on failure nothing is written; on success only that theme's description changes, to the trimmed text or null |
| CoachActions.AddHypothesisChecks | lib/actions/coach.ts:360-386 | passes exactly for a UUID theme id, non-blank text of at most 500 characters, verified access and an owned theme |
| CoachActions.AddClientHypothesis | lib/actions/coach.ts:354-415 | on success exactly one open action is added, for the client under the theme with the trimmed text, and its id is returned; on failure nothing is written |
| CoachActions.UpdateHypothesisChecks | lib/actions/coach.ts:430-456 | passes exactly for a UUID hypothesis id, valid text, verified access and an action owned by the client |
| CoachActions.UpdateClientHypothesis | lib/actions/coach.ts:424-478 | on failure nothing is written; on success only that action's text changes, to the trimmed text |
| CoachActions.DeleteHypothesisChecks | lib/actions/coach.ts:492-512 | passes exactly for a UUID id, verified access and an owned action; a malformed id fails first |
| CoachActions.DeleteClientHypothesis | lib/actions/coach.ts:487-535 | on failure nothing is written; on success only that action is removed |
| CoachActions.DeleteClientChecks | lib/actions/coach.ts:546-588 | passes exactly for a UUID id, a coach caller and a client target; a coach target is "Cannot delete coaches" |
| CoachActions.DeleteClient | lib/actions/coach.ts:544-609 | on failure nothing is written; on success the client's user and settings rows, exactly the themes and actions the client owns and exactly the nudge rows about the client are removed, everything else of every table is kept |
| CoachActions.ClientCallerCannotActAsCoach | lib/actions/coach.ts:156-158 | a signed-in client is refused by every coach action's role check |
| ProfileActions.StoredPhone | lib/actions/profile.ts:51-54 | an empty phone is stored as null; any other phone is stored as given |
| ProfileActions.UserUpdate | lib/actions/profile.ts:47-54 | only the supplied name and phone change; role, email, purpose and link are kept |
| ProfileActions.UpdateProfile | lib/actions/profile.ts:28-97 | the first schema message, then "Not authenticated", then the ownership error, each with nothing written; a failed users write returns "Failed to update profile" before settings is touched, with nothing written; a failed settings write returns "Failed to update settings" with the users write applied; success exactly when valid, owned and no needed write fails |
| ProfileActions.UpdateTouchesOnlyOwnRows | lib/actions/profile.ts:56-79 | every other user's rows are unchanged by an update |
| ProfileActions.UpdateIdempotent | lib/actions/profile.ts:56-79 | applying the same update twice leaves the tables as applying it once |
| ProfileActions.EmptyPhoneClearsPhone | lib/actions/profile.ts:51-54 | submitting `''` clears the stored phone, and submitting no phone keeps it |
| ProfileActions.GetProfileData | lib/actions/profile.ts:103-146 | no caller, or a missing profile row, is an error; otherwise the caller's own row, with a missing settings row read as weekly nudges on |
| ProfileActions.UpdateThenReadBack | lib/actions/profile.ts:28-146 | after an update, reading the profile back shows the submitted name, phone and preference, and the email unchanged |
| OnboardingCopyActions.DropEmpty | lib/actions/onboarding-copy.ts:56 | the filtered items are the items that are not `''`, and the result holds no `''`; `DropEmptyConcat` pins its order |
| OnboardingCopyActions.DropEmptyConcat | lib/actions/onboarding-copy.ts:56 | the filter keeps order: filtering two runs in turn is filtering each, and one item is kept exactly when it is not `''` |
| OnboardingCopyActions.DropEmptyOfClean | lib/actions/onboarding-copy.ts:56 | items without `''` pass the filter unchanged |
| OnboardingCopyActions.CleanValue | lib/actions/onboarding-copy.ts:53-62 | `''` and `null` are dropped, other strings are kept as they are, and a list keeps its non-empty items and is dropped when none remain; whatever survives is set |
| OnboardingCopyActions.CleanCopyData | lib/actions/onboarding-copy.ts:51-64 | the cleaning loop yields every entry that survives `CleanValue`, under its own key |
| OnboardingCopyActions.CleanedHasNoEmptyValues | lib/actions/onboarding-copy.ts:51-64 | the cleaned record has no key the input lacks, and holds no `null`, `''`, `[]` or list containing `''` |
| OnboardingCopyActions.CleanIdempotent | lib/actions/onboarding-copy.ts:51-64 | cleaning a cleaned record changes nothing |
| OnboardingCopyActions.CleanCommutesWithRemoval | lib/actions/onboarding-copy.ts:51-64 | removing a field commutes with cleaning |
| OnboardingCopyActions.CleanPreservesMerge | lib/actions/onboarding-copy.ts:51-64 | when no list holds `''`, cleaning does not change what the merged page shows |
| OnboardingCopyActions.PageKeyCheck | lib/actions/onboarding-copy.ts:22-25 | passes exactly for the four page keys, and otherwise fails with "Invalid page key" |
| OnboardingCopyActions.UpdateCopyChecks | lib/actions/onboarding-copy.ts:22-48 | passes exactly for a known key and a coach caller; an unknown key fails before authentication |
| OnboardingCopyActions.UpdateOnboardingCopy | lib/actions/onboarding-copy.ts:16-96 | on failure nothing is written; on success the page's row, and only it, holds the cleaned override and the saving coach |
| OnboardingCopyActions.ResetCopyChecks | lib/actions/onboarding-copy.ts:110-136 | passes exactly for a known key and a coach caller; an unknown key fails first |
| OnboardingCopyActions.ResetOnboardingCopy | lib/actions/onboarding-copy.ts:105-163 | on failure nothing is written; on success only that page's row is deleted |
| OnboardingCopyActions.RowsWithEmptyKey | lib/actions/onboarding-copy.ts:196-199 | the rows the bulk delete keeps are exactly those whose key is `''` |
| OnboardingCopyActions.ResetAllOnboardingCopy | lib/actions/onboarding-copy.ts:170-220 | the coach check comes first and involves no page key; on success only the rows with key `''` remain |
| OnboardingCopyActions.ResetAllClearsEveryPage | lib/actions/onboarding-copy.ts:196-199 | after the bulk delete no page has an override |
| OnboardingCopyActions.ResetLeavesOtherPages | lib/actions/onboarding-copy.ts:139-142 | resetting one page keeps every other page's override |
| OnboardingCopyQueries.GetOnboardingCopy | lib/queries/onboarding-copy.ts:18-42 | the page's defaults when there is no row or the read fails; otherwise the stored override laid over the defaults, field by field |
| OnboardingCopyQueries.PageCopyNeverEmpty | lib/queries/onboarding-copy.ts:18-42 | a page read never shows `null`, `''` or `[]` |
| OnboardingCopyQueries.GetRawOnboardingCopy | lib/queries/onboarding-copy.ts:95-120 | the stored override unmerged, or nothing when there is no row or the read fails |
| OnboardingCopyQueries.RawAndMergedAgree | lib/queries/onboarding-copy.ts:18-42 | the merged page is the merge of the raw override |
| OnboardingCopyQueries.CopyMapOf | lib/queries/onboarding-copy.ts:66-70 | the built map has exactly the page keys that occur in the rows |
| OnboardingCopyQueries.CopyMapLastRowWins | lib/queries/onboarding-copy.ts:66-70 | a key holds the copy of the last row with that key |
| OnboardingCopyQueries.BuildCopyMap | lib/queries/onboarding-copy.ts:66-71 | the loop builds `CopyMapOf` of the rows |
| OnboardingCopyQueries.GetAllOnboardingCopy | lib/queries/onboarding-copy.ts:48-89 | each of the four pages is the merge of its own map entry, or of nothing when there is none or the read fails |
| OnboardingCopyQueries.StoredOverrideOfMap | lib/queries/onboarding-copy.ts:66-78 | each page is looked up under its own key in the map the rows build, and nothing is looked up after a failed read |
| OnboardingCopyQueries.AllDefaultsOnFailure | lib/queries/onboarding-copy.ts:79-88 | a failed read shows every page's defaults |
| OnboardingCopyQueries.StoredOverrideIsRaw | lib/queries/onboarding-copy.ts:48-78 | when the rows list the table, each page of the whole-table read gets the same override a raw read of that page returns |
| OnboardingCopyQueries.AllCopyAgreesWithPageRead | lib/queries/onboarding-copy.ts:48-89 | when the rows list the table, each page of the whole-table read equals a read of that one page |
| OnboardingCopyEditor.Characters | components/coach/onboarding-copy-editor.tsx:46 | spreading a string gives its characters, one per item |
| OnboardingCopyEditor.CurrentArray | components/coach/onboarding-copy-editor.tsx:45 | an edited list, even an empty one, is used; an edited non-empty string is spread into characters; otherwise the default list |
| OnboardingCopyEditor.JoinWithCommas | components/coach/onboarding-copy-editor.tsx:96 | a one-item list shows as that item, and an empty list as nothing |
| OnboardingCopyEditor.FieldValue | components/coach/onboarding-copy-editor.tsx:93-99 | an uncustomised field shows nothing; a customised string shows itself; a customised list shows its items joined by commas, as `String(list)` does |
| OnboardingCopyEditor.ArrayFieldValue | components/coach/onboarding-copy-editor.tsx:101-107 | the edited list when it has items, otherwise the default list |
| OnboardingCopyEditor.IsFieldCustomized | components/coach/onboarding-copy-editor.tsx:109-111 | defines a customised field as one holding something other than `undefined`, `null` or `''` |
| OnboardingCopyEditor.ErrorText | components/coach/onboarding-copy-editor.tsx:68 | the action's error when it is not empty, otherwise the fallback |
| OnboardingCopyEditor.CopyEditor.constructor | components/coach/onboarding-copy-editor.tsx:26-31 | the edited copy starts as the stored override, or empty without one, and there is no message |
| OnboardingCopyEditor.CopyEditor.HasCustomizations | components/coach/onboarding-copy-editor.tsx:34 | defines "has customisations" as a stored override with at least one key |
| OnboardingCopyEditor.CopyEditor.HandleFieldChange | components/coach/onboarding-copy-editor.tsx:36-42 | only that key changes, to the new value, and the message is cleared |
| OnboardingCopyEditor.CopyEditor.HandleArrayFieldChange | components/coach/onboarding-copy-editor.tsx:44-49 | the field becomes the list the handlers start from, with one item replaced |
| OnboardingCopyEditor.CopyEditor.HandleAddArrayItem | components/coach/onboarding-copy-editor.tsx:51-54 | the field becomes the starting list with `''` appended |
| OnboardingCopyEditor.CopyEditor.HandleRemoveArrayItem | components/coach/onboarding-copy-editor.tsx:56-59 | the field becomes the starting list without the item at the index |
| OnboardingCopyEditor.CopyEditor.HandleClearField | components/coach/onboarding-copy-editor.tsx:86-91 | exactly that key is removed from the edited copy |
| OnboardingCopyEditor.CopyEditor.HandleSave | components/coach/onboarding-copy-editor.tsx:61-71 | the edits are kept; the message is success, or the action's error or "Failed to save" |
| OnboardingCopyEditor.CopyEditor.HandleReset | components/coach/onboarding-copy-editor.tsx:73-84 | a successful reset empties the edited copy; a failed one keeps it and shows the error or "Failed to reset" |
| OnboardingCopyEditor.TypedTextReadsBack | components/coach/onboarding-copy-editor.tsx:93-111 | typed text reads back as typed, and the field counts as customised exactly when the text is not empty |
| OnboardingCopyEditor.ArrayEditReadsBack | components/coach/onboarding-copy-editor.tsx:44-49 | after an item is replaced, the list shown has the same length and holds the new item at that index |
| OnboardingCopyEditor.AddThenRemoveRestores | components/coach/onboarding-copy-editor.tsx:51-59 | adding an item and then removing the last one gives back the starting list |
| OnboardingCopyEditor.ClearFieldOverlay | components/coach/onboarding-copy-editor.tsx:86-91 | over any default record, clearing one field of the cleaned override reverts that field to its default and leaves every other field as it was |
| OnboardingCopyEditor.ClearFieldRevertsOnlyThatField | components/coach/onboarding-copy-editor.tsx:86-91 | once the edits are saved and merged, a cleared field shows its default and every other field is unchanged |
| Sms.GetTwilioConfig | lib/twilio/send-sms.ts:8-20 | a configuration exists exactly when all three values are set and not empty, and it holds those values |
| Sms.PreSendError | lib/twilio/send-sms.ts:32-47 | nothing is wrong exactly when the recipient is not blank, the body is not empty and at most 1600 characters, and the configuration is complete; otherwise the first problem in that order |
| Sms.ReplyResult | lib/twilio/send-sms.ts:57-64 | the result is a success exactly when the provider returned a non-empty SID, and then carries that SID; a thrown error's message is passed on |
| Sms.SendSms | lib/twilio/send-sms.ts:28-66 | a pre-send problem is returned without calling the provider; otherwise the provider is asked with the trimmed recipient; a success always has a SID and passed every check |
| Sms.BodyLengthBoundary | lib/twilio/send-sms.ts:39-41 | a 1600-character body passes the length check, and a 1601-character body fails it |
| Sms.InputCheckedBeforeConfig | lib/twilio/send-sms.ts:32-47 | bad input is reported even when nothing is configured |
| Sms.RecipientPaddingIrrelevant | lib/twilio/send-sms.ts:32 | whitespace around the recipient changes nothing |
| WeeklyNudges.ThemeText | app/api/weekly-nudges/send/route.ts:9 | never empty; a non-empty theme is shown as itself |
| WeeklyNudges.ActionsLine | app/api/weekly-nudges/send/route.ts:10-13 | "No open actions this week." for zero; otherwise the decimal count in the encouragement sentence |
| WeeklyNudges.Greeting | app/api/weekly-nudges/send/route.ts:14 | defines the opening `Hi <name>, your focus: <theme>. ` of the message |
| WeeklyNudges.BuildWeeklyMessage | app/api/weekly-nudges/send/route.ts:8-15 | defines the message as the greeting followed by the actions sentence; the lemmas below state its prefix, its ending and that it determines the count |
| WeeklyNudges.MessageOpensWithGreeting | app/api/weekly-nudges/send/route.ts:8-15 | every message starts with `Hi <name>` and the focus sentence, and goes on past it |
| WeeklyNudges.NoOpenActionsIffZero | app/api/weekly-nudges/send/route.ts:11-14 | the message ends with "No open actions this week." exactly when the count is zero |
| WeeklyNudges.EmptyThemeIsNotSet | app/api/weekly-nudges/send/route.ts:9 | an empty theme and a missing theme give the same message, and both read "Not set" |
| WeeklyNudges.MessageDeterminesCount | app/api/weekly-nudges/send/route.ts:8-15 | two counts give the same message only when they are equal |
| WeeklyNudges.AuthorizeTrigger | app/api/weekly-nudges/send/route.ts:26-50 | an unset secret is a 500 whatever the header; every other refusal is a 401 |
| WeeklyNudges.AuthorizedIff | app/api/weekly-nudges/send/route.ts:37-50 | the scheduler is admitted exactly when the secret is set and the header is `Bearer ` followed by it |
| WeeklyNudges.MessageFor | app/api/weekly-nudges/send/route.ts:123-127 | defines the message built for one prepared client |
| WeeklyNudges.EntryFor | app/api/weekly-nudges/send/route.ts:130-146 | a result entry names its client, and is a delivery exactly when the send returned a SID |
| WeeklyNudges.Outcomes | app/api/weekly-nudges/send/route.ts:122-128 | one send outcome per client |
| WeeklyNudges.OutcomeAt | app/api/weekly-nudges/send/route.ts:122-128 | the `i`-th outcome is the `i`-th client's message sent as the `i`-th call |
| WeeklyNudges.EntriesOf | app/api/weekly-nudges/send/route.ts:118-147 | one entry for each client handled so far |
| WeeklyNudges.EntryAt | app/api/weekly-nudges/send/route.ts:130-146 | the `i`-th entry belongs to the `i`-th client, and is a delivery exactly when that send succeeded |
| WeeklyNudges.Entries | app/api/weekly-nudges/send/route.ts:118-147 | the results hold one entry per client |
| WeeklyNudges.ResultOfEachClient | app/api/weekly-nudges/send/route.ts:122-146 | each result names its client, in input order, and is a delivery with the provider's SID exactly when that client's own send returned one |
| WeeklyNudges.CountDelivered | app/api/weekly-nudges/send/route.ts:119-146 | defines `sentCount` as the number of delivered entries |
| WeeklyNudges.CountFailed | app/api/weekly-nudges/send/route.ts:119-146 | defines `failedCount` as the number of failed entries |
| WeeklyNudges.CountsAddUp | app/api/weekly-nudges/send/route.ts:119-146 | sent plus failed is the number of results |
| WeeklyNudges.AuditRow | app/api/weekly-nudges/send/route.ts:131-136 | defines the `nudges_sent` row: the coach, the client and the message behind `[Automated Weekly] ` |
| WeeklyNudges.AuditLog | app/api/weekly-nudges/send/route.ts:130-141 | defines the rows logged for the first clients: one per successful send whose insert succeeds, in order |
| WeeklyNudges.AuditRowsOnlyForDelivered | app/api/weekly-nudges/send/route.ts:130-141 | every audit row names the coach and a client whose send returned a SID, and its text is the automated prefix followed by that client's weekly message |
| WeeklyNudges.AuditRowsAtMostDeliveries | app/api/weekly-nudges/send/route.ts:130-141 | there are never more audit rows than delivered messages |
| WeeklyNudges.BatchStep | app/api/weekly-nudges/send/route.ts:122-146 | handling one more client appends its entry to the results, adds one to the sent or the failed count by its outcome, and appends its audit row exactly when its send succeeded and the insert did not fail |
| WeeklyNudges.AuditRowPerDelivery | app/api/weekly-nudges/send/route.ts:130-141 | when no audit insert fails, there is exactly one audit row per delivered message |
| WeeklyNudges.OutcomesAreSends | app/api/weekly-nudges/send/route.ts:122-128 | the outcomes are the sends, client by client |
| WeeklyNudges.Messages | app/api/weekly-nudges/send/route.ts:123-127 | the bodies are what `buildWeeklyMessage` gives each client, in order |
| WeeklyNudges.SendWeeklyMessage | app/api/weekly-nudges/send/route.ts:123-128 | the body is that client's weekly message and the result is that client's send outcome |
| WeeklyNudges.SendBatch | app/api/weekly-nudges/send/route.ts:118-147 | the loop's results are one entry per client in order, and its counts are the delivered and failed entries; the log gains the audit rows of the delivered messages whose insert succeeded; no other table changes |
| WeeklyNudges.Eligible | app/api/weekly-nudges/send/route.ts:66-80 | defines the clients the query selects: a client with a phone whose settings opt in to weekly nudges |
| WeeklyNudges.OpenActions | app/api/weekly-nudges/send/route.ts:101-106 | defines the client's open weekly actions, whose number is the open action count |
| WeeklyNudges.IsLatestTheme | app/api/weekly-nudges/send/route.ts:93-99 | defines the theme read: the text of a theme of the client created last, or none when the client has no theme |
| WeeklyNudges.PreparedFrom | app/api/weekly-nudges/send/route.ts:91-116 | defines what the route prepares for one client from the store: eligibility, name, phone, open action count and latest theme |
| WeeklyNudges.WeeklyNudgesPost | app/api/weekly-nudges/send/route.ts:24-162 | the gate's refusal, then "no coach", then a failed client query, each with nothing written; otherwise a summary whose results are the per-client entries, with counts adding up to the number of clients, and audit rows appended |
| OnboardingUser.ThemeNames | app/company-info/page.tsx:83 | one name per theme, in order |
| JobRolePage.Edited | app/job-role/page.tsx:50-66 | adding appends `''` only below three entries; removing drops exactly one entry only while more than one remains; updating replaces one entry and keeps the length |
| JobRolePage.LengthStaysInRange | app/job-role/page.tsx:50-60 | any run of edits keeps a list of one to three entries within one to three |
| JobRolePage.FromStartInRange | app/job-role/page.tsx:25 | starting from the single empty entry, the list always has one to three entries |
| JobRolePage.LoadedPurpose | app/job-role/page.tsx:40 | a non-empty stored purpose replaces the one shown; otherwise it is kept |
| JobRolePage.LoadedThemes | app/job-role/page.tsx:43-47 | the stored theme list's names, else the older single name, else what was shown; never empty when the list shown was not |
| JobRolePage.ThemeListTakesPrecedence | app/job-role/page.tsx:43-47 | a non-empty stored theme list wins over the older single theme name, whatever it holds |
| JobRolePage.JobRoleForm.constructor | app/job-role/page.tsx:23-25 | the page starts with no record, an empty purpose and one empty theme |
| JobRolePage.JobRoleForm.Load | app/job-role/page.tsx:30-48 | without a stored record nothing changes; otherwise the record, the loaded purpose and the loaded themes, and the list stays non-empty |
| JobRolePage.JobRoleForm.AddTheme | app/job-role/page.tsx:50-54 | keeps at least one entry; the list becomes the result of the add edit; nothing else changes |
| JobRolePage.JobRoleForm.RemoveTheme | app/job-role/page.tsx:56-60 | keeps at least one entry; the list becomes the result of the remove edit; nothing else changes |
| JobRolePage.JobRoleForm.UpdateTheme | app/job-role/page.tsx:62-66 | keeps at least one entry; the list becomes the result of the update edit; nothing else changes |
| JobRolePage.NewEntries | app/job-role/page.tsx:76 | one entry per name, holding only that name |
| JobRolePage.SavedPurpose | app/job-role/page.tsx:75 | a blank purpose is dropped; any other purpose is saved trimmed and non-empty |
| JobRolePage.HandleContinue | app/job-role/page.tsx:68-84 | a record is saved exactly when one is loaded and some entry survives the blank filter; the saved record is the loaded one with only the purpose, themes and themeName replaced, and the purpose is the trimmed text or none when blank |
| JobRolePage.HasValidTheme | app/job-role/page.tsx:90 | defines `themes.some(t => t.trim())`: some entry is not blank |
| JobRolePage.ContinueIffValidTheme | app/job-role/page.tsx:69-90 | the page saves exactly when a record is loaded and `hasValidTheme` holds |
| JobRolePage.TrimmedNamesNotEmpty | app/job-role/page.tsx:69-76 | no kept entry trims to the empty name |
| JobRolePage.TrimmedNamesAreTrimmed | app/job-role/page.tsx:69-76 | every kept name is already trimmed |
| JobRolePage.NonBlankEntriesKept | app/job-role/page.tsx:69-76 | every non-blank entry's trimmed text is among the kept names |
| JobRolePage.TrimmedNamesFromEntries | app/job-role/page.tsx:69-76 | every kept name is the trimmed text of some non-blank entry |
| JobRolePage.EntryOfName | app/job-role/page.tsx:69-76 | names the non-blank entry that the `i`-th kept name was trimmed from |
| JobRolePage.TrimmedNonBlank | app/job-role/page.tsx:69-76 | the saved names are trimmed and not empty, each is the trimmed text of some non-blank entry, and every non-blank entry's trimmed text is among them |
| JobRolePage.SavedThemesAreTheNonBlankEntries | app/job-role/page.tsx:73-79 | the saved themes are the non-blank entries, trimmed, in order (the `i`-th saved name is the trim of the `i`-th kept entry), each with a non-empty name and no description; each saved name comes from a non-blank entry and every non-blank entry is saved |
| JobRolePage.ThemeNameIsFirstNonBlankEntry | app/job-role/page.tsx:78 | the older single theme name is the first non-blank entry, as typed |
| JobRolePage.BlankOfTrim | app/job-role/page.tsx:69-76 | trimming does not change whether a text is blank |
| JobRolePage.PurposeSurvivesReload | app/job-role/page.tsx:40-75 | reloading a saved purpose and saving again stores the same purpose |
| JobRolePage.NamesSurviveReload | app/job-role/page.tsx:69-76 | the saved names pass the filter and the trim unchanged |
| JobRolePage.NamesOfNewEntries | app/job-role/page.tsx:44-76 | reading back the names of the saved entries gives the names |
| JobRolePage.SaveReloadSave | app/job-role/page.tsx:30-84 | saving, reloading and saving again changes only the older single theme name, which becomes trimmed |
| JobRolePage.ReloadAndContinueSettles | app/job-role/page.tsx:30-84 | after that second save, a further reload and save changes nothing |
| CompanyInfoPage.DescriptionOf | app/company-info/page.tsx:42 | a theme's description, or `''` without one |
| CompanyInfoPage.InitialDescriptions | app/company-info/page.tsx:40-47 | one description per theme when there is a non-empty theme list; else the older single description when it is not empty; else one empty description; never empty |
| CompanyInfoPage.CompanyInfoForm.constructor | app/company-info/page.tsx:24-25 | the page starts with no record and no descriptions |
| CompanyInfoPage.CompanyInfoForm.Load | app/company-info/page.tsx:29-48 | without a stored record nothing changes; otherwise the record and its initial descriptions |
| CompanyInfoPage.CompanyInfoForm.UpdateDescription | app/company-info/page.tsx:50-54 | only the description at the index changes, and the length is kept |
| CompanyInfoPage.TrimmedAt | app/company-info/page.tsx:63 | the trimmed description at a position, or `''` past the end |
| CompanyInfoPage.UpdatedThemes | app/company-info/page.tsx:61-64 | no themes without a stored list; otherwise the same themes with their names kept, each carrying the trimmed description at its position |
| CompanyInfoPage.HasValidDescription | app/company-info/page.tsx:82 | defines `descriptions[0]?.trim()`: a first description that is not blank |
| CompanyInfoPage.HandleContinue | app/company-info/page.tsx:56-76 | a record is saved exactly when one is loaded and the first description is not blank; only its themes and its single description change, the latter to the trimmed, non-empty first description |
| CompanyInfoPage.ThemeNamesShown | app/company-info/page.tsx:83 | any stored theme list gives its names, even when empty; otherwise exactly one non-empty name |
| CompanyInfoPage.Heading | app/company-info/page.tsx:106 | defines the heading: the single-theme heading for exactly one name, the many-themes heading otherwise; `HeadingIff` states when |
| CompanyInfoPage.HeadingIff | app/company-info/page.tsx:105-107 | the single-theme heading shows exactly when one name is shown |
| CompanyInfoPage.NoThemeListShowsOneName | app/company-info/page.tsx:83-106 | without a theme list, the page shows the older name or "your theme", under the single-theme heading |
| CompanyInfoPage.EmptyThemeListShowsNoNames | app/company-info/page.tsx:41-83 | an empty theme list shows no names and the many-themes heading, while one description is kept |
| CompanyInfoPage.TrimmedDescriptionsReload | app/company-info/page.tsx:42-64 | the saved themes, reloaded, show each description trimmed in place |
| CompanyInfoPage.SaveThenReload | app/company-info/page.tsx:40-76 | saving and reloading shows the descriptions trimmed; without a theme list it shows the first description trimmed |
| CompanyInfoPage.AfterJobRole | app/company-info/page.tsx:40-83 | after the job-role page saves, this page shows the saved theme names and one empty description per theme |

## Left out

- Lengths are counted in Unicode scalar values. JavaScript counts UTF-16 code units, so a text containing characters outside the Basic Multilingual Plane is shorter here than in the source.
- The database client, row-level security and the privileged client are replaced by `Db.Store`.
  - A read that fails is a missing row, as the source's `error || !data` tests treat it.
  - A write that fails is a boolean parameter.
  - Exceptions thrown by the client libraries, and the `catch` blocks that turn them into "An unexpected error occurred" or the exception's message, are not modelled.
- The URL parser in `isValidHttpsUrl` is a predicate parameter (`isHttpsUrl`). Its parsing rules are not modelled.
- Identifiers are compared as exact strings. The id check accepts upper-case hexadecimal, and a database `uuid` column would match an id in any letter case; that case-insensitive matching is not modelled. So the model reports "not found" for an upper-case spelling of a stored lower-case id.
- `Db.Store.DeleteUserCascade`: the cascade from the identity table to the user's themes, actions, settings and nudge history is declared by the schema, not by the code. It is stated as the store's behaviour.
- `revalidatePath` calls, `console.error` logging and the summary's `generated_at` timestamp are left out. They are cache, logging and clock side effects with no effect on the results.
- The SMS provider SDK is a function parameter: the `i`-th call's reply is `twilio(i)`. The environment variables are optional-string parameters. Sms.SendSms does not model a body that is not a string or a recipient that is `null`, since both are typed as strings.
- WeeklyNudges.WeeklyNudgesPost takes the query results as given:
  - the coach is any coach row;
  - each prepared client must agree with the store (`PreparedFrom`);
  - the model does not require that every eligible client is listed;
  - it does not model a failed theme or action query inside the per-client preparation, where the source falls back to no theme and a count of 0;
  - it does not model the ordering of the clients query.
- The `Promise.all` preparation step is modelled sequentially. Among themes created at the same instant, `IsLatestTheme` accepts any.
- CoachActions.AddClientHypothesis receives the new row's id and creation time as parameters, and requires the id to be fresh, as the database's generated key is.
- Schemas.ValidateUpdateProfile:
  - uses the plain 8-4-4-4-12 hexadecimal shape for `uuid()`, as the actions do; stricter version or variant checks of the schema library are not modelled;
  - gives only the first message, not the library's full issue list.
- The other schemas (`saveThemeSchema`, `saveProgressSchema`, `saveWeeklyActionsSchema`, `updateNudgePreferenceSchema`, `toggleActionCompleteSchema`, `sendNudgeSchema`, `userProfileSchema`) are predicates without contracts. The email check of `userProfileSchema` is a predicate parameter; its rules are not modelled.
- Override values are strings, lists of strings or `null`. Numbers, booleans and nested objects stored in an override are not modelled. Neither are `null` or `undefined` items inside a list.
- OnboardingCopyEditor.CopyEditor.HandleArrayFieldChange requires the index to be inside the list shown. JavaScript would extend the list with holes; the editor only offers indices on screen.
- OnboardingCopyEditor.CopyEditor.HandleRemoveArrayItem requires that the field does not hold a non-empty string. JavaScript would throw there, because a string has no `filter`.
- JobRolePage.JobRoleForm.UpdateTheme and CompanyInfoPage.CompanyInfoForm.UpdateDescription require the index to be on screen, for the same reason as the editor's item change.
- The pages' other browser behaviour is not modelled: `localStorage`, `JSON.parse`, the redirect when no record is stored, router navigation, focus state and rendering. The stored record is a parameter, and a saved record is the function's result.
- The editor's expansion state, save and reset transitions and rendering are not modelled. `HandleSave` and `HandleReset` take the action's result as a parameter, and set the message the source sets once the transition ends.
