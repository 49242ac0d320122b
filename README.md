# Research platform front end: parsers and UI rules, modelled in Dafny

This project models the logic of the research platform's front end in Dafny. That logic is the "raw API record to typed client object" parsing and the few decision rules inside its UI components. The rest of the front end is rendering. Each source file below has its own Dafny module. Every module imports `Common` from `common.dfy`.

| module | file | models |
|---|---|---|
| `Common` | `common.dfy` | `undefined`/thrown errors (`Option`, `Result`), API ids, `Array.map` (`MapSeq`), `Array.find` (`FindFirst`), `${n}` for whole numbers |
| `Contribution` | `contribution.dfy` | `config/types/contribution.ts`: the content-type resolver, the `parseContribution` dispatcher, `parseCreatedBy` and the four variant mappers |
| `AuthorProfile` | `author_profile.dfy` | `components/Author/lib/types.ts`: `parseFullAuthorProfile` |
| `Doi` | `doi.dfy` | `components/PaperPageCard.js`: `formatDoiUrl` |
| `PostTypes` | `post_types.dfy` | `components/TextEditor/config/postTypes.tsx`: `getPostTypeStruct`, the `POST_TYPES` enum and the two tables |
| `HubSelect` | `hub_select.dfy` | `components/Hubs/HubSelectDropdown.tsx`: selection resolution in `onChange`, `formattedSelectedHubs`, `noOptionsMessage`, `handleHubInputChange` |
| `Login` | `login_modal.dfy` | `components/Login/LoginModal.tsx`: the six-screen step machine, its input and error cells, `reset` and `resetErrors` |

How the model is built:

- **Pure code becomes functions.** The resolver, the author-profile mapper, the DOI link rule, the post-type lookup and the hub resolution pipeline are functions on datatypes. A thrown error is a `Result.Err` carrying the error's message.
- **Code that mutates becomes classes with methods.** `parseCreatedBy` writes the actor's names into the nested `author_profile`, and `parsePaperContribution` writes `documents` into `unified_document`. Those two raw objects are classes whose fields the methods assign. Each method is proved equal to a function over a value snapshot of the record (`ContributionOf`, `PaperOf`, and so on). It is also proved to leave the record exactly as `AfterParse` says.
- **Hidden collaborators are parameters.** `parseAuthorProfile`, `parseUnifiedDocument`, `parseInstitution` and `isValidEmail` are not part of this model. They are passed in as functions: a `Parsers` value, or the modal's `isValidEmail` field. Their result types are abstract types.
- **The login modal is a class plus a pure step function.** The `LoginModal` class holds the eleven state cells. Each handler is a method proved to move `State()` by a pure transition function on `LoginState`. A handler that awaits a request is split in two:
  - a method for the part up to the request, which returns whether the request is sent;
  - a method for the part that runs when the reply settles, which takes the server reply as a parameter.

  `Next` puts the transitions together behind the controls each screen renders. The step-graph lemma is stated about `Next`.

Raw API records keep their snake_case key names (`first_name`, `created_by`, ...), because those are the wire names the parsers read.

Three facts about the contribution parser shape the model:
- **Dispatch order.** `parseContribution` runs the item mapper before `parseContentType`, because `item` comes before `contentType` in the object literal. `ContributionOf` follows that order, so a missing actor is the error reported for a known name.
- **Writes.** The variant mappers write into the caller's raw record: the credited actor's `author_profile` gets the actor's names, and a paper's `unified_document` gets `documents`. The methods model those writes.
- **Error texts.** An unknown name throws `Error("Could not parse object with content_type=" + name)`, which the model keeps exactly. An absent actor, profile or document makes the engine throw a TypeError, whose text the model keeps as a constant.

## Model

| member | source | states |
|---|---|---|
| Common.MapSeq | components/Author/lib/types.ts:62-79 | `xs.map(f)` keeps length and order and applies `f` element by element |
| Common.MapSeqAppend | components/Hubs/HubSelectDropdown.tsx:151-153 | mapping a concatenation is the concatenation of the mappings |
| Common.FindFirst | components/TextEditor/config/postTypes.tsx:14-16 | `find` gives `undefined` iff no element satisfies the predicate; otherwise it gives the element at the first satisfying index |
| Common.FindFirstAt | components/TextEditor/config/postTypes.tsx:14-16 | the first satisfying index determines the result of `find` |
| Common.FindFirstConcat | components/Hubs/HubSelectDropdown.tsx:148-152 | `find` over `a.concat(b)` returns `a`'s match when there is one, else `b`'s |
| Common.DecimalText | components/Author/lib/types.ts:51 | `${n}` of a whole number is a non-empty string of digits |
| Common.DecimalRoundTrip | components/Author/lib/types.ts:51 | reading the digits of `${n}` back gives `n` |
| Doi.FormatDoiUrl | components/PaperPageCard.js:102-119 | `undefined` iff the input is falsy; otherwise the result starts with one of the two `dx.doi.org` prefixes and ends with the input; an input on either prefix is returned unchanged, and anything else gets the https prefix |
| Doi.FormatDoiUrlIdempotent | components/PaperPageCard.js:110-118 | normalising twice equals normalising once |
| Doi.OtherHostsAreNotRecognised | components/PaperPageCard.js:110-116 | every `http://` or `https://` URL whose host part is not `dx.doi.org/` gets the https prefix in front of its scheme |
| PostTypes.TableFor | components/TextEditor/config/postTypes.tsx:9-17 | the question table is chosen iff the document is a question or a bounty or the post type is `ANSWER`; otherwise the main table |
| PostTypes.GetPostTypeStruct | components/TextEditor/config/postTypes.tsx:8-18 | a found entry has the requested value and belongs to the table that the question/answer/bounty condition selects; `undefined` iff no entry of that table has the value |
| PostTypes.AnswerResolvesToAnswer | components/TextEditor/config/postTypes.tsx:52-58 | `ANSWER` resolves to the "Answer" entry for every document type |
| PostTypes.QuestionDocumentLookups | components/TextEditor/config/postTypes.tsx:52-67 | on questions and bounties, `SUMMARY` and `REVIEW` are `undefined` and `DISCUSSION` is the question-discussion entry |
| PostTypes.MainDocumentLookups | components/TextEditor/config/postTypes.tsx:27-50 | elsewhere each main post type resolves to its own row of the main table |
| PostTypes.TablesWellFormed | components/TextEditor/config/postTypes.tsx:27-67 | in both tables the values are distinct and exactly one entry, the first, is the default |
| AuthorProfile.ProfileUrl | components/Author/lib/types.ts:51 | the URL is `/user/`, then the id's text, then `/overview`, with nothing else in between |
| AuthorProfile.UrlIdText | components/Author/lib/types.ts:51 | the text between `/user/` and `/overview` is recovered from a profile URL |
| AuthorProfile.ProfileUrlRoundTrip | components/Author/lib/types.ts:51 | `/user/${id}/overview` gives back `${id}`, and for numeric ids the number itself |
| AuthorProfile.ProfileUrlInjective | components/Author/lib/types.ts:51 | distinct numeric ids have distinct profile URLs |
| AuthorProfile.ParseFullAuthorProfile | components/Author/lib/types.ts:45-83 | succeeds iff `coauthors`, `summary_stats`, `activity_by_year` and `institutions` are present; a failure names the first absent one in evaluation order; on success the scalars are copied and `url` is `/user/` + id + `/overview` |
| AuthorProfile.ListsMappedInOrder | components/Author/lib/types.ts:62-79 | coauthors, activity and institutions keep length and order, with each element renamed or parsed as written |
| AuthorProfile.SummaryStatsRenamed | components/Author/lib/types.ts:63-67 | the summary statistics are renamed field by field |
| AuthorProfile.DefaultsApplied | components/Author/lib/types.ts:54-57 | `headline` defaults to "" and `openalex_ids`/`achievements` to the empty list; otherwise the raw values are kept |
| AuthorProfile.EmptyVersusAbsent | components/Author/lib/types.ts:56-79 | empty nested lists parse to empty lists, an absent one (or absent stats) fails, and absent optional lists do not |
| HubSelect.FormattedSelectedHubs | components/Hubs/HubSelectDropdown.tsx:108-111 | one option per selected hub, in order, with label = name and value = id |
| HubSelect.NoOptionsMessage | components/Hubs/HubSelectDropdown.tsx:137-141 | "No hubs found" iff the query has at least 3 characters, "Type to search hubs" iff fewer |
| HubSelect.AvailableHubs | components/Hubs/HubSelectDropdown.tsx:148-150 | the suggestions' hubs in order, followed by the selected hubs |
| HubSelect.LookupHub | components/Hubs/HubSelectDropdown.tsx:152 | `find` gives `undefined` iff no available hub has the option's id; a found hub is available and has that id |
| HubSelect.Present | components/Hubs/HubSelectDropdown.tsx:153 | the filter keeps exactly the found hubs; when every lookup found one it keeps all of them, in order |
| HubSelect.ResolveHubs | components/Hubs/HubSelectDropdown.tsx:151-153 | the resolved list is no longer than the chosen values |
| HubSelect.PresentAppend | components/Hubs/HubSelectDropdown.tsx:153 | the filter works element by element over a concatenation |
| HubSelect.ResolveHubsAppend | components/Hubs/HubSelectDropdown.tsx:151-153 | resolution goes value by value and keeps the order of the values |
| HubSelect.ResolveOne | components/Hubs/HubSelectDropdown.tsx:152-153 | one value contributes its first matching hub, or nothing when no hub matches |
| HubSelect.ResolvedHubsAreFirstMatches | components/Hubs/HubSelectDropdown.tsx:148-153 | every resolved hub is the first available hub carrying some chosen value's id |
| HubSelect.AllMatchedKeepsLength | components/Hubs/HubSelectDropdown.tsx:151-153 | when every value has a match, one hub per value comes back, in order |
| HubSelect.SuggestionWins | components/Hubs/HubSelectDropdown.tsx:148-152 | a suggested hub wins over an already selected hub with the same id |
| HubSelect.OnChangeAsWritten | components/Hubs/HubSelectDropdown.tsx:145-156 | the handler as written throws exactly on a cleared single-select while some hub is available; with no hub the `find` predicate never runs |
| HubSelect.ClearedSingleSelectThrows | components/Hubs/HubSelectDropdown.tsx:146-152 | a cleared single-select (`[null]`) dereferences null as soon as one hub is available |
| HubSelect.NothingToResolve | components/Hubs/HubSelectDropdown.tsx:148-153 | with no hub available, no chosen value resolves |
| HubSelect.OnChange | components/Hubs/HubSelectDropdown.tsx:145-156 | a cleared selection of either kind gives `[]`; otherwise no more hubs than values, and at most one for a single-select |
| HubSelect.OnChangeAgreesWhereDefined | components/Hubs/HubSelectDropdown.tsx:145-156 | the corrected handler equals the written one wherever that one does not throw |
| HubSelect.SingleValueResolution | components/Hubs/HubSelectDropdown.tsx:146-152 | a single value is wrapped in a list and resolves to its first matching hub or to nothing |
| HubSelect.HubSelectDropdown.constructor | components/Hubs/HubSelectDropdown.tsx:94 | the suggestion list starts empty |
| HubSelect.HubSelectDropdown.HandleHubInputChange | components/Hubs/HubSelectDropdown.tsx:96-101 | a query of 3 or more characters replaces the suggestions with the fetched ones; a shorter one leaves them unchanged |
| HubSelect.HubSelectDropdown.ChangedHubs | components/Hubs/HubSelectDropdown.tsx:145-156 | every hub handed to `onChange` is one of the current suggestions or selected hubs |
| Contribution.ParseContentType | config/types/contribution.ts:59-81 | succeeds iff the name is one of the six known names, copying `id` and choosing the tag whose names contain it; otherwise fails with the prefix followed by the name |
| Contribution.ContentTypeRoundTrip | config/types/contribution.ts:61-72 | every raw name of every tag resolves to that tag |
| Contribution.UnknownTypeMessageNamesIt | config/types/contribution.ts:73-75 | the error message ends with the unrecognised name |
| Contribution.CreatedByOf | config/types/contribution.ts:45-57 | an actor with a profile maps to its own id and names |
| Contribution.CreatedByFrom | config/types/contribution.ts:45-57 | `parseCreatedBy` succeeds iff the actor and its `author_profile` are present; an absent actor fails reading `author_profile`, an absent profile fails setting `first_name` |
| Contribution.NameAuthority | config/types/contribution.ts:45-57 | the nested profile's own names play no part: the profile parser gets the actor's names, and id and names are copied |
| Contribution.CommentOf | config/types/contribution.ts:121-130 | the comment mapper succeeds iff `created_by` can be credited, and copies `id` and `plain_text` into a comment item |
| Contribution.PaperOf | config/types/contribution.ts:132-149 | the paper mapper fails first on an absent `unified_document`, then on an uploader that cannot be credited; on success it copies `id`, `title` and `slug` into a paper item |
| Contribution.PostOf | config/types/contribution.ts:163-173 | the post mapper succeeds iff `created_by` can be credited, and copies `id`, `title` and `slug` into a post item |
| Contribution.HypothesisOf | config/types/contribution.ts:151-161 | the hypothesis mapper succeeds iff `created_by` can be credited, and copies `id`, `title` and `slug` into a hypothesis item |
| Contribution.PaperBackfill | config/types/contribution.ts:132-149 | the document parser gets `documents = {id, title, slug}` of the paper, the uploader is credited, and `created_by` is ignored |
| Contribution.NonPaperMappersUseCreator | config/types/contribution.ts:121-173 | the comment, post and hypothesis mappers credit `created_by`, copy their fields, pass the document through unchanged and ignore the uploader |
| Contribution.ContributionOf | config/types/contribution.ts:83-119 | a successful parse has a known content-type name and copies `created_date` |
| Contribution.DispatchAgreesWithTag | config/types/contribution.ts:83-119 | the dispatcher succeeds iff the name is known, the credited actor has an `author_profile`, and a paper has a `unified_document`; then the date is copied, the content type is the resolver's, and the item variant matches the tag |
| Contribution.UnknownNameFails | config/types/contribution.ts:114-116 | an unknown name fails with the resolver's message and no partial result |
| Contribution.AfterParse | config/types/contribution.ts:45-149 | the record after parsing: scalars unchanged; a non-paper keeps its uploader and document; a paper keeps its creator; an unknown name, or a paper without a document, changes nothing |
| Contribution.CopyNamesStable | config/types/contribution.ts:45-47 | writing the actor's names into the profile twice is writing them once, and does not change what `parseCreatedBy` returns |
| Contribution.ReparseGivesSameResult | config/types/contribution.ts:45-149 | parsing a record again after the first run's writes gives the same result, and the writes are idempotent |
| Contribution.ParseCreatedBy | config/types/contribution.ts:45-57 | the result is `CreatedByFrom` the actor as it was; an absent actor or an absent `author_profile` throws before any write; otherwise only the profile's two names are overwritten with the actor's |
| Contribution.ParseCommentContribution | config/types/contribution.ts:121-130 | the result is `CommentOf` the record as it was; only the creator's profile is written |
| Contribution.ParsePaperContribution | config/types/contribution.ts:132-149 | the result is `PaperOf` the record as it was; an absent `unified_document` throws before any write; otherwise `documents` is set even when the uploader cannot be credited |
| Contribution.ParsePostContribution | config/types/contribution.ts:163-173 | the result is `PostOf` the record as it was; only the creator's profile is written |
| Contribution.ParseHypothesisContribution | config/types/contribution.ts:151-161 | the result is `HypothesisOf` the record as it was; only the creator's profile is written |
| Contribution.ParseContribution | config/types/contribution.ts:83-119 | the result is `ContributionOf` the record as it was; nothing is written for an unknown name, and the record ends as `AfterParse` says |
| Login.ErrorsCleared | components/Login/LoginModal.tsx:177-183 | all five error cells are cleared and nothing else changes |
| Login.Reset | components/Login/LoginModal.tsx:185-193 | no errors, the four inputs empty, not loading, the provider screen |
| Login.AccountCheckSubmitted | components/Login/LoginModal.tsx:57-99 | errors cleared first; a valid email starts loading, an invalid one sets the email error and leaves the step and loading unchanged |
| Login.AccountCheckSettled | components/Login/LoginModal.tsx:66-95 | no account leads to sign-up, and a verified email account to the password form; any other existing account keeps the screen and shows a message; loading always ends |
| Login.LoginSubmitted | components/Login/LoginModal.tsx:102-113 | an empty password only sets the password error, before loading is ever set; otherwise the error is cleared and loading starts |
| Login.LoginSettled | components/Login/LoginModal.tsx:113-149 | a failed login shows the server's message; loading ends and the screen is kept |
| Login.UserLoaded | components/Login/LoginModal.tsx:121-146 | the modal closes and resets iff there is no login callback and a user record arrives that has either seen the ORCID modal or has an author profile; with no user, or an unseen ORCID modal and no profile, the onboarding redirect throws and nothing changes |
| Login.SignupSubmitted | components/Login/LoginModal.tsx:195-213 | each of the three checks raises its own error independently; loading starts iff all three pass |
| Login.SignupErrorMessageShows | components/Login/LoginModal.tsx:221-231 | the error path's message is never empty |
| Login.SignupSettledAsWritten | components/Login/LoginModal.tsx:215-236 | the reply as written: the `finally` block's `resetErrors` runs after the error path |
| Login.SignupErrorIsLostAsWritten | components/Login/LoginModal.tsx:230-236 | as written, a refused or failed sign-up ends with no message on screen |
| Login.SignupSettled | components/Login/LoginModal.tsx:215-236 | success leads to the verify-email screen with every error cleared; any failure clears the field errors, keeps the screen and leaves its message showing; loading ends and the inputs are kept |
| Login.SignupCorrectionOnlyKeepsMessage | components/Login/LoginModal.tsx:215-236 | the corrected settle equals the written one on success, and differs only in the message cell on failure |
| Login.ResetRequested | components/Login/LoginModal.tsx:152-160 | an invalid email only sets the email error; a valid one starts loading |
| Login.ResetSettledAsWritten | components/Login/LoginModal.tsx:165-174 | the reset reply as written, with `resetErrors` in `finally` |
| Login.ResetErrorIsLostAsWritten | components/Login/LoginModal.tsx:168-174 | as written, a failed reset request ends with no message on screen |
| Login.ResetSettled | components/Login/LoginModal.tsx:165-174 | success leads to the email-sent screen with every error cleared; a failure clears the field errors, keeps the screen and shows its message; loading ends |
| Login.ResetCorrectionOnlyKeepsMessage | components/Login/LoginModal.tsx:165-174 | the corrected settle equals the written one on success, and differs only in the message cell on failure |
| Login.WentBack | components/Login/LoginModal.tsx:250-257 | the back arrow clears the errors and returns to the provider screen, keeping the inputs |
| Login.EmailChanged | components/Login/LoginModal.tsx:311-316 | the email takes the typed value; a non-empty value clears the email error |
| Login.LoginPasswordChanged | components/Login/LoginModal.tsx:356-365 | the password takes the typed value; the error flag is set iff the value is empty |
| Login.FirstNameChanged | components/Login/LoginModal.tsx:388-393 | the first name takes the typed value; a non-empty value clears its error |
| Login.LastNameChanged | components/Login/LoginModal.tsx:402-407 | the last name takes the typed value; a non-empty value clears its error |
| Login.SignupPasswordChanged | components/Login/LoginModal.tsx:419-424 | the password takes the typed value; a value longer than 8 characters clears the error |
| Login.SignupPasswordThresholdsAgree | components/Login/LoginModal.tsx:207-210 | typing clears a password error exactly for the passwords the submit check accepts, and such a password is not flagged again on submit |
| Login.Rendered | components/Login/LoginModal.tsx:250-505 | replies, the close button and hiding the modal are always possible; on the verify-email and email-sent screens nothing else is; each form control belongs to its own screen |
| Login.Next | components/Login/LoginModal.tsx:250-505 | an event from a control the screen does not render changes nothing; closing or hiding always resets; typing never changes the screen, loading or the message; submitting a form stays on its screen |
| Login.StepChangesOnlyByEntries | components/Login/LoginModal.tsx:57-367 | the screen changes only through that screen's entry events (account reply, sign-up or reset success, the forgot-password link, back, close) |
| Login.ClearingEventsClearErrors | components/Login/LoginModal.tsx:250-268 | back, close and hiding the modal leave no error and return to the provider screen |
| Login.LoginModal.constructor | components/Login/LoginModal.tsx:32-42 | the modal starts in the initial state |
| Login.LoginModal.ResetErrors | components/Login/LoginModal.tsx:177-183 | moves the state by `ErrorsCleared` |
| Login.LoginModal.Reset | components/Login/LoginModal.tsx:185-193 | restores the initial state |
| Login.LoginModal.CheckIfAccountExists | components/Login/LoginModal.tsx:57-99 | sends the request iff the email is valid, moving the state by `AccountCheckSubmitted` |
| Login.LoginModal.SettleAccountCheck | components/Login/LoginModal.tsx:66-95 | moves the state by `AccountCheckSettled` |
| Login.LoginModal.Login | components/Login/LoginModal.tsx:102-113 | sends the request iff the password is non-empty, moving the state by `LoginSubmitted` |
| Login.LoginModal.SettleLogin | components/Login/LoginModal.tsx:113-149 | moves the state by `LoginSettled` |
| Login.LoginModal.SettleUser | components/Login/LoginModal.tsx:121-146 | returns early on a login callback, a missing user, or an unseen ORCID modal without a profile; otherwise resets, moving the state by `UserLoaded` |
| Login.LoginModal.CreateAccount | components/Login/LoginModal.tsx:195-213 | sends the request iff all three checks pass, moving the state by `SignupSubmitted` |
| Login.LoginModal.SettleCreateAccount | components/Login/LoginModal.tsx:215-236 | moves the state by the corrected `SignupSettled` |
| Login.LoginModal.ResetPassword | components/Login/LoginModal.tsx:152-160 | sends the request iff the email is valid, moving the state by `ResetRequested` |
| Login.LoginModal.SettleResetPassword | components/Login/LoginModal.tsx:165-174 | moves the state by the corrected `ResetSettled` |
| Login.LoginModal.GoBack | components/Login/LoginModal.tsx:250-257 | moves the state by `WentBack`, on the three screens that show the arrow |
| Login.LoginModal.OpenForgotPassword | components/Login/LoginModal.tsx:367 | moves from the password form to the forgot-password screen, changing nothing else |
| Login.LoginModal.Close | components/Login/LoginModal.tsx:264-268 | restores the initial state |
| Login.LoginModal.ChangeEmail | components/Login/LoginModal.tsx:311-316 | moves the state by `EmailChanged` |
| Login.LoginModal.ChangeLoginPassword | components/Login/LoginModal.tsx:356-365 | moves the state by `LoginPasswordChanged` |
| Login.LoginModal.ChangeFirstName | components/Login/LoginModal.tsx:388-393 | moves the state by `FirstNameChanged` |
| Login.LoginModal.ChangeLastName | components/Login/LoginModal.tsx:402-407 | moves the state by `LastNameChanged` |
| Login.LoginModal.ChangeSignupPassword | components/Login/LoginModal.tsx:419-424 | moves the state by `SignupPasswordChanged` |

## Left out

- `parseAuthorProfile`, `parseUnifiedDocument`, `parseInstitution` and `isValidEmail` are not part of this model. They are function parameters with abstract result types, so nothing is assumed about the values they compute. They are total functions, though: the model assumes each of them returns without throwing, whatever it is handed (including `parseUnifiedDocument` given an absent `unified_document`, as the comment, post and hypothesis mappers do). The success conditions of `CreatedByFrom`, `CommentOf`, `PaperOf`, `PostOf`, `HypothesisOf`, `DispatchAgreesWithTag` and `ParseFullAuthorProfile` hold only under that assumption: an error those parsers raised would make the source fail where the model succeeds.
- Network requests, Redux thunks (`loginWithEmail`, `getUser`), `fetchHubSuggestions` and response decoding are not modelled. Each server reply is a parameter of the method that handles it, and the hub fetch result is the `fetched` parameter of `HandleHubInputChange`.
- The catch branch of the account check reports through `setMessage`/`showMessage`, which belong to the message store. Here only its effect on the loading flag is modelled.
- The analytics event, the router push, the `handleClose` prop, the `openLoginModal(false)` dispatch and whatever a `loginCallback` does are outside the modal's own state, so they are not modelled.
- React's scheduling of state setters is not modelled. Setters are treated as immediate assignments in program order. A settle method runs against the state current when the reply arrives, and replies may arrive in any order relative to user events.
- Buttons disabled while loading are not modelled as a guard. The Enter key still calls the same handlers, so `Next` does not gate events on `isLoading`.
- The 250 ms debounce of the hub search and all rendering are not modelled: JSX, styles, icons in the post-type tables, the modal's titles and the lightbox and hover state of the paper card.
- `restorePaper`/`removePaper` of the paper card call functions that are never imported, so they cannot be modelled. The rest of that component is rendering.
- `components/ResearchHub/ScrollingHubTags.tsx` is an animation loop over floating-point offsets, so it is not modelled.
- `components/Leaderboard/LeaderboardContainer.js`, `components/Paper/SideColumn/PaperPreview.js` and `redux/configureStore.js` only fetch, render or wire the store.
- `components/TextEditor/config/postTypes.ts` only holds constants and an enum. The `.tsx` file's tables are the ones modelled.
- String lengths count characters, not UTF-16 code units. The two agree except on characters outside the Basic Multilingual Plane.
- Numeric ids are whole numbers. Fractional or negative ids and their `${}` rendering are not modelled.
- Common.DecimalText: writes every whole number in plain decimal digits. JavaScript writes numbers of 10^21 and above in exponent form (`1e+21`), so for such ids the profile URL differs from the source's.
- A raw field that is absent where the source only copies it (for example `title`, or a profile scalar) is modelled as present. Copying `undefined` through does not change control flow.
- In a contribution record, an absent actor (`created_by`, `uploaded_by`), an absent `author_profile` and an absent `unified_document` are modelled, each with the TypeError it raises. An absent `content_type` or `item` of the top-level record is not: the model's raw record always has both, so the TypeError from reading `raw.content_type.name` or from a mapper reading a field of `raw.item` is not modelled.
- `Login.LoginSettled` treats the server's login error message as a string. A missing message, which would leave `miscError` undefined, is not distinguished from the empty string.
- `Contribution.ParseContribution` states the final state of the raw record only when the creator's and uploader's `author_profile` are distinct objects (`SeparateProfiles`). With one shared profile object the method still returns `ContributionOf`, but the stored names are not stated.
- `AuthorProfile.ParseFullAuthorProfile` reports an absent nested field as `MissingRequiredField: <field>`. The JavaScript engine's own TypeError text is not modelled. For an absent actor, profile or document, `Contribution` keeps the TypeError text the engine would give.
- `HubSelect.ResolveHubs` states only the length bound in its own contract. Which hubs come back and in what order is stated by the lemmas `ResolveHubsAppend`, `ResolveOne`, `ResolvedHubsAreFirstMatches` and `AllMatchedKeepsLength`.

## Findings

| source | as written | input that shows it | evidently intended | confidence | as-written member | corrected member |
|---|---|---|---|---|---|---|
| components/Hubs/HubSelectDropdown.tsx:146-152 | a single-select value is wrapped as `[values]` before the empty-list fallback, so a cleared value becomes `[null]` and `v.value` is read on null | `isMulti` false, the selection cleared (`values` null), and some hub available (a suggestion or a selected hub) | a cleared selection calls `onChange([])`, which the fallback shows was meant for null | high; not executed | HubSelect.OnChangeAsWritten | HubSelect.OnChange |
| components/Login/LoginModal.tsx:233-236 | the `finally` block calls `resetErrors()`, which clears the `miscError` that the error path (223, 226, 231) has just set | a sign-up refused by the server, or a failed request | the failure message stays on screen while the other errors are still cleared; the account check's `finally` (93) has its `resetErrors` commented out | high; not executed | Login.SignupSettledAsWritten | Login.SignupSettled |
| components/Login/LoginModal.tsx:171-174 | the `finally` block calls `resetErrors()`, which clears the message the catch (169) has just set | a reset-password request that fails | the failure message stays on screen | high; not executed | Login.ResetSettledAsWritten | Login.ResetSettled |
