# CollabMate client core in Dafny

CollabMate is a single-page app where people publish projects, join them,
and trade skills with each other ("skill swaps": one user offers a skill in
return for learning another). This project models the logic of its client:

- **The store** (`context/AppContext.tsx`). This is the shared state: users, projects, skill swaps, the signed-in user, the session token and the last error. Each operation first tries the server. When the call fails, most operations fall back to a local update.
- **The API layer's decisions** (`services/api.ts`). A reply that is not ok becomes an error; register picks its error message from the reply body; projects from the server get `creatorId` and `requiredSkills` filled in.
- **The seed data** (`constants.ts`).
- **The page logic.** This covers the skill-swap page, the project page, the dashboard, the create-project, login/signup and edit-profile forms, the project search and the header's notification bell.

Modules follow the source files:

- `Types` holds `types.ts`;
- `Constants` holds `constants.ts`;
- `Api` holds `services/api.ts`;
- `AppContext` holds the store, as class `Store`;
- one module per page, each with a class for the page's own state;
- `Header` holds `components/Header.tsx`.

Shared modules: `Text` models the JavaScript string built-ins the pages use (`trim`, `toLowerCase`, `split`, `join`, `includes`, `parseInt`); `CommaList` models the "comma-separated list" idiom built from them; `Seqs` models `filter`, `find` and `some`.

The server is never called. Each remote outcome is a method or function parameter:

- API functions present in `services/api.ts` take a `Reply`: the request failed, a not-ok status with an optional error body, or an ok body.
- The other remote functions take a `Result`: success with a value, or failure with a message.

JavaScript truthiness is written out:

- `HasText` is `!!s` for an optional string: the empty string is falsy.
- `IsTruthy` is `!!n` for an optional number: 0 is falsy.
- `Api.OrNumber` is `a || b` on numbers.

Each store method's postcondition gives the store's whole new state in terms of pure functions of the old state (`AddMember`, `WithStatus`, `ReplaceUser`, `AfterProposal`, `AfterCreate`, `WithUser`). The lemmas are proved about those functions.

The join, toggle-availability and update-status methods leave the store the same whether the server call succeeded or failed. Their postconditions do not mention the server's reply, and Dafny proves that for both branches of each method. This matches the source, where the `try` and `catch` branches make the same update.

Some behaviours of the code are worth stating plainly, because the model keeps them as they are:

- **Self-swaps.** The store does not check that a swap's sender and recipient differ, neither in `proposeSkillSwap` nor in the local fallback.
  - `SkillSwapPage.BothListsOnlyForSelfSwaps` shows such a swap lands in both of the user's lists.
  - Only the pages keep a user from proposing to themselves (`ProjectDetailPage.NoSelfSwapFromThisPage`, `DashboardPage.OptionsNeverSelf`).
- **Decisions.** `updateSkillSwapStatus` sets any status on any swap, including one already accepted or declined, as `AppContext.WithStatusLastWins` states. Only the skill-swap page limits the buttons, to pending swaps addressed to the user whose proposer is a known user (`SkillSwapPage.ShowsActions`).
- **Local placeholders.** A swap or project made locally while the server is unreachable stays in the list; nothing later replaces it with a server record.
- **Error messages.** Every API call except register throws a fixed message and ignores the reply's body.

After `services/api.ts` line 170 the file is cut short. Functions used by the pages but missing from it are modelled only through their result: `getSkillSwaps`, `proposeSkillSwap`, `updateSkillSwapStatus`, the message and history calls, the application calls, the notification calls and `updateMyProfile`.

## Model

| member | source | states |
|---|---|---|
| Types.ParseStatus | types.ts:21 | a string is a status only if it is one of the three names |
| Types.ParseStatusName | types.ts:21 | each of the three statuses has its own name, which parses back to it |
| Constants.SeedUsersDistinctEmails | constants.ts:3-7 | the seed users have ids 1, 2, 3 and pairwise different e-mails |
| Constants.SeedCreatorsAreMembers | constants.ts:9-13 | every seed project lists its creator among its members |
| Constants.SeedSwapsWellFormed | constants.ts:15-18 | the seed swaps have ids 1 and 2 and none is a self-swap |
| Api.Checked | services/api.ts:88 | a not-ok reply becomes the call's fixed error, an unreachable server its message, and only an ok reply gives data |
| Api.RegisterMessage | services/api.ts:71-77 | register's error is the body's non-empty `error`; otherwise `Registration failed: <status>`; for a body that is not JSON, `Registration failed`; it is never empty |
| Api.Register | services/api.ts:59-80 | registration succeeds exactly on an ok reply; a not-ok reply fails with register's message |
| Api.Login | services/api.ts:82-90 | succeeds exactly on an ok reply, with its body; a not-ok reply fails with `Login failed` |
| Api.GetUsers | services/api.ts:93-97 | succeeds exactly on an ok reply, with its body; a not-ok reply fails with `Failed to fetch users` |
| Api.GetUserById | services/api.ts:99-103 | succeeds exactly on an ok reply, with its body; a not-ok reply fails with `Failed to fetch user` |
| Api.ToggleUserAvailability | services/api.ts:105-113 | succeeds exactly on an ok reply, with its body; a not-ok reply fails with `Failed to toggle availability` |
| Api.JoinProject | services/api.ts:161-167 | succeeds exactly on an ok reply; a not-ok reply fails with `Failed to join project` |
| Api.NotOkIsError | services/api.ts:71-166 | every one of the nine calls turns a not-ok reply into its own error, never into data |
| Api.OrNumber | services/api.ts:122 | `a \|\| b` on optional numbers: `a` when it is present and non-zero, else `b` |
| Api.NormaliseProject | services/api.ts:120-124 | `creatorId` becomes `creator_id` when that is present and non-zero, else stays `creatorId`; missing skills become `[]`; every other field is carried over |
| Api.NormaliseIdempotent | services/api.ts:120-124 | normalising a project twice is normalising it once |
| Api.NormaliseAll | services/api.ts:120 | normalising a list keeps its length and order and normalises each project |
| Api.NormaliseAllIdempotent | services/api.ts:120-124 | normalising a list twice is normalising it once |
| Api.GetProjects | services/api.ts:116-125 | the list comes back normalised exactly when the reply is ok |
| Api.GetProjectById | services/api.ts:127-136 | the project comes back normalised exactly when the reply is ok |
| Api.CreateProject | services/api.ts:138-159 | the created project comes back normalised exactly when the reply is ok |
| Api.SameNormalisation | services/api.ts:122-157 | for every list, fetching it normalises each project exactly as fetching or creating that one project does |
| AppContext.FindUser | context/AppContext.tsx:92 | the user found has the id, and there is none exactly when no user has it |
| AppContext.FindProject | context/AppContext.tsx:93 | the project found has the id, and there is none exactly when no project has it |
| AppContext.FindByEmail | context/AppContext.tsx:71 | the first cached user with the e-mail, and none exactly when no user has it |
| AppContext.FindByEmailUnique | context/AppContext.tsx:71 | with distinct e-mails, the login fallback finds the one user with that address |
| AppContext.MaxOrZero | context/AppContext.tsx:111 | `Math.max(0, ...ids)` is at least 0 and every id, and is 0 or one of the ids |
| AppContext.NextId | context/AppContext.tsx:111 | the fallback id, for projects here and for swaps at line 136, is positive and greater than every existing id |
| AppContext.NextIdKeepsDistinct | context/AppContext.tsx:111 | appending the fallback id keeps ids distinct |
| AppContext.AddMember | context/AppContext.tsx:97-98 | only the target project changes, and only its members, which gain the user's id if it was absent |
| AppContext.AddMemberIdempotent | context/AppContext.tsx:97-98 | joining twice is joining once |
| AppContext.AddMemberOccurrences | context/AppContext.tsx:97-98 | after joining, a new member occurs exactly once and an existing member is not added again |
| AppContext.Flipped | context/AppContext.tsx:125-126 | the updated user differs only in `available`, which is negated |
| AppContext.ReplaceUser | context/AppContext.tsx:125-126 | users with the updated id are replaced and all others kept |
| AppContext.ReplaceUserInSync | context/AppContext.tsx:125-126 | after the update every cached copy of the user equals the session's copy |
| AppContext.ToggleTwice | context/AppContext.tsx:123-127 | toggling availability twice restores the user and the cached users |
| AppContext.WithStatus | context/AppContext.tsx:130-131 | only the status of swaps with the id changes, to the new one, whatever it was before |
| AppContext.WithStatusLastWins | context/AppContext.tsx:130-131 | setting a status again overrides the earlier one: no transition is refused |
| AppContext.FallbackSwap | context/AppContext.tsx:136 | the local swap is pending, from the current user, and has the proposal's other fields |
| AppContext.FallbackSwapFresh | context/AppContext.tsx:136 | the local swap's id is above every existing id, so swap ids stay distinct |
| AppContext.FallbackProject | context/AppContext.tsx:110-117 | the local project has a fresh id, the current user as creator and only member, and the submitted fields |
| AppContext.FallbackProjectFresh | context/AppContext.tsx:110-118 | the local project keeps project ids distinct |
| AppContext.ServerProject | context/AppContext.tsx:105 | the creator is `creatorId \|\| creator_id \|\| currentUser.id`; the skills fall back to the submitted ones |
| AppContext.ServerSkillsNeverFallBack | context/AppContext.tsx:105 | after the API layer has normalised a created project, the store's fallback to the submitted skills never applies |
| AppContext.AsStoreProject | context/AppContext.tsx:43-46 | a fetched project enters the store with its fields, its skills defaulted, and a missing creator as 0 |
| AppContext.AsStoreProjects | context/AppContext.tsx:46 | the fetched list keeps its length and order |
| AppContext.WithUser | context/AppContext.tsx:66 | a user that logged in is added only if no cached user has its id, and is then found by `FindUser` |
| AppContext.LoginSucceeds | context/AppContext.tsx:60-78 | login answers true on an ok server reply; otherwise exactly when some cached user has the e-mail |
| AppContext.SignedIn | context/AppContext.tsx:96 | the write guard fails without a user, without a token or with an empty token, and holds with both |
| AppContext.AfterProposal | context/AppContext.tsx:134-137 | signed out, the swaps are unchanged; signed in, exactly one swap is appended: the server's or the local fallback |
| AppContext.AfterCreate | context/AppContext.tsx:101-121 | signed out, the projects are unchanged; signed in, exactly one project is appended: the server's or the local fallback |
| AppContext.AfterProposalKeepsDistinct | context/AppContext.tsx:136 | a proposal made while the server is unreachable keeps swap ids distinct |
| AppContext.AfterCreateKeepsDistinct | context/AppContext.tsx:110-118 | a project created while the server is unreachable keeps project ids distinct |
| AppContext.Store.constructor | context/AppContext.tsx:31-37 | the initial state is the seed lists, no user, the stored token and no error |
| AppContext.Store.FindUserById | context/AppContext.tsx:92 | looks up a cached user by id |
| AppContext.Store.FindProjectById | context/AppContext.tsx:93 | looks up a cached project by id |
| AppContext.Store.FetchData | context/AppContext.tsx:39-50 | each list comes from the server, or is the seed list when that call fails |
| AppContext.Store.FetchSkillSwaps | context/AppContext.tsx:55-58 | no token: nothing changes; otherwise the server's swaps, or the seed swaps on failure |
| AppContext.Store.RefreshData | context/AppContext.tsx:139 | the initial refresh again, plus the swaps when there is a token |
| AppContext.Store.Login | context/AppContext.tsx:60-78 | server login: set the session and add the user if absent. Fallback: sign in the first user with the e-mail, ignoring the password. Neither: set the error and answer false |
| AppContext.Store.Logout | context/AppContext.tsx:80 | clears the user and the token and nothing else |
| AppContext.Store.Signup | context/AppContext.tsx:82-90 | clears the error. Success: set the session and append the user without a duplicate check. Failure: the error's message, or `Signup failed` |
| AppContext.Store.ClearError | context/AppContext.tsx:141 | clears only the error |
| AppContext.Store.JoinProject | context/AppContext.tsx:95-99 | signed in: the user joins the project whatever the server says; signed out: nothing changes |
| AppContext.Store.CreateProject | context/AppContext.tsx:101-121 | answers whether signed in; the projects become `AfterCreate` of the old ones |
| AppContext.Store.ToggleAvailability | context/AppContext.tsx:123-127 | with a user (no token needed): `available` flips in the session and in every cached copy, whatever the server says |
| AppContext.Store.UpdateSkillSwapStatus | context/AppContext.tsx:129-132 | with a token: the swap's status is set whatever the server says; without one: nothing changes |
| AppContext.Store.ProposeSkillSwap | context/AppContext.tsx:134-137 | the swaps become `AfterProposal` of the old ones; a self-swap is not refused |
| AppContext.SeedNextIds | constants.ts:10-17 | from the seed state the first local swap gets id 3 and the first local project id 4 |
| AppContext.SeedUsersEmailFallback | constants.ts:4-6 | the login e-mail fallback finds each seed user by e-mail |
| Seqs.Filter | pages/SkillSwapPage.tsx:62-63 | `filter` keeps exactly the passing elements, each as often as it occurs, in order |
| Seqs.First | context/AppContext.tsx:92-93 | `find` returns the first passing element, or none exactly when nothing passes |
| Seqs.Any | pages/AuthPage.tsx:8-9 | `some` (and a one-class regular-expression test) holds exactly when some element passes |
| Seqs.Map | pages/ProjectDetailPage.tsx:30 | `map` keeps the length and applies the function at each position |
| Text.Trim | pages/SkillSwapPage.tsx:83 | the result of `trim` has no whitespace at either end |
| Text.TrimIsSlice | pages/SkillSwapPage.tsx:83 | what `trim` keeps is a slice of the string with only whitespace cut off before and after it |
| Text.TrimKeepsOut | pages/CreateProjectPage.tsx:25 | trimming brings in no character the text did not hold, so trimmed pieces stay comma-free |
| Text.TrimEmptyIff | pages/SkillSwapPage.tsx:83 | the trimmed text is empty exactly when the text is blank |
| Text.ToLower | pages/DiscoverPage.tsx:11 | `toLowerCase` keeps the length, turns each capital A-Z into its small letter (code + 32) and keeps every other character |
| Text.Split | pages/AuthPage.tsx:61 | `split` on one character gives at least one piece, none holding the separator |
| Text.SplitFirstPiece | components/Header.tsx:83 | the first piece of a split is the longest prefix without the separator |
| Text.JoinSplit | pages/EditProfilePage.tsx:17-31 | joining the pieces of a split with the separator restores the string |
| Text.IncludesIff | pages/DiscoverPage.tsx:13-15 | `includes` holds exactly when the needle occurs at some position |
| Text.IncludesSubstring | pages/DiscoverPage.tsx:13-15 | a string that includes a needle includes every piece of that needle |
| Text.ParseIntOfNatToString | pages/DashboardPage.tsx:36 | `parseInt` reads a decimal id's text back as that id |
| Text.ParseInt | pages/DashboardPage.tsx:36 | text that does not start with a digit after its leading whitespace, a leading sign included, reads as 0 |
| Text.ParseIntReadsLeadingNumber | pages/DashboardPage.tsx:36 | after leading whitespace, `parseInt` reads the decimal number written there and ignores what follows its digits |
| CommaList.ParseList | pages/CreateProjectPage.tsx:25 | the entries are exactly the non-empty trimmed pieces between commas, each kept as often as it occurs, in order; each is trimmed and comma-free |
| CommaList.ParseListEmptyIff | pages/CreateProjectPage.tsx:25-26 | the list is empty exactly when the text is only commas and whitespace |
| CommaList.ParseJoinList | pages/EditProfilePage.tsx:17-31 | parsing the joined text of non-empty, trimmed, comma-free entries gives the entries back |
| SkillSwapPage.StatusClasses | pages/SkillSwapPage.tsx:7-14 | a name that is not a status gets the grey default, and only such a name does |
| SkillSwapPage.StatusClassesDistinct | pages/SkillSwapPage.tsx:7-13 | the three statuses get three different classes |
| SkillSwapPage.Incoming | pages/SkillSwapPage.tsx:62 | exactly the swaps addressed to the user, each as often as it occurs, in order |
| SkillSwapPage.Outgoing | pages/SkillSwapPage.tsx:63 | exactly the swaps sent by the user, each as often as it occurs, in order |
| SkillSwapPage.BothListsOnlyForSelfSwaps | pages/SkillSwapPage.tsx:62-63 | a swap shows in both lists exactly when it is a self-swap |
| SkillSwapPage.CounterpartIsOtherParty | pages/SkillSwapPage.tsx:18 | the card shows the proposer of an incoming swap and the recipient of an outgoing one, never the user |
| SkillSwapPage.CardShown | pages/SkillSwapPage.tsx:18-20 | a card is drawn exactly when some cached user has the counterpart's id |
| SkillSwapPage.ShowsActions | pages/SkillSwapPage.tsx:18-47 | the buttons need an incoming, pending swap; for one, they show exactly when its proposer is a known user |
| SkillSwapPage.ActionsOnlyOnPendingIncoming | pages/SkillSwapPage.tsx:18-47 | accept and decline show exactly on pending swaps addressed to the user whose proposer is a known user; never on a swap the user sent to someone else |
| SkillSwapPage.TextToSend | pages/SkillSwapPage.tsx:83-85 | a message is sent only with a token, a selected swap and non-blank text; what is sent is the trimmed text |
| SkillSwapPage.ChatPanel.Select | pages/SkillSwapPage.tsx:104 | clicking a card selects its swap and changes nothing else |
| SkillSwapPage.ChatPanel.Load | pages/SkillSwapPage.tsx:65-79 | no token or no selection: nothing changes; otherwise the server's lists, or both emptied on failure |
| SkillSwapPage.ChatPanel.SendMessage | pages/SkillSwapPage.tsx:81-89 | the posted message is appended after the earlier ones and the input cleared; a guard or failure changes nothing |
| ProjectDetailPage.JoinMakesMember | pages/ProjectDetailPage.tsx:32 | after joining the user is a member; for a member, joining would change nothing |
| ProjectDetailPage.IsMember | pages/ProjectDetailPage.tsx:32 | a logged-out viewer is no member; a signed-in one is a member exactly when their id is in the member list |
| ProjectDetailPage.IsCreator | pages/ProjectDetailPage.tsx:33 | a logged-out viewer is never the creator; a signed-in one is the creator exactly when their id is the project's creator id |
| ProjectDetailPage.TeamMembers | pages/ProjectDetailPage.tsx:30 | the team has at most one entry per member id, each a cached user whose id is among the member ids |
| ProjectDetailPage.TeamMembersExact | pages/ProjectDetailPage.tsx:30 | the team's ids are the member ids that name a cached user, each as often as it is listed, in member order |
| ProjectDetailPage.TeamMembersLookedUp | pages/ProjectDetailPage.tsx:30 | each entry of the team is the user the lookup finds for its id |
| ProjectDetailPage.TeamMembersComplete | pages/ProjectDetailPage.tsx:30 | every member id naming a known user puts that user on the team; with all ids known the team is as long as the member list |
| ProjectDetailPage.TeamMembersInOrder | pages/ProjectDetailPage.tsx:30 | the team's ids are a subsequence of the member ids |
| ProjectDetailPage.SwapFormVisible | pages/ProjectDetailPage.tsx:154 | the proposal form shows only when toggled open; for a signed-in viewer exactly when open and the viewer is not the creator; for a logged-out viewer whenever open |
| ProjectDetailPage.ApplyFormVisible | pages/ProjectDetailPage.tsx:171 | for a signed-in viewer the application form shows exactly when they are neither creator nor member; a logged-out viewer always sees it |
| ProjectDetailPage.ProposalDraft | pages/ProjectDetailPage.tsx:63-73 | refused with the message unless the creator is known and all fields are filled; otherwise addressed to the creator |
| ProjectDetailPage.NoSelfSwapFromThisPage | pages/ProjectDetailPage.tsx:145-154 | a proposal from the visible form is never addressed to its sender |
| ProjectDetailPage.ReplaceById | pages/ProjectDetailPage.tsx:97 | only applications with the id are replaced by the server's version |
| ProjectDetailPage.ReplaceByIdLastWins | pages/ProjectDetailPage.tsx:97 | an unknown id changes nothing, and a later answer for the same id overrides an earlier one |
| ProjectDetailPage.ShowsDecisionButtons | pages/ProjectDetailPage.tsx:207 | accept and reject show exactly when the application's status text is `pending` |
| ProjectDetailPage.DetailPage.HandleJoin | pages/ProjectDetailPage.tsx:50-54 | a project with id 0 is not joined; otherwise the store's join |
| ProjectDetailPage.DetailPage.HandleProposeSwap | pages/ProjectDetailPage.tsx:60-79 | an incomplete form sets the error and proposes nothing; a complete one is proposed, the form reset and closed, and success shown |
| ProjectDetailPage.DetailPage.HandleApply | pages/ProjectDetailPage.tsx:81-91 | asks to log in without a session or project id; otherwise shows submitted, or the error's message or a generic one |
| ProjectDetailPage.DetailPage.LoadApplications | pages/ProjectDetailPage.tsx:35-48 | only the creator's view with a token loads, and a failed load empties the list |
| ProjectDetailPage.DetailPage.HandleApplicationAction | pages/ProjectDetailPage.tsx:93-101 | with a token, a successful answer replaces the application with that id; otherwise nothing changes |
| DashboardPage.UserProjects | pages/DashboardPage.tsx:20-22 | exactly the projects the user created or belongs to, each as often as in the store, in order |
| DashboardPage.JoinedAndCreatedAreListed | pages/DashboardPage.tsx:20-22 | a project the user joined, or created locally, is among their projects |
| DashboardPage.OtherUsers | pages/DashboardPage.tsx:47 | every user except the current one, each as often as in the cache, in order |
| DashboardPage.OptionValues | pages/DashboardPage.tsx:114-115 | one option per user, each option's text parsing back to that user's id |
| DashboardPage.OptionsNeverSelf | pages/DashboardPage.tsx:112-116 | each recipient option's text parses back to a user other than the current one |
| DashboardPage.ProposalDraft | pages/DashboardPage.tsx:30-40 | refused with the message if any field is empty; otherwise the recipient's text read as a decimal number, the rest as typed |
| DashboardPage.SelectedRecipientReached | pages/DashboardPage.tsx:36 | a form filled from a recipient option is addressed to that user |
| DashboardPage.Dashboard.HandleProposeSwap | pages/DashboardPage.tsx:28-45 | an incomplete form sets the message and proposes nothing; a complete one is proposed, every field emptied and success shown |
| CreateProjectPage.Validate | pages/CreateProjectPage.tsx:25-29 | submission is allowed exactly with a title, a description and a skills field that is not only commas and whitespace; the skills are the parsed list |
| CreateProjectPage.SubmittedSkillsClean | pages/CreateProjectPage.tsx:25 | every submitted skill is non-empty, trimmed and comma-free |
| CreateProjectPage.CreatePage.Submit | pages/CreateProjectPage.tsx:30-43 | the store creates the project; success or failure shown by its answer; the submitting flag ends off |
| CreateProjectPage.CreatePage.HandleSubmit | pages/CreateProjectPage.tsx:21-44 | a refused form shows the error and creates nothing; otherwise submits the parsed skills |
| AuthPage.ValidatePassword | pages/AuthPage.tsx:6-17 | `minLength` iff at least 8 characters; upper iff some A-Z; lower iff some a-z; valid iff all three |
| AuthPage.ValidStaysValid | pages/AuthPage.tsx:6-17 | adding characters on either side never makes a valid password invalid |
| AuthPage.PasswordExamples | pages/AuthPage.tsx:6-17 | 8 letters of both cases are valid; no capital or too short is not; digits and symbols are not required |
| AuthPage.WithField | pages/AuthPage.tsx:34 | the input typed into takes the new text; every other input keeps its own |
| AuthPage.SignupRequestOf | pages/AuthPage.tsx:61-62 | the request's skills are exactly the non-empty trimmed pieces of the field, each as often as it occurs, in order; the other fields as typed |
| AuthPage.AuthPage.HandleChange | pages/AuthPage.tsx:33-39 | typing updates that field; typing a password in signup mode shows the rules |
| AuthPage.AuthPage.SwitchMode | pages/AuthPage.tsx:128-133 | switching mode clears both errors, hides the rules and empties the form |
| AuthPage.AuthPage.HandleSubmit | pages/AuthPage.tsx:41-72 | login skips the password rules; an invalid signup password stops before signup and shows the rules; a failed signup adds its own message only when the error shown before was empty. The store ends as login or signup leaves it: the server's session and user, the e-mail fallback's user, or the error with the session kept |
| EditProfilePage.InitialForm | pages/EditProfilePage.tsx:13-18 | name as is; missing bio or avatar as ''; missing links as '' |
| EditProfilePage.FormAvailable | pages/EditProfilePage.tsx:22 | the form is drawn exactly when the user is signed in with a non-empty token, the store's own write guard |
| EditProfilePage.WithField | pages/EditProfilePage.tsx:24-25 | the input typed into takes the new text; every other input keeps its own |
| EditProfilePage.WithFieldLastWins | pages/EditProfilePage.tsx:24-25 | typing into an input twice keeps the second text; typing its current text changes nothing |
| EditProfilePage.EditProfile.HandleChange | pages/EditProfilePage.tsx:24-26 | the form takes the typed text in that input; messages are kept |
| EditProfilePage.UpdateOf | pages/EditProfilePage.tsx:31-32 | the links sent are exactly the non-empty trimmed pieces of the field, each as often as it occurs, in order; the other fields as typed |
| EditProfilePage.UntouchedFormRoundTrip | pages/EditProfilePage.tsx:17-31 | submitting the untouched form sends back the user's links (clean ones) or none |
| EditProfilePage.EditProfile.Init | pages/EditProfilePage.tsx:11-20 | with a current user the form is refilled from it; without one it is kept |
| EditProfilePage.FailureMessage | pages/EditProfilePage.tsx:35 | the error shown is the error's message, or the generic one when the message is empty; never empty |
| EditProfilePage.EditProfile.ShowOutcome | pages/EditProfilePage.tsx:33-35 | success shows that the profile was updated and no error; failure shows the failure message and no success |
| EditProfilePage.EditProfile.HandleSubmit | pages/EditProfilePage.tsx:28-37 | sends the parsed update; then shows success, or the error's message or a generic one |
| DiscoverPage.MatchesIff | pages/DiscoverPage.tsx:11-16 | a project matches exactly when the lower-cased term occurs in its lower-cased title, description or some skill |
| DiscoverPage.SkillsMatchIff | pages/DiscoverPage.tsx:15 | some skill matches exactly when the lower-cased term occurs in some lower-cased skill |
| DiscoverPage.Search | pages/DiscoverPage.tsx:10-17 | exactly the matching projects, each as often as in the store, in order |
| DiscoverPage.EmptyTermKeepsAll | pages/DiscoverPage.tsx:11-16 | an empty term keeps every project |
| DiscoverPage.CaseInsensitive | pages/DiscoverPage.tsx:11-15 | terms equal up to letter case give the same result |
| DiscoverPage.LowerCaseTermSameResult | pages/DiscoverPage.tsx:11 | searching for the lower-cased term gives the same result |
| DiscoverPage.SubstringStillMatches | pages/DiscoverPage.tsx:13-15 | a project found for a term is found for every piece of it |
| DiscoverPage.SearchIdempotent | pages/DiscoverPage.tsx:10-17 | searching the results again changes nothing |
| Header.MarkRead | components/Header.tsx:28 | only `read_at` changes; an existing one is kept, a missing or empty one becomes now |
| Header.MarkAllRead | components/Header.tsx:28 | same length and order, each item marked read |
| Header.MarkAllReadSetsAll | components/Header.tsx:28 | with a non-empty time every item is read and keeps its id, title and body |
| Header.MarkAllReadIdempotent | components/Header.tsx:28 | marking all read again, at any time, changes nothing |
| Header.FirstName | components/Header.tsx:83 | the greeting is the name up to its first space: a space-free prefix, the whole name if it has no space |
| Header.BadgeShown | components/Header.tsx:61 | the count badge shows exactly when the unread count is at least 1 |
| Header.NotificationBell.Toggle | components/Header.tsx:59 | the bell opens a closed list and closes an open one, nothing else changes |
| Header.NotificationBell.Load | components/Header.tsx:12-24 | no token: count 0 and no items; otherwise the server's, and a failure changes nothing |
| Header.NotificationBell.MarkAll | components/Header.tsx:26-29 | with a token and the server's agreement, count 0, so no badge, and every item marked read; otherwise nothing changes |
| Header.NotificationBell.HandleLogout | components/Header.tsx:32 | the logout button ends the session and changes nothing else |

## Left out

- **The web platform.** `fetch`, URLs, headers, request bodies, JSON parsing, `localStorage` and `import.meta.env` are not modelled. A call is given its reply, and the stored token is a parameter of the store's constructor.
- **Rendering and routing.** JSX, CSS beyond the status colours, `navigate` (only whether the login page moves on is returned), and `App.tsx`, `LandingPage.tsx`, `Footer.tsx`, `SkillBadge.tsx`, `ProjectCard.tsx`.
- **Concurrency and timing.**
  - Every operation runs to completion before the next one. `Promise.all`, effect timing, unawaited calls and the 3-second and 800 ms timers are not modelled.
  - So the fallback ids computed from the rendered `projects` and `skillSwaps` equal those computed from the previous state.
  - The `loading` flag is not modelled.
- **Fetching swaps after login or signup.** `login` and `signup` call `fetchSkillSwaps` inline at the end, with the token the store held before that call. That inline call is not modelled: `Store.Login` and `Store.Signup` leave the swaps as they were, even when a token stored earlier would have let the inline call fetch them. `Store.FetchSkillSwaps` stands for the fetch that the effect at `context/AppContext.tsx:53` makes once a token and a user are both set.
- **Login's outer error.** `login`'s outer `catch`, with `Login failed`, cannot be reached, because the inner `catch` handles every failure. It is not modelled.
- **`Date`.** The time used by mark-all-read is a parameter.
- **Strings.** `trim` and `toLowerCase` are ASCII-only. Numbers are unbounded integers.
- AuthPage.ValidatePassword: counts a password's length in characters (Unicode scalar values), where `password.length` counts UTF-16 code units. A character outside the Basic Multilingual Plane counts once here and twice there, so `Aa` followed by three such characters is long enough in JavaScript (length 8) but too short in the model (length 5).
- Text.ParseInt: reads the leading decimal digits after leading whitespace. A leading `-` or `+` gives 0, where JavaScript reads `-5` as -5 and `+5` as 5. Text with no digit gives 0, where JavaScript gives `NaN`. Because of this, the dashboard lemmas assume non-negative user ids.
- **Fetched projects.** `fetchData` casts fetched projects to the store's `Project`. The fields `Project` lacks are dropped, and a missing `creatorId` shows up as 0.
- ProjectDetailPage.IsCreator: is false for a logged-out viewer. In the source, `currentUser?.id === project.creatorId` is true when both sides are undefined, so a logged-out viewer of a project without `creatorId` counts as its creator. The model has no undefined creator id (it is 0, see above), so that case does not arise in it.
- **The server's created project.** When the server creates a project, the store applies the same reading: extra fields are dropped, and a missing `requiredSkills` could only fall back if the API layer had not already filled it with `[]` (see `AppContext.ServerSkillsNeverFallBack`).
- **Register's error body.** Only the `error` field is read, as a string.
- **Incomplete record shapes.** The shapes of messages, status history, applications and notifications are limited to the fields the pages use, because their API definitions are not part of this model.
- EditProfilePage.InitialForm: an existing `bio` or `avatar` that is an empty string stays empty, which equals the `|| ''` default. Its links are stated through the round-trip lemma rather than in its own contract.
- **Unreachable catch.** The create-project page's `catch` branch cannot be reached, because `createProject` never throws. It is not modelled.
- **The profile update call.** `updateMyProfile` is a remote call whose result is a parameter. The store's `currentUser` is not updated after a profile edit, as in the source.
