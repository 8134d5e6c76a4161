# FlowVerse client core in Dafny

FlowVerse is a coding-practice site whose React client talks to a remote judge and database.
This project models the deterministic layer of that client and proves properties of it:

- the Redux authentication slice: the session record, the five asynchronous actions with their
  effects on `localStorage`, and JWT claim extraction (the middle segment of the compact form of
  section 7.1 of RFC 7515, moved from the base64url alphabet of section 5 of RFC 4648 to the
  standard one);
- the validation schemas of the sign-up, login and problem-creation forms, and the requests they send;
- the problem page: the start-code lookup, judge-result helpers, status and language tables,
  title-casing of unknown status keys, the split-pane clamp, and the handlers that drive the editor,
  the tabs and the loading flags;
- the two problem lists (the fetched one with its three filters and solved badge, and the home
  page's fixed catalogue with search, difficulty select and category tabs);
- the admin table's pagination window, row numbering, page changes and delete-then-step-back;
- the header's administrator detection and name/initial fallbacks, and its two menu actions;
- the AI assistant's append-only chat log.

One module per source file (`AuthSlice`, `SignupForm`, `LoginForm`, `ProblemPage`, `AllProblems`,
`HomePage`, `Header`, `AdminPanel`, `AdminVideoDelete`, `FlowAi`), plus `Js`, which states the
JavaScript semantics the others rely on: truthiness and `||` chains, `split`, `trim` over the
ECMAScript white-space set, ASCII `toLowerCase`/`toUpperCase`, `filter` and `includes`.

Component state that the source updates in place is a class whose methods assign its fields; each
method's `ensures` ties the new state to a pure function of the old one, and the properties are
proved about those functions. Every network call is a parameter of type `NetResult<T>` (success with
a body, or an error), so each handler is proved for every possible answer. `localStorage` is a
`map<string, string>`. The library parts of JWT decoding (`atob`, percent-decoding, `JSON.parse`)
are a function parameter `payloadDecoder`, and zod's `.email()` check is a parameter `isEmail`.

Where the code and its documentation disagree the model follows the code:

- a stored token that cannot be decoded is still restored as a signed-in user holding only the
  token (`AuthSlice.MalformedTokenRestoresSignedIn`);
- storage is cleared on the failure paths of `checkAuth`, `restoreAuth` and `logoutUser`, but a failed
  `registerUser` or `loginUser` leaves an earlier token in place (`AuthSlice.FailedLoginKeepsStoredToken`);
- the sign-up form reads `isLoading`, which the slice does not have (its flag is `loading`), so the
  sign-up button is gated by validity alone (`SignupForm.SubmitDisabled`);
- the AI panel's `minlength` is not a rule react-hook-form knows (it expects `minLength`), so only
  `required` and the `trim` guard apply (`FlowAi.Accepted`);
- the home page's difficulty options carry lower-cased values while its catalogue spells difficulties
  with a capital, so choosing any difficulty empties the list (`HomePage.DifficultySelectionShowsNothing`);
- the problem form's `getDifficultyColor` is declared but never used by its markup.

## Model

| member | source | states |
|---|---|---|
| AuthSlice.Base64UrlToBase64 | flowverse_frontend/src/authSlice.jsx:11 | the alphabet swap keeps the length and leaves no '-' or '_' |
| AuthSlice.Base64ToBase64Url | flowverse_frontend/src/authSlice.jsx:11 | the reverse swap, used as the partner of the one above |
| AuthSlice.Base64UrlRoundTrip | flowverse_frontend/src/authSlice.jsx:11 | the swap loses nothing: swapping back returns every base64url text unchanged |
| AuthSlice.DecodeJwt | flowverse_frontend/src/authSlice.jsx:5-24 | an empty token, and a token without a '.', decode to nothing (the source returns null instead of throwing) |
| AuthSlice.DecodeJwtCompact | flowverse_frontend/src/authSlice.jsx:9-19 | for header.payload.signature exactly the payload segment, alphabet-swapped, is decoded |
| AuthSlice.ClaimedFirstName | flowverse_frontend/src/authSlice.jsx:41 | the first-name fallback chain never yields an empty name |
| AuthSlice.FirstNameFromEmail | flowverse_frontend/src/authSlice.jsx:41 | without a `firstName` claim the name is the part of `emailId` before '@' |
| AuthSlice.CreateUserFromToken | flowverse_frontend/src/authSlice.jsx:27-43 | the token is always kept; an undecodable token gives a user holding only the token; a decodable one copies id and role, takes `emailId` else `email`, and a truthy first name |
| AuthSlice.RejectionText | flowverse_frontend/src/authSlice.jsx:212 | the error text is the payload's message when truthy, else 'Something went wrong' |
| AuthSlice.Reduce | flowverse_frontend/src/authSlice.jsx:196-291 | every case keeps `isAuthenticated == (user != null)`; `initialized` never reverts and changes only on checkAuth/restoreAuth settling; pending sets loading and leaves the user; settling clears loading; rejections and logout clear the user; register/login/logout rejections set the error text; checkAuth/restore rejections keep the error |
| AuthSlice.MergeUser | flowverse_frontend/src/authSlice.jsx:190 | `{...user, ...patch}`: for each of the nine fields a present patch value overrides and an absent one keeps the user's |
| AuthSlice.MergeUserLaws | flowverse_frontend/src/authSlice.jsx:190 | spreading an empty patch copies the user, and spreading the same patch twice is spreading it once |
| AuthSlice.UpdateUserState | flowverse_frontend/src/authSlice.jsx:188-194 | a present user becomes `MergeUser` of it and the patch; without a user nothing changes; `isAuthenticated`, `loading`, `initialized` and `error` are kept, and so is consistency |
| AuthSlice.RegisterThunk | flowverse_frontend/src/authSlice.jsx:45-71 | a failure rejects and leaves storage alone; a success always resolves with a user; a truthy token is stored under `authToken` and the thunk resolves with the user built from it; otherwise storage is unchanged and it resolves with `data.user`, else the body |
| AuthSlice.LoginThunk | flowverse_frontend/src/authSlice.jsx:73-106 | a token is stored and the user built from it; else a `user` is returned and its token stored (as 'undefined' when missing); else the thunk rejects with 'No token or user data received'; a failure leaves storage alone |
| AuthSlice.CheckAuthThunk | flowverse_frontend/src/authSlice.jsx:108-134 | it rejects exactly when no token is stored or the request fails, and then removes `authToken`; otherwise it resolves with the user built from the stored token |
| AuthSlice.LogoutThunk | flowverse_frontend/src/authSlice.jsx:136-149 | whatever the request does, `authToken` is removed and the thunk resolves with null |
| AuthSlice.RestoreThunk | flowverse_frontend/src/authSlice.jsx:151-172 | no request: it resolves exactly when a truthy token is stored, with the user built from it; otherwise it removes the key and rejects with 'Session expired' |
| AuthSlice.Step | flowverse_frontend/src/authSlice.jsx:45-291 | one whole action keeps consistency and `initialized`; restore and checkAuth always initialize; logout signs out and removes the token; a failed register/login leaves storage as it was |
| AuthSlice.RunKeepsConsistent | flowverse_frontend/src/authSlice.jsx:176-291 | from a consistent state every sequence of actions keeps `isAuthenticated == (user != null)` |
| AuthSlice.RunKeepsInitialized | flowverse_frontend/src/authSlice.jsx:181-271 | once set, `initialized` stays set through any sequence of actions |
| AuthSlice.AfterRestoreAlwaysInitialized | flowverse_frontend/src/authSlice.jsx:260-272 | after a restore attempt the session counts as initialized whatever follows |
| AuthSlice.LogoutIdempotent | flowverse_frontend/src/authSlice.jsx:136-149 | a second logout changes nothing |
| AuthSlice.MalformedTokenRestoresSignedIn | flowverse_frontend/src/authSlice.jsx:151-164 | a stored token without a second segment is restored as an authenticated user holding only the token |
| AuthSlice.FailedLoginKeepsStoredToken | flowverse_frontend/src/authSlice.jsx:98-104 | a failed login signs the state out, keeps an earlier stored token, and shows the response message, the error message or 'Login failed' |
| AuthSlice.AuthStore.constructor | flowverse_frontend/src/authSlice.jsx:176-182 | the initial record: no user, not authenticated, not loading, no error, not initialized |
| AuthSlice.AuthStore.Dispatch | flowverse_frontend/src/authSlice.jsx:183-291 | assigning the draft's fields one by one yields `Reduce` of the old state, and keeps consistency and `initialized` |
| AuthSlice.AuthStore.UpdateUser | flowverse_frontend/src/authSlice.jsx:188-194 | merges the patch into a present user and writes it under `userData` |
| AuthSlice.AuthStore.Settle | flowverse_frontend/src/authSlice.jsx:196-291 | pending, then the thunk's storage, then fulfilled or rejected |
| AuthSlice.AuthStore.RegisterUser | flowverse_frontend/src/authSlice.jsx:199-215 | the session after `Step`; any successful answer signs the user in |
| AuthSlice.AuthStore.LoginUser | flowverse_frontend/src/authSlice.jsx:218-236 | the session after `Step`; signed in exactly when the answer carries a token or a user |
| AuthSlice.AuthStore.CheckAuth | flowverse_frontend/src/authSlice.jsx:239-254 | the session after `Step`; initialized, and no token is left stored when not authenticated |
| AuthSlice.AuthStore.LogoutUser | flowverse_frontend/src/authSlice.jsx:275-290 | signed out, not loading, no error, no token, `initialized` unchanged |
| AuthSlice.AuthStore.RestoreAuth | flowverse_frontend/src/authSlice.jsx:257-272 | initialized, and authenticated exactly when a truthy token was stored |
| SignupForm.NameIssues | flowverse_frontend/src/Components/Signup.jsx:12-22 | no message exactly when the name has 2 to 50 characters, all A-Z or a-z; the length messages appear when violated |
| SignupForm.PasswordIssues | flowverse_frontend/src/Components/Signup.jsx:29-35 | no message exactly when the password has 8 characters or more with an upper-case, a lower-case, a digit and a special character |
| SignupForm.EmailIssues | flowverse_frontend/src/Components/Signup.jsx:24-27 | no message exactly when the address passes the e-mail check and is not empty |
| SignupForm.SignupIssues | flowverse_frontend/src/Components/Signup.jsx:11-36 | the schema reports nothing exactly when every field is valid |
| SignupForm.NameLengthBounds | flowverse_frontend/src/Components/Signup.jsx:14-16 | a name of n letters is accepted exactly when 2 <= n <= 50 (50 is accepted despite "less than 50") |
| SignupForm.PasswordExamples | flowverse_frontend/src/Components/Signup.jsx:29-35 | 'Abcdef1!' passes; 'abcdefgh' fails on upper-case, digit and special character |
| SignupForm.RegisterPayload | flowverse_frontend/src/Components/Signup.jsx:65-71 | the request carries the form's fields, `email` renamed to `emailId`; it reads back to the form and is valid exactly when the form is |
| SignupForm.SubmitDisabled | flowverse_frontend/src/Components/Signup.jsx:293 | the button is disabled exactly when the form is invalid |
| SignupForm.ErrorBanner | flowverse_frontend/src/Components/Signup.jsx:110-120 | the banner appears exactly for a truthy error; a string is shown as it is, any other value as 'Registration failed. Please try again.' |
| SignupForm.SliceErrorShownAsStored | flowverse_frontend/src/Components/Signup.jsx:110-120 | an error string held by the slice is shown exactly when truthy, as stored |
| LoginForm.PasswordIssues | flowverse_frontend/src/Components/Login.jsx:17-20 | no message exactly when the password has 6 characters or more; 'Password is required' exactly for the empty password |
| LoginForm.EmailIssues | flowverse_frontend/src/Components/Login.jsx:12-15 | no message exactly when the address passes the e-mail check and is not empty |
| LoginForm.LoginIssues | flowverse_frontend/src/Components/Login.jsx:11-21 | the schema reports nothing exactly when both fields are valid |
| LoginForm.OnlyPasswordLengthMatters | flowverse_frontend/src/Components/Login.jsx:17-20 | two passwords of the same length get the same messages |
| LoginForm.LoginPayload | flowverse_frontend/src/Components/Login.jsx:53-59 | the request is exactly `{emailId: email, password}` and reads back to the form |
| LoginForm.SubmitDisabled | flowverse_frontend/src/Components/Login.jsx:228 | the button is enabled exactly when the slice is not loading and the schema reports nothing |
| LoginForm.ErrorBanner | flowverse_frontend/src/Components/Login.jsx:129-132 | the banner appears exactly for a truthy error; a string is shown as it is, any other value as 'Login failed. Please try again.' |
| LoginForm.SliceErrorShownAsStored | flowverse_frontend/src/Components/Login.jsx:129-132 | an error string held by the slice is shown exactly when truthy, as stored |
| ProblemPage.FindStartCode | flowverse_frontend/src/Components/Problem.jsx:42-48 | `find` returns the first entry whose lower-cased language matches the selection ('c++' for 'cpp'), and nothing exactly when none matches |
| ProblemPage.InitialCode | flowverse_frontend/src/Components/Problem.jsx:42-48 | the matching entry's code when truthy, '// Write your code here' when nothing matches, when the matching entry's code is missing or empty, or when the selection is not cpp/java/javascript; never empty |
| ProblemPage.GetTestResults | flowverse_frontend/src/Components/Problem.jsx:264-271 | `testResults` if it is an array, else `testCases` if that is, else [] |
| ProblemPage.AllAccepted | flowverse_frontend/src/Components/Problem.jsx:276 | true exactly when every test has status id 3 |
| ProblemPage.AreAllTestsPassed | flowverse_frontend/src/Components/Problem.jsx:274-277 | true exactly when every extracted test has status id 3, so true with no tests |
| ProblemPage.StatusDescription | flowverse_frontend/src/Components/Problem.jsx:280-292 | 'Unknown' exactly for ids outside 1..8 |
| ProblemPage.StatusDescriptionInjective | flowverse_frontend/src/Components/Problem.jsx:280-292 | each of the ids 1..8 has its own label, which reads back to the id |
| ProblemPage.UnderscoresToSpaces | flowverse_frontend/src/Components/Problem.jsx:356 | `replace(/_/g, ' ')`: every '_' becomes a space and every other character stays in place; the length is kept and no '_' is left |
| ProblemPage.CapitalizeWords | flowverse_frontend/src/Components/Problem.jsx:356 | `replace(/\b\w/g, toUpperCase)` upper-cases exactly the characters that start a word |
| ProblemPage.CapitalizeWordsIdempotent | flowverse_frontend/src/Components/Problem.jsx:356 | capitalizing twice is capitalizing once |
| ProblemPage.CapitalizedWordsStartUpper | flowverse_frontend/src/Components/Problem.jsx:356 | no word of the result starts with a lower-case letter |
| ProblemPage.SubmissionStatus | flowverse_frontend/src/Components/Problem.jsx:295-362 | a known key gets its table row; a missing or empty key 'Unknown'; any other key its title-cased text with the question-mark icon |
| ProblemPage.WrongAnswerFollowsTitleCase | flowverse_frontend/src/Components/Problem.jsx:295-362 | the table's 'Wrong Answer' is what the generic rule makes of 'wrong_answer' |
| ProblemPage.InQueueFollowsTitleCase | flowverse_frontend/src/Components/Problem.jsx:295-362 | the table's 'In Queue' is what the generic rule makes of 'in_queue' |
| ProblemPage.LanguageDisplayName | flowverse_frontend/src/Components/Problem.jsx:413-423 | the table entry of the lower-cased key, else the input, else 'Unknown'; never empty |
| ProblemPage.LanguageDisplayNameIgnoresCase | flowverse_frontend/src/Components/Problem.jsx:422 | for a key in the table, the display name does not depend on case |
| ProblemPage.MonacoLanguage | flowverse_frontend/src/Components/Problem.jsx:245-252 | always one of cpp/java/javascript: the identity on those and 'cpp' for anything else |
| ProblemPage.SelectionKey | flowverse_frontend/src/Components/Problem.jsx:429-430 | 'c++' in any case becomes 'cpp', other names are lower-cased, a missing or empty one gives 'cpp'; never upper-case, never 'c++' |
| ProblemPage.DifficultyColor | flowverse_frontend/src/Components/Problem.jsx:254-262 | easy/medium/hard in any case get green/yellow/red; gray exactly for anything else |
| ProblemPage.DifficultyColorIgnoresCase | flowverse_frontend/src/Components/Problem.jsx:255 | the colour depends on the difficulty only up to case |
| ProblemPage.ClampWidth | flowverse_frontend/src/Components/Problem.jsx:90 | the width always lies in [20, 80], is kept when already inside, and goes to the nearer bound otherwise |
| ProblemPage.ViewSubmission | flowverse_frontend/src/Components/Problem.jsx:426-436 | a truthy code replaces the editor's code and language and shows the code tab; otherwise nothing changes |
| ProblemPage.AfterLanguageChange | flowverse_frontend/src/Components/Problem.jsx:30-77 | a language change keeps the selection and tab; a successful refetch stores the fetched problem, a failed one keeps the old |
| ProblemPage.LanguageChangeDiscardsEdits | flowverse_frontend/src/Components/Problem.jsx:30-77 | after a language change with a successful refetch, or a loaded problem with start code, the code is that language's start code (or '// Write your code here') whatever was typed before |
| ProblemPage.ViewSubmissionLosesCode | flowverse_frontend/src/Components/Problem.jsx:426-436 | as written, viewing a Java submission with C++ selected ends with the Java start code, not the submission, and with '// Write your code here' for a problem without start code |
| ProblemPage.ViewSubmissionIntended | flowverse_frontend/src/Components/Problem.jsx:426-436 | the editor ends with exactly the submission's code, in its language, on the code tab |
| ProblemPage.ViewSubmissionSameLanguageAgrees | flowverse_frontend/src/Components/Problem.jsx:426-436 | the as-written and intended outcomes agree when the submission is in the selected language |
| ProblemPage.SubmissionsOf | flowverse_frontend/src/Components/Problem.jsx:132-139 | `data.data` when it is an array, else `data` when it is an array, else [] |
| ProblemPage.ProblemView.constructor | flowverse_frontend/src/Components/Problem.jsx:10-21 | the initial page state: cpp selected, empty code, description and code tabs, width 50 |
| ProblemPage.ProblemView.FetchProblem | flowverse_frontend/src/Components/Problem.jsx:30-63 | a success keeps the problem and loads the selected language's start code; a failure changes neither; loading ends false |
| ProblemPage.ProblemView.ChangeLanguage | flowverse_frontend/src/Components/Problem.jsx:30-77 | the selection changes; when it differs from the old one, the editor and problem end as `AfterLanguageChange` says (start-code effect, then refetch) and loading ends false; otherwise code, problem and loading are kept |
| ProblemPage.ProblemView.EditorChange | flowverse_frontend/src/Components/Problem.jsx:113-115 | the code becomes the editor's value, or '' |
| ProblemPage.ProblemView.HandleRun | flowverse_frontend/src/Components/Problem.jsx:151-177 | sends the code and language; keeps the answer or `{message: 'Error running code', error}`; loading ends false on the test-case tab |
| ProblemPage.ProblemView.FetchSubmissions | flowverse_frontend/src/Components/Problem.jsx:125-149 | the list read from the answer, [] on failure, and the flag cleared |
| ProblemPage.ProblemView.HandleSubmitCode | flowverse_frontend/src/Components/Problem.jsx:179-211 | sends the code and language; keeps the answer or `{message: 'Error submitting code', error}`; loading ends false on the result tab; a success refreshes the submissions when that tab is open |
| ProblemPage.ProblemView.OpenSubmissionsTab | flowverse_frontend/src/Components/Problem.jsx:439-442 | opens the submissions tab and loads the list |
| ProblemPage.ProblemView.ViewSubmissionCode | flowverse_frontend/src/Components/Problem.jsx:426-436 | as written: the editor ends as `ViewSubmissionAsWritten` says (the handler, then the language effects), and the problem is replaced exactly when the language changed and the refetch succeeded; loading ends false after a language change and is kept otherwise |
| ProblemPage.ProblemView.StartResize | flowverse_frontend/src/Components/Problem.jsx:801 | resizing starts and the width stays in [20, 80] |
| ProblemPage.ProblemView.MouseMove | flowverse_frontend/src/Components/Problem.jsx:81-92 | while resizing the width becomes the clamped pointer position; otherwise it is kept |
| ProblemPage.ProblemView.MouseUp | flowverse_frontend/src/Components/Problem.jsx:94-96 | resizing stops |
| AllProblems.AnySolved | flowverse_frontend/src/Components/Allproblem.jsx:92-95 | `some` holds exactly when an entry's `problemId` or `_id` equals the problem's `_id` |
| AllProblems.FilteredProblems | flowverse_frontend/src/Components/Allproblem.jsx:86-99 | an order-preserving subsequence holding exactly the problems that pass the difficulty, tag and solved filters, each as many times as in the list |
| AllProblems.DefaultFiltersShowAll | flowverse_frontend/src/Components/Allproblem.jsx:20-24 | with the initial filters the whole list is shown |
| AllProblems.StatusOtherThanSolvedIgnoresList | flowverse_frontend/src/Components/Allproblem.jsx:90-96 | only the 'solved' status consults the solved list |
| AllProblems.SolvedFilterMatchesBadge | flowverse_frontend/src/Components/Allproblem.jsx:223-225 | under 'solved', a problem passing the other filters is shown exactly when it carries the Solved badge |
| AllProblems.StatsOf | flowverse_frontend/src/Components/Allproblem.jsx:37-42 | each counter is the body's value when it is present and not 0, else its default: total 0, count 0, page 1, totalPages 1 |
| AllProblems.StatsRoundTrip | flowverse_frontend/src/Components/Allproblem.jsx:37-42 | counters sent in a body read back unchanged whenever page and totalPages are not 0 |
| AllProblems.SolvedOf | flowverse_frontend/src/Components/Allproblem.jsx:66-73 | an envelope gives its `data`, a bare array itself, anything else [] |
| AllProblems.SolvedIgnoresSuccess | flowverse_frontend/src/Components/Allproblem.jsx:67-72 | the `success` flag makes no difference to the solved list |
| AllProblems.DifficultyBadgeColor | flowverse_frontend/src/Components/Allproblem.jsx:306-313 | case-insensitive easy/medium/hard colours; 'badge-neutral' exactly for anything else |
| AllProblems.ProblemList.constructor | flowverse_frontend/src/Components/Allproblem.jsx:8-24 | empty lists, loading, no error, default counters and filters |
| AllProblems.ProblemList.Shown | flowverse_frontend/src/Components/Allproblem.jsx:86-99 | what is shown is a subsequence of the fetched problems |
| AllProblems.ProblemList.FetchProblems | flowverse_frontend/src/Components/Allproblem.jsx:27-54 | an accepted body replaces the list and counters; otherwise the list empties and the matching error is set; loading ends false |
| AllProblems.ProblemList.FetchSolvedProblems | flowverse_frontend/src/Components/Allproblem.jsx:56-78 | [] without a user or on failure, else the list read from the answer |
| AllProblems.ProblemList.SetFilters | flowverse_frontend/src/Components/Allproblem.jsx:86-99 | the filters change and the shown list follows them |
| HomePage.OptionValue | flowverse_frontend/src/Components/Home.jsx:157 | an option's value has the label's length and no upper-case letter |
| HomePage.TabValue | flowverse_frontend/src/Components/Home.jsx:169 | 'All' is stored as 'all', any other category as itself |
| HomePage.FilteredProblems | flowverse_frontend/src/Components/Home.jsx:29-49 | an order-preserving subsequence of the catalogue holding exactly the entries that pass the search, difficulty and category, each as many times as in the catalogue |
| HomePage.SearchIgnoresCase | flowverse_frontend/src/Components/Home.jsx:44 | a query and its lower-cased form show the same list |
| HomePage.EmptyQueryShowsAll | flowverse_frontend/src/Components/Home.jsx:43-49 | with the initial selections and an empty query the whole catalogue is shown |
| HomePage.DifficultySelectionShowsNothing | flowverse_frontend/src/Components/Home.jsx:30-45 | choosing any difficulty other than 'All' empties the list |
| HomePage.CapitalisedDifficultySelects | flowverse_frontend/src/Components/Home.jsx:45 | the capitalised value would keep only problems of that difficulty, and Two Sum among them |
| HomePage.TabShowsOnlyItsCategory | flowverse_frontend/src/Components/Home.jsx:169 | a category tab shows only that category |
| HomePage.DifficultyColor | flowverse_frontend/src/Components/Home.jsx:51-58 | exact-case Easy/Medium/Hard colours; gray exactly for anything else |
| HomePage.CatalogIsColoured | flowverse_frontend/src/Components/Home.jsx:29-58 | every catalogue entry gets one of the three colours |
| Header.RoleOf | flowverse_frontend/src/Components/Header.jsx:27 | `role`, else `userRole`, else `roles[0]` |
| Header.IsAdmin | flowverse_frontend/src/Components/Header.jsx:23-31 | false without a user; else true exactly for 'admin', 'ADMIN' or 'Admin' |
| Header.TokenUserAdmin | flowverse_frontend/src/Components/Header.jsx:23-31 | a user built from a decodable token is an administrator exactly when its role claim is one of the three spellings |
| Header.TokenOnlyUserNotAdmin | flowverse_frontend/src/Components/Header.jsx:23-31 | a user restored from an undecodable token is never an administrator |
| Header.UpperFirst | flowverse_frontend/src/Components/Header.jsx:64-67 | present exactly for a truthy string, and then its first character upper-cased |
| Header.UserInitial | flowverse_frontend/src/Components/Header.jsx:60-69 | one character, never lower-case; 'A' for administrators, 'U' without a user, the first name's initial when present |
| Header.BaseName | flowverse_frontend/src/Components/Header.jsx:75 | never empty; the first name when truthy |
| Header.UserDisplayName | flowverse_frontend/src/Components/Header.jsx:72-81 | '' exactly without a user; the base name, with ' (Admin)' appended for administrators |
| Header.DisplayNameFromEmail | flowverse_frontend/src/Components/Header.jsx:75 | a user known only by e-mail is shown by its local part |
| Header.InitialMatchesDisplayName | flowverse_frontend/src/Components/Header.jsx:60-81 | for a non-administrator the initial is the display name's first letter upper-cased, unless the only name is an address starting with '@' |
| Header.TokenOnlyUserGreeting | flowverse_frontend/src/Components/Header.jsx:60-81 | a token-only user is shown as 'User' with the initial 'U' |
| Header.HeaderMenu.constructor | flowverse_frontend/src/Components/Header.jsx:10-13 | the dropdown starts closed |
| Header.HeaderMenu.HandleLogout | flowverse_frontend/src/Components/Header.jsx:46-57 | whether or not the header's request fails, the slice's logout runs (signed out, only `authToken` removed from storage) and the route is '/login'; only success closes the dropdown |
| Header.HeaderMenu.HandleCreateProblem | flowverse_frontend/src/Components/Header.jsx:84-93 | nothing for a non-administrator; otherwise the dropdown closes and the route is '/admin/create-problem' |
| AdminPanel.VisibleIssues | flowverse_frontend/src/Components/Adminpanel.jsx:14-19 | no message exactly when every visible case has input, output and explanation |
| AdminPanel.HiddenIssues | flowverse_frontend/src/Components/Adminpanel.jsx:21-25 | no message exactly when every hidden case has input and output |
| AdminPanel.CodeIssues | flowverse_frontend/src/Components/Adminpanel.jsx:27-38 | no message exactly when every code entry has an allowed language and some code |
| AdminPanel.ProblemIssues | flowverse_frontend/src/Components/Adminpanel.jsx:9-39 | the schema reports nothing exactly when the form is valid; an empty title and a missing hidden case are reported |
| AdminPanel.DefaultCodeListsValid | flowverse_frontend/src/Components/Adminpanel.jsx:55-82 | the preset start code and reference solutions satisfy their constraints |
| AdminPanel.DefaultFormInvalid | flowverse_frontend/src/Components/Adminpanel.jsx:52-54 | the untouched form is rejected, with the title and the first visible input reported |
| AdminPanel.RepeatedLanguagesAccepted | flowverse_frontend/src/Components/Adminpanel.jsx:27-32 | three entries in the same language are accepted |
| AdminPanel.RemoveAt | flowverse_frontend/src/Components/Adminpanel.jsx:89 | `remove(index)` drops exactly that position, and ignores a position the list does not have |
| AdminPanel.RemoveAppended | flowverse_frontend/src/Components/Adminpanel.jsx:86-102 | removing what was just appended restores the list |
| AdminPanel.RemovingLastHiddenInvalidates | flowverse_frontend/src/Components/Adminpanel.jsx:21-26 | removing the only hidden case makes the form invalid |
| AdminPanel.AppendingVisibleInvalidates | flowverse_frontend/src/Components/Adminpanel.jsx:14-20 | a freshly appended visible case is empty, so the form is invalid until it is filled in |
| AdminPanel.ErrorText | flowverse_frontend/src/Components/Adminpanel.jsx:111 | the response message when truthy, else the error's message, else 'undefined' |
| AdminPanel.DifficultyColor | flowverse_frontend/src/Components/Adminpanel.jsx:117-124 | green for easy, yellow for medium, red for hard, and gray exactly for anything else |
| AdminPanel.ProblemEditor.constructor | flowverse_frontend/src/Components/Adminpanel.jsx:43-83 | the form starts at its default values, not submitting |
| AdminPanel.ProblemEditor.Edit | flowverse_frontend/src/Components/Adminpanel.jsx:155-330 | typing changes values but not the shape of the lists or the code languages |
| AdminPanel.ProblemEditor.AppendVisible | flowverse_frontend/src/Components/Adminpanel.jsx:238 | an empty visible case is appended, and the form is then invalid |
| AdminPanel.ProblemEditor.RemoveVisible | flowverse_frontend/src/Components/Adminpanel.jsx:258 | the visible list loses that position |
| AdminPanel.ProblemEditor.AppendHidden | flowverse_frontend/src/Components/Adminpanel.jsx:304 | an empty hidden case is appended |
| AdminPanel.ProblemEditor.RemoveHidden | flowverse_frontend/src/Components/Adminpanel.jsx:324 | the hidden list loses that position; removing the only one invalidates the form |
| AdminPanel.ProblemEditor.Submit | flowverse_frontend/src/Components/Adminpanel.jsx:104-115 | an invalid form sends nothing; a valid one is posted, announced as success (then home) or as 'Error: ...', and `isSubmitting` ends false on both paths |
| AdminVideoDelete.PaginationOf | flowverse_frontend/src/pages/AdminVideoDelete.jsx:31-36 | each field is the body's value when it is present and not 0, else its default: page 1, totalPages 1, total 0, count 10 |
| AdminVideoDelete.PaginationRoundTrip | flowverse_frontend/src/pages/AdminVideoDelete.jsx:31-36 | a record sent in a body reads back unchanged whenever page, page count and page size are not 0 |
| AdminVideoDelete.RowNumber | flowverse_frontend/src/pages/AdminVideoDelete.jsx:114 | row numbers are positive on a real page |
| AdminVideoDelete.RowNumbersContinueAcrossPages | flowverse_frontend/src/pages/AdminVideoDelete.jsx:114 | the next page's first row follows this page's last row |
| AdminVideoDelete.RowNumbersIncrease | flowverse_frontend/src/pages/AdminVideoDelete.jsx:114 | rows of one page get strictly increasing numbers |
| AdminVideoDelete.SlotOf | flowverse_frontend/src/pages/AdminVideoDelete.jsx:199-223 | a button exactly for the first, the last and the pages next to the current one; an ellipsis exactly for the other pages two away from the current one |
| AdminVideoDelete.PageWindow | flowverse_frontend/src/pages/AdminVideoDelete.jsx:199-223 | one slot per page, each as `SlotOf` says |
| AdminVideoDelete.AtMostTwoEllipses | flowverse_frontend/src/pages/AdminVideoDelete.jsx:216-222 | however many pages there are, at most two ellipses are drawn |
| AdminVideoDelete.EndsAndCurrentAreButtons | flowverse_frontend/src/pages/AdminVideoDelete.jsx:202-206 | the first, last and current pages always have a button |
| AdminVideoDelete.FarPagesHidden | flowverse_frontend/src/pages/AdminVideoDelete.jsx:199-223 | an inner page three or more away from the current one draws nothing |
| AdminVideoDelete.EnabledControlsPassGuard | flowverse_frontend/src/pages/AdminVideoDelete.jsx:188-229 | every enabled Previous/Next button and every page button asks for a page the guard accepts |
| AdminVideoDelete.ErrorViewAsWritten | flowverse_frontend/src/pages/AdminVideoDelete.jsx:78-89 | the view throws for a fetch failure and for a delete error without response data |
| AdminVideoDelete.FetchFailureCrashesView | flowverse_frontend/src/pages/AdminVideoDelete.jsx:38-39 | the 'Failed to fetch problems' string makes the error view throw |
| AdminVideoDelete.ErrorView | flowverse_frontend/src/pages/AdminVideoDelete.jsx:78-89 | always some text; the fetch text as it is, and the same text as the written view wherever that one shows something |
| AdminVideoDelete.ProblemTable.constructor | flowverse_frontend/src/pages/AdminVideoDelete.jsx:7-15 | empty list, loading, no error, default pagination |
| AdminVideoDelete.ProblemTable.FetchProblems | flowverse_frontend/src/pages/AdminVideoDelete.jsx:21-44 | a body replaces the list and the record; a failure keeps both and sets the error; loading ends false |
| AdminVideoDelete.ProblemTable.HandlePageChange | flowverse_frontend/src/pages/AdminVideoDelete.jsx:64-68 | a page is requested exactly when it lies in 1..totalPages, and then the list and record come from the body, or on failure are kept with the fetch error set, loading ending false; otherwise nothing changes |
| AdminVideoDelete.ProblemTable.HandleDelete | flowverse_frontend/src/pages/AdminVideoDelete.jsx:46-62 | a declined confirmation changes nothing; a failure sets the error and keeps the rest; a success drops exactly the rows with that id, keeping order; when the last row of a later page went, the previous page is loaded (its list and record, or on failure the filtered list, the old record and the fetch error) |
| FlowAi.AcceptedIffNotBlank | flowverse_frontend/src/Components/FlowAi.jsx:23 | a message is accepted exactly when it is not made only of white space |
| FlowAi.Reply | flowverse_frontend/src/Components/FlowAi.jsx:43-53 | a model entry holding the answer's text, or the apology on failure |
| FlowAi.AfterSubmit | flowverse_frontend/src/Components/FlowAi.jsx:22-57 | a rejected message leaves the log alone; an accepted one appends the user entry and then the reply, keeping the old log as a prefix |
| FlowAi.AfterSubmitWellFormed | flowverse_frontend/src/Components/FlowAi.jsx:7-12 | the log stays the greeting followed by alternating user and model entries |
| FlowAi.SubmitsOnlyExtend | flowverse_frontend/src/Components/FlowAi.jsx:22-57 | any sequence of submits only extends the log, by two entries per accepted message |
| FlowAi.RequestFor | flowverse_frontend/src/Components/FlowAi.jsx:33-41 | the request carries the old log followed by the new message, and the problem's title and description, or '' when the problem or the field is missing |
| FlowAi.ChatPanel.constructor | flowverse_frontend/src/Components/FlowAi.jsx:7-14 | the log is the greeting alone, not loading |
| FlowAi.ChatPanel.Submit | flowverse_frontend/src/Components/FlowAi.jsx:22-57 | the log becomes `AfterSubmit` of the old one; a request goes out exactly for an accepted message, as `RequestFor` says; the panel ends idle and well formed |

## Left out

- Network, timing and concurrency: every request is a parameter that either succeeds with a body or fails; each asynchronous action is one atomic step, so overlapping thunks and in-flight races are not modelled.
- Header.HeaderMenu.HandleLogout: the slice's logout is not awaited before navigating; the model runs it to completion first.
- AuthSlice.DecodeJwt: `atob`, `decodeURIComponent` and `JSON.parse` are the parameter `payloadDecoder`; only segment selection and the alphabet swap are modelled.
- AuthSlice.RegisterThunk: the response body read as a user is an abstract `User` record; what the backend puts in it is not modelled. A falsy body (such as `""` on a 2xx reply) is therefore excluded: for it the source resolves with `""`, the fulfilled reducer stores `user = ""` with `isAuthenticated` false, and `isAuthenticated == (user != null)` fails in the source, while AuthSlice.RunKeepsConsistent and AuthSlice.AuthStore.RegisterUser hold only for record-shaped bodies.
- AuthSlice.Step: `JSON.stringify` of the updated user is the parameter `stringify`.
- The e-mail format check of zod is the parameter `isEmail`.
- AdminPanel.ProblemIssues: the messages for the three enums ('Invalid difficulty', 'Invalid tag', 'Invalid language') stand for zod's default wording, which depends on the library version.
- Case mapping (`toLowerCase`, `toUpperCase`) and the `\w` class are ASCII only; JavaScript's full Unicode mapping is not modelled.
- String lengths are counted in Dafny characters, not UTF-16 code units; zod's `min`/`max` count code units, so a text with characters outside the Basic Multilingual Plane (such as emoji) is longer for zod. This affects SignupForm.NameIssues, SignupForm.PasswordIssues and LoginForm.PasswordIssues.
- AuthSlice.RejectionOf: `error.response?.data?.message` is taken to be a string; a non-string JSON value there would reach the slice's `error` and make the forms show their fixed fallback text. The banners (SignupForm.ErrorBanner, LoginForm.ErrorBanner) model that fallback, but the slice's `error` field holds strings only.
- ProblemPage.ProblemView.ChangeLanguage: the start-code effect and the refetch run to completion in that order as one step; the refetch is taken to run (the route always supplies a problem id), and its interleaving with later input is not modelled.
- ProblemPage.ProblemView.FetchProblem: `response.data.data || response.data` is taken as already resolved into a `ProblemData`.
- ProblemPage.SubmissionStatus: keys that name inherited object properties (such as 'constructor') are not modelled; only the eight table keys count as known.
- ProblemPage.LanguageDisplayName: the same holds for `langMap[lang?.toLowerCase()]`; a lower-cased key such as 'constructor' would answer an inherited property, which the model does not.
- `formatDate`, `formatTime`, `formatMemory` and the pixel-to-percent division before the clamp use floating point, `Date` and the clock; only the clamp is modelled, over reals.
- Clipboard copying and its textarea fallback, `setTimeout` scrolling, `alert`/`confirm` dialogs (the confirmation is a parameter), document listeners, cursor styles and JSX markup.
- The chat request's `testCases` and `startCode` fields are passed through unchanged and are not modelled; FlowAi.RequestFor states the messages, the title and the description only.
- The header's mobile-menu toggle and outside-click closing of the dropdown.
- The admin table's difficulty badge and tag rendering are markup only.
- The editor wrapper, the HTTP client configuration, routing and layout carry no logic to model.

## Findings

| source | as written | input that shows it | evidently intended | confidence | as-written member | corrected member |
|---|---|---|---|---|---|---|
| flowverse_frontend/src/Components/Problem.jsx:426-436 | `viewSubmissionCode` sets the code and then changes `selectedLanguage`; the effects keyed on the language (lines 30-77) then overwrite the code with that language's start code | C++ selected, a Java submission, a problem with Java start code | the editor shows the submission's code in its language | not executed | ProblemPage.ViewSubmissionLosesCode | ProblemPage.ViewSubmissionIntended |
| flowverse_frontend/src/pages/AdminVideoDelete.jsx:85 | the error view reads `error.response.data.error`, but a failed fetch (line 39) stores a plain string and a delete error may lack a response | a failed page load, which stores 'Failed to fetch problems' | the view shows the stored text or the request's error message | not executed | AdminVideoDelete.ErrorViewAsWritten | AdminVideoDelete.ErrorView |
