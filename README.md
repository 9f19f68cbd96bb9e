# StudyGenie front end: session, routes and pages

This project models the client logic of the StudyGenie study-assistant front end
in Dafny. The app is a React single-page application. A session store keeps the
token and user in memory and in browser storage. Two route tables decide what each
path shows. Each page holds a little state and changes it in its event handlers.

The app is modelled in three layers.

- **Session store** (`AuthContext.jsx`, module `Session`). Its state is a
  `Snapshot` value: the in-memory `token`, `user`, `loading` and `error`, plus
  browser storage as a `map`. Its operations (save, clear, fetch the profile, log
  in or register, update the user) are functions on that value. The class
  `Session.Session` holds the same state in fields. Each of its methods is proved
  to perform exactly the matching transition.
- **Route tables** (`App.tsx` as `GatedRoutes`, `App.jsx` as `AuthRoutes`). These
  are pure functions from the session flags and the location to a view or a
  redirect. Both modules prove that redirect chains terminate and that the two
  pages involved never redirect to each other.
- **Pages.** The quiz page is a state machine (`Quiz.Engine`). It is proved to
  keep its own consistency over every sequence of user actions, and Submit is
  offered only once every question is answered. Each of the other pages is a
  class whose handlers are proved against functions of the form's state and of the
  server's reply. Properties of those functions are proved as lemmas: the login
  and registration checks, the onboarding and profile requests, the dashboard
  average, the study-guide badges and preview, gamification badges and ranks, the
  chat transcript, and the placeholder summarizer.

Every remote call is an input to the handler that makes it. That input is the
server's reply, a refusal with an optional message, or a thrown error. Nothing
in the model waits or performs I/O.

Two behaviours of the code that the model keeps as written:

- "Login failed. Please try again." appears only when the request throws with
  an empty message. A server refusal without a message shows the store's
  "Login failed".
- `isAuthenticated` is `!!token`, so an empty token string counts as signed out.

## Model

| member | source | states |
|---|---|---|
| Common.StreakCount | src/pages/Gamification.tsx:88 | `user?.streak?.count \|\| 0`: the user's streak count, 0 without a user or a streak |
| Common.IsBlank | src/pages/Chatbot.tsx:32 | `!s.trim()`: every character of the text is white space |
| Common.Contains | src/Pages/Dashboard.jsx:88 | `includes`: some window of the text equals the substring |
| Common.ContainsIffOccurs | src/Pages/Dashboard.jsx:88 | `includes` holds exactly when the substring occurs at some offset |
| Common.RoundHalfUp | src/pages/Dashboard.tsx:47 | `Math.round(num / den)` for a positive denominator, written in integers |
| Common.RoundHalfUpNearest | src/pages/Dashboard.tsx:47 | `Math.round(num / den)` is within one half of the quotient, ties rounded up |
| Common.RoundHalfUpUnique | src/pages/Dashboard.tsx:47 | no other integer satisfies that window, so the rounding is determined |
| Common.LeadingDigits | src/pages/Onboarding.tsx:42 | the digits `parseInt` reads are a prefix, all digits, and stop at the first non-digit |
| Common.TrimStart | src/pages/Onboarding.tsx:42 | the leading white space `parseInt` skips is exactly the stripped prefix |
| Common.NatToString | src/pages/Profile.tsx:36 | printing a number gives a non-empty run of digits |
| Common.DigitsValueOfNatToString | src/pages/Profile.tsx:36 | the digits printed for `n` have value `n` |
| Common.ParseInt | src/pages/Onboarding.tsx:42 | `parseInt` in base ten: skip leading white space, read an optional sign and the longest run of digits after it; `NaN` without a digit |
| Common.AllDigitsRead | src/pages/Onboarding.tsx:42 | on a text of digits only, `parseInt` reads every character |
| Common.ParseDigitsOfNatToString | src/pages/Profile.tsx:36 | the digits printed for a natural number read back as that number |
| Common.ParseIntOfNatToString | src/pages/Profile.tsx:36 | `parseInt(n.toString())` is `n` for a natural number |
| Common.IntToString | src/pages/Profile.tsx:36 | `age.toString()` for a whole number: a minus sign before the digits of a negative one |
| Common.ParseSignedNegative | src/pages/Profile.tsx:36 | a minus sign before printed digits is read as their negation |
| Common.ParseIntOfIntToString | src/pages/Profile.tsx:36 | `parseInt(n.toString())` is `n` for every integer, negative ones included |
| Quiz.Start | src/pages/Quiz.tsx:92-98 | `startQuiz`: the quiz, question 0, one empty answer per question, no results, no score |
| Quiz.Select | src/pages/Quiz.tsx:100-104 | `selectAnswer`: the current question's slot takes the option |
| Quiz.Next | src/pages/Quiz.tsx:106-112 | `nextQuestion`: one question on, or the submission on the last |
| Quiz.Previous | src/pages/Quiz.tsx:266 | the Previous button: one question back, not below 0 |
| Quiz.Submit | src/pages/Quiz.tsx:114-129 | `submitQuiz`: the server's score and results, or the error message with its fallback |
| Quiz.Reset | src/pages/Quiz.tsx:131-137 | `resetQuiz`: back to the list with no attempt |
| Quiz.Retake | src/pages/Quiz.tsx:201 | "Retake Quiz": the same quiz from question 0 with fresh answers |
| Quiz.Enabled | src/pages/Quiz.tsx:246-276 | which buttons the page offers: a quiz with questions from the list, an option of the current question, Previous after the first question, Next or Submit once the current question is answered, Retake on the results |
| Quiz.InitialValid | src/pages/Quiz.tsx:47-52 | the initial page state is consistent, shows the quiz list, and is reachable |
| Quiz.StartIsFresh | src/pages/Quiz.tsx:92-98 | starting a quiz gives index 0, one empty answer per question, no results and no score |
| Quiz.SelectWritesOneSlot | src/pages/Quiz.tsx:100-104 | choosing an answer writes the current slot and changes nothing else |
| Quiz.NextAdvancesOrSubmits | src/pages/Quiz.tsx:106-112 | Next moves on by one below the last question and submits on it |
| Quiz.PreviousStepsBack | src/pages/Quiz.tsx:266-267 | Previous steps back by one and never below zero |
| Quiz.SubmitStoresGrade | src/pages/Quiz.tsx:114-129 | a graded reply stores the server's score and results; a failure only sets the error, with its fallback |
| Quiz.ResetClears | src/pages/Quiz.tsx:131-137 | reset returns to the list with no attempt left |
| Quiz.RestartIsFresh | src/pages/Quiz.tsx:198-203 | leaving and restarting a quiz, or retaking it, equals starting it once |
| Quiz.RetakeForgetsResults | src/pages/Quiz.tsx:201 | a retake keeps the quiz and clears results, score and answers |
| Quiz.CorrectCount | src/pages/Quiz.tsx:158 | the correct count is at most the number of results, and equal exactly when all are correct |
| Quiz.StepPreservesReachable | src/pages/Quiz.tsx:253-276 | every enabled action keeps the state consistent, answered before the index, and every answer an option |
| Quiz.RunPreservesReachable | src/pages/Quiz.tsx:47-137 | any sequence of enabled actions from a reachable state stays reachable |
| Quiz.SubmitOnlyWhenComplete | src/pages/Quiz.tsx:273-276 | when Submit is enabled on the last question, every question has a non-empty answer |
| Quiz.QuizPage.constructor | src/pages/Quiz.tsx:47-52 | the fields hold the initial state |
| Quiz.QuizPage.StartQuiz | src/pages/Quiz.tsx:92-98 | the fields take the `Start` state, with a fresh answers array |
| Quiz.QuizPage.SelectAnswer | src/pages/Quiz.tsx:100-104 | the fields take the `Select` state |
| Quiz.QuizPage.SubmitQuiz | src/pages/Quiz.tsx:114-129 | the fields take the `Submit` state |
| Quiz.QuizPage.NextQuestion | src/pages/Quiz.tsx:106-112 | the fields take the `Next` state |
| Quiz.QuizPage.PreviousQuestion | src/pages/Quiz.tsx:266 | the fields take the `Previous` state |
| Quiz.QuizPage.ResetQuiz | src/pages/Quiz.tsx:131-137 | the fields take the `Reset` state |
| Quiz.QuizPage.RetakeQuiz | src/pages/Quiz.tsx:201 | the fields take the `Retake` state |
| Session.Initial | src/context/AuthContext.jsx:8-11 | the state at mount: the stored token and user, loading, no error |
| Session.Saved | src/context/AuthContext.jsx:18-23 | `saveAuthData`: token and user in memory and storage |
| Session.Cleared | src/context/AuthContext.jsx:26-31 | `clearAuthData`: no token or user in memory or storage |
| Session.WithUser | src/context/AuthContext.jsx:55-57 | the fetched or updated user in memory and storage, token kept |
| Session.Fetched | src/context/AuthContext.jsx:34-65 | `fetchUserProfile` once settled: adopt the user, or sign out with the failure message; loading ends |
| Session.Authenticated | src/context/AuthContext.jsx:77-104 | the state after `login` or `register`: saved on acceptance, otherwise unchanged but for the error; loading ends |
| Session.AuthReply | src/context/AuthContext.jsx:77-104 | what `login` and `register` return: success, or the error with the server's message or the fallback |
| Session.InitialSession | src/context/AuthContext.jsx:8-11 | at mount the session is authenticated exactly when storage holds a non-empty token; it is loading with no user |
| Session.SavedInSync | src/context/AuthContext.jsx:18-23 | saving puts the same token and user in memory and storage and touches no other key |
| Session.WithUserInSync | src/context/AuthContext.jsx:55-57 | replacing the user keeps memory and storage in agreement, keeps the token and signed-in status, and stores the new user |
| Session.ClearedInSync | src/context/AuthContext.jsx:26-31 | clearing removes token and user from memory and storage and touches no other key |
| Session.LogoutIdempotent | src/context/AuthContext.jsx:137-139 | logging out twice equals logging out once |
| Session.FetchFailureSignsOut | src/context/AuthContext.jsx:49-61 | a refused or thrown profile fetch signs out and records the failure message |
| Session.FetchSuccessAdoptsUser | src/context/AuthContext.jsx:55-57 | a successful fetch adopts the server's user in memory and storage and keeps the token and the sync |
| Session.BootstrapSyncs | src/context/AuthContext.jsx:68-74 | bootstrapping from a stored token ends with memory and storage in agreement on every reply |
| Session.LoadingAlwaysEnds | src/context/AuthContext.jsx:62-64 | loading is false after every fetch, login and register path |
| Session.AuthReplies | src/context/AuthContext.jsx:77-104 | login/register succeed exactly on acceptance after saving; otherwise they return the stored error, the server's message or the fallback |
| Session.AuthFailureKeepsSession | src/context/AuthContext.jsx:91-100 | a failed login or registration leaves token, user and storage as they were |
| Session.AuthSuccessSignsIn | src/context/AuthContext.jsx:95-96 | an accepted login is in sync and authenticated exactly when the token is non-empty |
| Session.Session.constructor | src/context/AuthContext.jsx:8-11 | the fields hold the initial state read from storage |
| Session.Session.SaveAuthData | src/context/AuthContext.jsx:18-23 | the fields take the `Saved` state |
| Session.Session.ClearAuthData | src/context/AuthContext.jsx:26-31 | the fields take the `Cleared` state |
| Session.Session.FetchUserProfile | src/context/AuthContext.jsx:34-65 | the fields take the `Fetched` state |
| Session.Session.Bootstrap | src/context/AuthContext.jsx:68-74 | the mount effect reaches the same `Fetched` state |
| Session.Session.Authenticate | src/context/AuthContext.jsx:77-104 | the shared body of login/register takes the `Authenticated` state and returns `AuthReply` |
| Session.Session.Login | src/context/AuthContext.jsx:77-104 | `login` with the "Login failed" fallback |
| Session.Session.Register | src/context/AuthContext.jsx:107-134 | `register` with the "Registration failed" fallback |
| Session.Session.Logout | src/context/AuthContext.jsx:137-139 | logout is `clearAuthData` |
| Session.Session.UpdateUser | src/pages/Onboarding.tsx:47 | `updateUser` replaces the user in memory and storage |
| GatedRoutes.Route | src/App.tsx:18-58 | `AppRoutes`: spinner while loading; login and register for anyone; the onboarding and layout routes behind `ProtectedRoute` and the onboarding gate; everything else to "/" |
| GatedRoutes.LoadingShowsSpinner | src/App.tsx:18-24 | while loading, every path shows the spinner |
| GatedRoutes.PublicPagesRender | src/App.tsx:29-30 | login and register render for any session |
| GatedRoutes.OnboardingGate | src/App.tsx:33-40 | "/onboarding" redirects an onboarded user to the dashboard and shows the form otherwise |
| GatedRoutes.NotOnboardedIsGated | src/App.tsx:43-55 | a user who is not onboarded is sent from "/" and its children to "/onboarding" |
| GatedRoutes.OnboardedTable | src/App.tsx:43-58 | for an onboarded user, "/" goes to the dashboard, children render, and unknown paths go to "/" |
| GatedRoutes.RedirectApproachesRender | src/App.tsx:29-58 | every redirect strictly decreases the distance to a rendered view |
| GatedRoutes.FollowSettles | src/App.tsx:29-58 | following redirects within that distance ends on a non-redirect |
| GatedRoutes.RedirectsTerminate | src/App.tsx:29-58 | from any path, at most two redirects reach a non-redirect |
| GatedRoutes.NoOnboardingDashboardCycle | src/App.tsx:33-48 | "/onboarding" and "/dashboard" never redirect to each other |
| AuthRoutes.ProtectedRoute | src/App.jsx:10-29 | `ProtectedRoute`: placeholder while loading, "/login" remembering the path when signed out, the children otherwise |
| AuthRoutes.Routes | src/App.jsx:63-79 | `AppContent`'s route table with its catch-all to "/" |
| AuthRoutes.Effect | src/App.jsx:38-53 | the redirect effect: signed in, the entry paths go to the remembered page or "/dashboard"; signed out, "/dashboard" goes to "/login" |
| AuthRoutes.ProtectedWhileLoading | src/App.jsx:14-21 | `ProtectedRoute` shows its placeholder while loading |
| AuthRoutes.ProtectedWhenLoaded | src/App.jsx:23-28 | once loaded, a signed-out user goes to "/login" remembering the path; otherwise the children show |
| AuthRoutes.EffectSettles | src/App.jsx:38-79 | with no or dashboard `from` state, the effect's target is "/dashboard" when signed in and "/login" when signed out, and there neither the effect nor the route table moves again |
| AuthRoutes.CatchAll | src/App.jsx:77 | unmatched paths are sent to "/" |
| AuthRoutes.OnlyTheseRedirects | src/App.jsx:38-79 | with no or dashboard `from` state, the only moves are the effect's and the catch-all's |
| AuthRoutes.MovesApproachRest | src/App.jsx:38-79 | every move strictly decreases the distance to a resting location |
| AuthRoutes.DistanceBounded | src/App.jsx:38-79 | no location is more than three moves from rest |
| AuthRoutes.ChainsAreShort | src/App.jsx:38-79 | any chain of moves has at most three steps, so redirects terminate |
| AuthRoutes.NoLoginDashboardCycle | src/App.jsx:38-53 | "/login" and "/dashboard" never send to each other |
| LoginForm.Validate | src/components/Login.jsx:15-18 | the form's check: both fields filled, or the missing-fields message |
| LoginForm.Submit | src/components/Login.jsx:11-26 | the intended handler's outcome: navigation on acceptance, otherwise the check's, server's or fallback message |
| LoginForm.LoginCalledIffFilled | src/components/Login.jsx:15-20 | `login` is called, with the typed credentials, exactly when both fields are filled |
| LoginForm.NavigatesIffAccepted | src/components/Login.jsx:21-22 | the form navigates to the dashboard, with no message, exactly on acceptance |
| LoginForm.FailureIsExplained | src/components/Login.jsx:23-25 | every failure leaves a non-empty message: the server's, the store's fallback, or the form's |
| LoginForm.MissingNavigatorThrows | src/App.jsx:66 | as mounted, every accepted login throws where the intended handler navigates; the effect then navigates iff the token is non-empty |
| LoginForm.NavigatorOnlyMattersOnSuccess | src/components/Login.jsx:11-26 | outside acceptance, the handler as mounted behaves as intended |
| LoginForm.LoginPage.constructor | src/components/Login.jsx:7-9 | the fields start empty |
| LoginForm.LoginPage.SetEmail | src/components/Login.jsx:75 | the email field takes the typed value |
| LoginForm.LoginPage.SetPassword | src/components/Login.jsx:89 | the password field takes the typed value |
| LoginForm.LoginPage.HandleSubmit | src/components/Login.jsx:11-26 | the navigation and message are those of `Submit`; the session is untouched on a failed check and takes the login transition otherwise |
| RegisterForm.Validate | src/components/Register.jsx:16-23 | the form's checks: all fields filled, then a password of six characters or more |
| RegisterForm.Submit | src/components/Register.jsx:12-31 | the intended handler's outcome: navigation on acceptance, otherwise the checks', server's or fallback message |
| RegisterForm.ValidIff | src/components/Register.jsx:16-23 | the checks pass exactly with all fields filled and a password of at least six characters |
| RegisterForm.MissingFieldWins | src/components/Register.jsx:16-23 | the missing-field message takes precedence over the length message |
| RegisterForm.RegisterCalledIffValid | src/components/Register.jsx:25 | `register` is called, with the typed fields, exactly when the checks pass |
| RegisterForm.NavigatesIffAccepted | src/components/Register.jsx:26-30 | navigation to the dashboard happens exactly on acceptance; every failure leaves a message |
| RegisterForm.MissingNavigatorThrows | src/App.jsx:67 | as mounted, every accepted registration throws where the intended handler navigates; the effect then navigates iff the token is non-empty |
| RegisterForm.RegisterPage.constructor | src/components/Register.jsx:7-10 | the fields start empty |
| RegisterForm.RegisterPage.SetName | src/components/Register.jsx:80 | the name field takes the typed value |
| RegisterForm.RegisterPage.SetEmail | src/components/Register.jsx:94 | the email field takes the typed value |
| RegisterForm.RegisterPage.SetPassword | src/components/Register.jsx:108 | the password field takes the typed value |
| RegisterForm.RegisterPage.HandleSubmit | src/components/Register.jsx:12-31 | the navigation and message are those of `Submit`; the session is untouched on a failed check and takes the register transition otherwise |
| Onboarding.Guard | src/pages/Onboarding.tsx:31-33 | the page's guard: redirect an onboarded user, show the form otherwise |
| Onboarding.RequestFor | src/pages/Onboarding.tsx:41-45 | the posted body: `parseInt` of the age and the two choices |
| Onboarding.GuardsAgree | src/pages/Onboarding.tsx:31-33 | the page's guard and `AppRoutes` agree at "/onboarding": the page redirects exactly when the route table redirects, and shows the form exactly when it renders the page |
| Onboarding.TypedAgeIsPosted | src/pages/Onboarding.tsx:41-45 | a typed number is posted as that number, an empty age as NaN, the other fields unchanged |
| Onboarding.OnboardingCompletes | src/pages/Onboarding.tsx:47 | once the server confirms an onboarded user, the page and "/onboarding" send to the dashboard, which renders |
| Onboarding.OnboardingPage.constructor | src/pages/Onboarding.tsx:21-27 | the form starts empty, not loading, with no error |
| Onboarding.OnboardingPage.SetAge | src/pages/Onboarding.tsx:91 | only the age changes |
| Onboarding.OnboardingPage.SetEducationLevel | src/pages/Onboarding.tsx:106 | only the education level changes |
| Onboarding.OnboardingPage.SetLearningStyle | src/pages/Onboarding.tsx:128 | only the learning style changes |
| Onboarding.OnboardingPage.HandleSubmit | src/pages/Onboarding.tsx:35-53 | posts `RequestFor(form)`; success stores the user and leaves the page, failure sets the message and leaves the session alone |
| Profile.FormFrom | src/pages/Profile.tsx:34-39 | the form filled from the user: each field or empty, the age printed |
| Profile.RequestFor | src/pages/Profile.tsx:48-53 | the body put to the server: `parseInt` of the age and the other fields |
| Profile.UneditedSaveRoundTrips | src/pages/Profile.tsx:34-53 | saving an unedited form puts back the server's values, the same age for every integer age, and NaN for an absent one |
| Profile.FormShowsUser | src/pages/Profile.tsx:34-39 | each present field of the user appears unchanged in the form; the age is shown exactly when present |
| Profile.ProfilePage.constructor | src/pages/Profile.tsx:29-39 | the form is filled from the session's user, not editing |
| Profile.ProfilePage.StartEditing | src/pages/Profile.tsx:131 | the Edit button enters edit mode |
| Profile.ProfilePage.SetName | src/pages/Profile.tsx:171 | only the name changes |
| Profile.ProfilePage.SetAge | src/pages/Profile.tsx:187 | only the age changes |
| Profile.ProfilePage.SetEducationLevel | src/pages/Profile.tsx:203 | only the education level changes |
| Profile.ProfilePage.SetLearningStyle | src/pages/Profile.tsx:226 | only the learning style changes |
| Profile.ProfilePage.HandleSubmit | src/pages/Profile.tsx:41-63 | puts `RequestFor(form)`; success stores the user and leaves edit mode, failure keeps editing with the message |
| Profile.ProfilePage.Settle | src/pages/Profile.tsx:54-62 | the settled request: success stores the user, sets the message and leaves edit mode; failure sets the error and leaves the session alone |
| Profile.ProfilePage.HandleCancel | src/pages/Profile.tsx:65-75 | the form is refilled from the current user and edit mode ends |
| Profile.ProfilePage.SignOut | src/pages/Profile.tsx:281 | the session takes the `Cleared` state |
| StudyGuides.StatusBadge | src/pages/StudyGuides.tsx:83-96 | `getStatusBadge`: the badge text and style for each status |
| StudyGuides.ShowsContent | src/pages/StudyGuides.tsx:203 | the summary and flashcards show only for completed guides |
| StudyGuides.PreviewCards | src/pages/StudyGuides.tsx:220 | `flashcards.slice(0, 2)` |
| StudyGuides.MoreCount | src/pages/StudyGuides.tsx:226-229 | the "+N more flashcards" line, shown with more than two cards |
| StudyGuides.SizeKb | src/pages/StudyGuides.tsx:196 | `Math.round(fileSize / 1024)` |
| StudyGuides.BadgeTable | src/pages/StudyGuides.tsx:83-96 | each known status has its own badge text; everything else is "Unknown"; only "failed" is destructive |
| StudyGuides.ContentOnlyWhenReady | src/pages/StudyGuides.tsx:203 | content is shown exactly for guides whose badge reads "Ready" |
| StudyGuides.PreviewPartition | src/pages/StudyGuides.tsx:220-228 | the preview is the first two cards at most, and preview plus "+N more" account for every card |
| StudyGuides.SizeKbNearest | src/pages/StudyGuides.tsx:196 | the KB shown is the nearest whole number, halves rounded up |
| StudyGuides.GuidesPage.constructor | src/pages/StudyGuides.tsx:36-40 | an empty list, no file, no messages |
| StudyGuides.GuidesPage.FetchGuides | src/pages/StudyGuides.tsx:46-53 | a successful fetch replaces the list; a failure keeps it |
| StudyGuides.GuidesPage.ChooseFile | src/pages/StudyGuides.tsx:147 | the first chosen file, or none |
| StudyGuides.GuidesPage.HandleFileUpload | src/pages/StudyGuides.tsx:55-81 | no file does nothing; success clears the file and refetches; failure keeps the file and shows the message |
| DashboardStats.TotalBest | src/pages/Dashboard.tsx:40-41 | the `reduce` summing `bestScore \|\| 0` |
| DashboardStats.AverageScore | src/pages/Dashboard.tsx:40-47 | the rounded mean best score, 0 without quizzes |
| DashboardStats.InitialStats | src/pages/Dashboard.tsx:21-26 | zero counts and the user's streak |
| DashboardStats.StatsFrom | src/pages/Dashboard.tsx:44-49 | the cards after a fetch: list lengths, the average, the user's streak |
| DashboardStats.TotalBestBounds | src/pages/Dashboard.tsx:40-42 | the sum of `n` percentage best scores lies in `[0, 100 n]` |
| DashboardStats.AverageIsPercentage | src/pages/Dashboard.tsx:40-47 | with percentage best scores, the average is a percentage |
| DashboardStats.AverageIsRoundedMean | src/pages/Dashboard.tsx:40-47 | the average is the unique whole number nearest the mean (ties up), or 0 without quizzes |
| DashboardStats.MissingBestCountsZero | src/pages/Dashboard.tsx:41 | a quiz with no best score adds 0 |
| DashboardStats.FetchMovesOnlyCounts | src/pages/Dashboard.tsx:21-49 | an empty reply shows exactly the initial cards, every reply keeps the streak card, and the counts are zero only for an empty reply |
| DashboardStats.DashboardPage.constructor | src/pages/Dashboard.tsx:21-26 | zero counts and the user's streak |
| DashboardStats.DashboardPage.FetchStats | src/pages/Dashboard.tsx:32-53 | success sets the cards from the fetched lists; failure keeps them |
| Gamification.Badges | src/pages/Gamification.tsx:56-61 | `mockBadges`: "First Steps" earned, "Study Streak" earned from seven days, the other two not |
| Gamification.PointsShown | src/pages/Gamification.tsx:111 | `user?.totalPoints \|\| 0` |
| Gamification.RankStyleOf | src/pages/Gamification.tsx:209-214 | gold, silver and bronze for ranks 1 to 3, plain otherwise |
| Gamification.Highlighted | src/pages/Gamification.tsx:205 | `entry.name === user?.name` |
| Gamification.EarnedCount | src/pages/Gamification.tsx:127-129 | the count is at most the number of badges and zero exactly when none is earned |
| Gamification.EarnedIsOneOrTwo | src/pages/Gamification.tsx:127-129 | one or two badges of four are counted, two exactly with the streak badge |
| Gamification.CardsMatchBadges | src/pages/Gamification.tsx:56-111 | the streak card and the "Study Streak" badge agree: earned exactly from seven days on the card; a non-zero points card is the user's own total |
| Gamification.RankStyles | src/pages/Gamification.tsx:209-214 | ranks 1 to 3 each have their own style; all other ranks share the plain one |
| Gamification.AtMostOneHighlighted | src/pages/Gamification.tsx:205 | with distinct leaderboard names at most one row is highlighted, and none without a signed-in user who has a name |
| Chatbot.AfterSend | src/pages/Chatbot.tsx:30-64 | `sendMessage` on the transcript: nothing for blank input, otherwise the question followed by the reply when there is one |
| Chatbot.AfterSendAppends | src/pages/Chatbot.tsx:30-64 | blank input changes nothing; otherwise the question and any reply are appended, with earlier entries kept |
| Chatbot.UserTextsAppend | src/pages/Chatbot.tsx:41 | the user's texts of a concatenation are the concatenation of the texts |
| Chatbot.ConversationShape | src/pages/Chatbot.tsx:18-64 | the transcript opens with the greeting, every reply follows a question, and the user's messages are the non-blank inputs in order |
| Chatbot.ChatPage.constructor | src/pages/Chatbot.tsx:18-28 | the transcript is the greeting alone |
| Chatbot.ChatPage.SetInput | src/pages/Chatbot.tsx:151 | the input box takes the typed value |
| Chatbot.ChatPage.ChooseSuggestion | src/pages/Chatbot.tsx:193 | a suggestion fills the input box |
| Chatbot.ChatPage.SendMessage | src/pages/Chatbot.tsx:30-64 | the transcript becomes `AfterSend`; a blank input changes nothing, otherwise the box is cleared and the error is set on failure |
| Summarizer.Summarize | src/Pages/Dashboard.jsx:88-96 | the placeholder summarizer: an error for names containing "error", a fixed summary otherwise |
| Summarizer.SummarizeTable | src/Pages/Dashboard.jsx:88-96 | a name containing "error" fails with the fixed message; otherwise the title ends with the name and the summary and keywords are fixed |
| Summarizer.SummaryPanel.constructor | src/Pages/Dashboard.jsx:21-26 | the Summary tab and PDF input, with no file, result or error |
| Summarizer.SummaryPanel.SelectFeatureTab | src/Pages/Dashboard.jsx:149 | the chosen tab becomes active |
| Summarizer.SummaryPanel.SelectInputType | src/Pages/Dashboard.jsx:181 | the chosen input type becomes active |
| Summarizer.SummaryPanel.HandleFileChange | src/Pages/Dashboard.jsx:54-59 | a chosen file replaces the selection and clears the error; an empty choice changes nothing |
| Summarizer.SummaryPanel.HandleSummarize | src/Pages/Dashboard.jsx:61-98 | no file sets the message; otherwise exactly one of result and error is set, as `Summarize` decides |

## Findings

| source | as written | input that shows it | evidently intended | confidence | as-written member | corrected member |
|---|---|---|---|---|---|---|
| src/App.jsx:66 | `<Login />` is mounted without the `navigateTo` prop, so `navigateTo('dashboard')` at src/components/Login.jsx:22 throws a TypeError after every accepted login; the "Register here" button at line 105 throws too | any non-empty email and password the server accepts | navigate to the dashboard after a successful login | high, not executed | LoginForm.MissingNavigatorThrows | LoginForm.NavigatesIffAccepted |
| src/App.jsx:67 | `<Register />` is mounted without `navigateTo`, so `navigateTo('dashboard')` at src/components/Register.jsx:27 throws after every accepted registration; the "Login here" button at line 124 throws too | any valid name, email and a password of six or more characters the server accepts | navigate to the dashboard after a successful registration | high, not executed | RegisterForm.MissingNavigatorThrows | RegisterForm.NavigatesIffAccepted |

The session has already been saved when the throw happens. The redirect effect of
src/App.jsx (`AuthRoutes.Effect`) then moves a user with a non-empty token from
"/login" or "/register" to "/dashboard". The finding lemmas prove this as well,
so the crash is masked when the token is non-empty. `LoginPage.HandleSubmit`
and `RegisterPage.HandleSubmit` model the intended handler, which has a navigator.

## Left out

- Network, timers and browser storage I/O: each remote call is an input to its handler (the reply, a refusal with an optional message, or a thrown error), and storage is a `map` field.
- Asynchrony: every handler runs to completion in one step. Interleaved requests, stale responses, the transient `loading`/`isLoading` values seen mid-request and unmount races are not modelled.
- `JSON.stringify`/`JSON.parse` of the stored user: the storage map holds the user value itself.
- React rendering, styling, animation and the Layout, Navbar, Sidebar, Home and marketing components: they hold no logic beyond what is rendered.
- `ProtectedRoute` and `Layout` of src/App.tsx, and the pages it imports from `@/pages/Login` and `@/pages/Register`: these files are not part of this model. `ProtectedRoute`'s verdict is the input `admitted`.
- The `isLoading` and `updateUser` members that the TypeScript pages read from `useAuth`: the shown provider exports `loading` and no `updateUser`. The model gives `Session.Session.UpdateUser` the behaviour the pages expect and lets `GatedRoutes.Route` take the loading flag as an input.
- Route matching details: case-insensitive matching, trailing slashes and nested-route normalisation of react-router. Paths are compared as exact strings.
- Quiz.Start: requires a quiz with at least one question. With zero questions, the question render at src/pages/Quiz.tsx:214 would dereference an undefined question; the quiz list is assumed never to offer one.
- The quiz progress bar (src/pages/Quiz.tsx:215), the quiz list and quiz creation requests (`fetchQuizzes`, `createQuiz`) and the refetch after a submission: no state of the attempt depends on them.
- Profile.UneditedSaveRoundTrips: ages are integers. A fractional age from the server is printed with its decimals and posted as `parseInt`'s truncation ("20.5" becomes 20), which the model does not represent.
- Quiz.Submit: `bestScore` and `score` are integers. Fractional percentages from the server are not modelled.
- Common.ParseInt: models `parseInt` in base ten only. The `0x` prefix and the full Unicode white-space set `parseInt` skips are not modelled.
- Common.IsBlank: `trim` strips the Unicode white-space and line-terminator set; the model covers space, tab, the line breaks, vertical tab, form feed and no-break space.
- String lengths are counted in characters, not UTF-16 code units, for the password length check and `slice`.
- Chatbot.ChatMessage: the `Date.now()` ids and the timestamps are left out, since no behaviour depends on them.
- Summarizer.HandleSummarize: the simulated two-second delay and the intermediate `loadingSummary == true` state are not modelled.
- Gamification: `updateStreak`, `window.location.reload` and the leaderboard fetch are left out. The page's badge, card and ranking rules are modelled over the user and the entries.
- HTML form validation (`required`, `min`, `max` on inputs): it runs in the browser before the handler and is not part of the code.
