# Sentivox frontend: session, password pages and report derivations

This project models the browser client of Sentivox, a tool that analyses recorded recruiting interviews. It models three parts of the client:

- **Session handling** (`client/src/lib/auth.tsx`):
  - `AuthProvider` keeps the signed-in user in memory and caches it in the browser under the key `sentivox_user`. On start-up it shows a cached user at once and confirms that user with the server in the background. With no cached user it waits for the server. Login and logout update both copies.
  - `ProtectedRoute` shows a loading screen while the session is unknown. It then renders its page only for a signed-in user and sends everyone else to `/login`.
- **The three account pages** (`client/src/pages/Login.tsx`, `ForgotPassword.tsx`, `ResetPassword.tsx`):
  - An email address is accepted only with one of three company domains, compared case-insensitively.
  - Each page checks its form in a fixed order and shows one notice per outcome.
  - The reset page first verifies the link's token, then enforces an 8-character minimum and matching passwords.
- **Report derivations** on the analysis screen:
  - The headline metrics with their fallback chains.
  - The points of the sentiment chart.
  - The relevance chart data: from the category breakdown, else grouped from the per-question relevance, else from the overall score.
  - The badge ladders and explanations of the Q&A panel.
  - The four metric cards' description ladders.
  - The processing panel's service badge, savings count and progress count.
  - The training section's badges and visibility.

Files, one module per source file:

- **`auth.dfy`:** a value-level `Session` with one step function per event. Class `AuthProvider` has one method per event, and each method ensures that its new state is the step function applied to its old state. Class `IdentityStore` stands for the browser cache; `AuthProvider` and the login page share one instance. Class `RouteGuard` models `ProtectedRoute`.
- **`email_policy.dfy`:** the domain allow-list, which is defined identically in `Login.tsx` and `ForgotPassword.tsx` and modelled once here.
- **`login_page.dfy`, `forgot_password_page.dfy`, `reset_password_page.dfy`:** each page is a class. Every handler that waits on the network is split at its `await` into `Submit` (before the wait) and `Complete` (after it), so the loading flag of the waiting form can be stated.
- **`analysis_dashboard.dfy`, `conversation_analysis.dfy`, `metrics_cards.dfy`, `processing_status.dfy`, `training_recommendations.dfy`:** the pure derivations. `GroupByCategory` is the one loop: it is a method proved against `Tallies`/`Order`.
- **`report_types.dfy`:** the report shapes from `@/lib/types`. That file is not part of this model; only the fields the derivations read are declared.
- **`common.dfy`:** the JavaScript string and number operations the code relies on: ASCII `toLowerCase`/`toUpperCase`, `includes`, `endsWith`, integer formatting, and `Math.round`.

Where the code departs from the intended behaviour, the model follows the code:

- **Forgot password:** the page shows the "email sent" screen only when the server answers ok. A failed answer shows "Request Failed" and keeps the form (`ForgotPassword.tsx:59-71`).
- **Background check:** it compares the server's user with the user it parsed at start-up, not with the current user. An ok answer that arrives after a logout, carrying a user different from the one parsed at start-up, therefore signs that user back in and re-caches it (`auth.tsx:51-57`; the lemma `Auth.LateBackgroundAnswerAfterLogout`).
- **Invalid reset link:** the page offers only "Back to Login" (`ResetPassword.tsx:170-176`), not a way to request a new link.
- **Service badge:** in the test `msg.includes('openai') && !msg.includes('no openai')` the second conjunct can never be false. The branch is reached only when the message does not contain "no openai" (`ProcessingStatus.tsx:20,28`).

## Model

| member | source | states |
|---|---|---|
| Common.Lower | client/src/components/ConversationAnalysis.tsx:50 | lower-casing keeps the length and maps each character on its own |
| Common.Contains | client/src/components/ProcessingStatus.tsx:20 | `includes` holds exactly when the needle occurs at some position |
| Common.Capitalize | client/src/components/AnalysisDashboard.tsx:173 | only the first character is upper-cased; the rest and the length are kept |
| Common.NatToStringInjective | client/src/components/ConversationAnalysis.tsx:87 | different indices print differently, so element ids built from them differ |
| Common.Round | client/src/components/AnalysisDashboard.tsx:136 | `Math.round` gives the integer within one half of its argument, halves rounding up |
| Auth.Stored | client/src/lib/auth.tsx:80 | writing a present user caches it; writing a missing user leaves text that will not parse |
| Auth.IdentityStore.constructor | client/src/lib/auth.tsx:31 | the cache starts with whatever the browser held |
| Auth.IsAuthenticated | client/src/lib/auth.tsx:133 | signed in exactly when a user is present (`!!user`) |
| Auth.InitialSession | client/src/lib/auth.tsx:24-25 | no user, loading |
| Auth.BootstrapPending | client/src/lib/auth.tsx:31-39 | a parseable cached user leads to a background check against that user; an absent or unparseable one to a blocking check |
| Auth.Bootstrap | client/src/lib/auth.tsx:31-69 | a cached user is shown at once and loading ends; corrupt cache data is removed; with nothing usable the session stays loading |
| Auth.BlockingAnswer | client/src/lib/auth.tsx:72-91 | an ok answer signs in the returned user and caches it; a refusal or a network error signs out and clears the cache; loading always ends |
| Auth.BackgroundAnswer | client/src/lib/auth.tsx:39-63 | a refusal signs out, clears the cache and goes to /login; an ok answer with a different user replaces and re-caches it; an equal user, no user or a network error changes nothing |
| Auth.LoginStep | client/src/lib/auth.tsx:98-118 | an ok answer signs in and caches the returned user; anything else leaves session and cache unchanged |
| Auth.LoginResult | client/src/lib/auth.tsx:107-116 | `login` reports true exactly for an ok answer |
| Auth.LogoutStep | client/src/lib/auth.tsx:120-128 | the user and the cache are cleared and the route is /login, whatever the state before |
| Auth.AuthProvider.constructor | client/src/lib/auth.tsx:23-25 | a new provider is the initial session over the given cache |
| Auth.AuthProvider.CheckAuth | client/src/lib/auth.tsx:28-70 | the state after start-up is `Bootstrap` of the cache; the returned pending check is `BootstrapPending` |
| Auth.AuthProvider.CompleteBlockingCheck | client/src/lib/auth.tsx:72-91 | the new state is `BlockingAnswer` of the old |
| Auth.AuthProvider.CompleteBackgroundCheck | client/src/lib/auth.tsx:39-63 | the new state is `BackgroundAnswer` of the old, against the captured user |
| Auth.AuthProvider.Login | client/src/lib/auth.tsx:98-118 | the new state is `LoginStep` of the old; the result is `LoginResult` |
| Auth.AuthProvider.Logout | client/src/lib/auth.tsx:120-128 | the new state is `LogoutStep` of the old |
| Auth.GuardRender | client/src/lib/auth.tsx:168-183 | loading shows the spinner; the page only when signed in and released; nothing otherwise |
| Auth.GuardEffect | client/src/lib/auth.tsx:157-166 | once loading ends a signed-out visitor is sent to /login and a signed-in one is released; while loading nothing happens |
| Auth.GuardViewAfterEffect | client/src/lib/auth.tsx:152-184 | after the effect the page is rendered iff the session is signed in and not loading |
| Auth.RouteGuard.constructor | client/src/lib/auth.tsx:155 | the guard starts unreleased |
| Auth.RouteGuard.View | client/src/lib/auth.tsx:168-183 | the guard shows the spinner iff loading, and its page iff not loading, signed in and released |
| Auth.RouteGuard.Effect | client/src/lib/auth.tsx:157-166 | the new guard state is `GuardEffect` of the old |
| Auth.OfflineCachedSessionStaysVisible | client/src/lib/auth.tsx:60-63 | a cached user stays signed in, with the cache intact, when the background check fails on the network |
| Auth.RejectedCachedSessionIsCleared | client/src/lib/auth.tsx:43-48 | a cached user the server refuses ends signed out, uncached, on /login |
| Auth.EmptyCacheWaitsForServer | client/src/lib/auth.tsx:72-91 | with nothing cached the session stays loading until the server answers, then is signed in iff the answer was ok with a user |
| Auth.LoginSurvivesReload | client/src/lib/auth.tsx:107-111 | after a successful login a fresh provider over the same cache shows the same user at once |
| Auth.LogoutSurvivesReload | client/src/lib/auth.tsx:120-122 | after logout a fresh provider over the same cache has no user to show and must ask the server |
| Auth.LateBackgroundAnswerAfterLogout | client/src/lib/auth.tsx:51-57 | a background answer arriving after logout with a user other than the one parsed at start-up signs that user back in and re-caches it |
| EmailPolicy.SomeEndsWith | client/src/pages/Login.tsx:27 | `some(endsWith)` holds iff one of the domains is a suffix |
| EmailPolicy.ValidateEmail | client/src/pages/Login.tsx:19-28 | an address is valid iff its lower-cased form ends with one of the three allowed domains |
| EmailPolicy.ValidateEmailIgnoresCase | client/src/pages/ForgotPassword.tsx:24-25 | validity does not depend on letter case |
| EmailPolicy.AcceptedEmailIsNotEmpty | client/src/pages/ForgotPassword.tsx:31-47 | an accepted address is at least as long as the shortest domain, so the two checks cannot both fire |
| EmailPolicy.AcceptsAllowedDomains | client/src/pages/ForgotPassword.tsx:18-22 | addresses at each of the three domains are accepted |
| EmailPolicy.AcceptsUpperCase | client/src/pages/ForgotPassword.tsx:24-25 | an upper-case address at an allowed domain is accepted |
| EmailPolicy.RejectsOtherDomains | client/src/pages/ForgotPassword.tsx:17-26 | an address at another domain and the empty address are rejected |
| EmailPolicy.EmailGate | client/src/pages/Login.tsx:33-49 | an empty address gives "Email Required", an invalid one "Invalid Email Domain", and only a valid one passes |
| LoginPage.RequestBody | client/src/pages/Login.tsx:56 | the email is sent as typed; an empty password is omitted and any other is sent unchanged |
| LoginPage.AcceptedUser | client/src/pages/Login.tsx:62 | a user is accepted iff the answer is ok and carries one |
| LoginPage.OutcomeNotice | client/src/pages/Login.tsx:62-85 | welcome for an accepted user; the server's message or the default text otherwise; "Error" for a thrown request |
| LoginPage.LoginForm.constructor | client/src/pages/Login.tsx:12-15 | empty fields, not loading, nothing sent |
| LoginPage.LoginForm.Submit | client/src/pages/Login.tsx:30-58 | a gated address shows its notice and sends nothing; a valid one starts loading and returns the request body |
| LoginPage.LoginForm.Complete | client/src/pages/Login.tsx:60-88 | loading ends; only an accepted user is cached, and only then does the page navigate to / |
| LoginPage.LoginPageThenReload | client/src/pages/Login.tsx:62-72 | after the page's own login the reloaded provider shows the accepted user |
| ForgotPasswordPage.OutcomeNotice | client/src/pages/ForgotPassword.tsx:59-77 | "Email Sent!" for ok; the server's message or the default text for a refusal; "Error" for a thrown request |
| ForgotPasswordPage.ForgotPasswordForm.constructor | client/src/pages/ForgotPassword.tsx:12-14 | empty email, not loading, form shown |
| ForgotPasswordPage.ForgotPasswordForm.View | client/src/pages/ForgotPassword.tsx:83 | the confirmation screen is shown iff the email was sent |
| ForgotPasswordPage.ForgotPasswordForm.Submit | client/src/pages/ForgotPassword.tsx:28-55 | a gated address shows its notice and sends nothing; a valid one starts loading and sends the request; the confirmation flag is untouched |
| ForgotPasswordPage.ForgotPasswordForm.Complete | client/src/pages/ForgotPassword.tsx:57-80 | loading ends, the outcome's notice is shown, and the confirmation screen opens for an ok answer and otherwise stays as it was |
| ForgotPasswordPage.ForgotPasswordForm.SendToDifferentEmail | client/src/pages/ForgotPassword.tsx:144 | returns to the form and keeps the typed address |
| ResetPasswordPage.TokenVerdict | client/src/pages/ResetPassword.tsx:40-57 | the link is valid only for an ok answer saying valid; anything else, a thrown request included, makes it invalid |
| ResetPasswordPage.Usable | client/src/pages/ResetPassword.tsx:25 | a link parameter is usable when present and not empty; `Mount` rejects the link unless both are |
| ResetPasswordPage.CheckPasswords | client/src/pages/ResetPassword.tsx:63-88 | the checks run in order, missing, then shorter than 8, then different, and pass iff all three hold |
| ResetPasswordPage.SubmitDisabled | client/src/pages/ResetPassword.tsx:280 | the button is enabled iff not loading and the passwords pass every check |
| ResetPasswordPage.LengthIndicatorGreen | client/src/pages/ResetPassword.tsx:268 | a green length hint implies a non-empty password, and for a non-empty password it is green iff the handler's length check passes |
| ResetPasswordPage.MatchIndicatorGreen | client/src/pages/ResetPassword.tsx:271 | green exactly when both passwords are non-empty and equal, which is exactly when the handler finds them neither missing nor different |
| ResetPasswordPage.IndicatorsMatchHandler | client/src/pages/ResetPassword.tsx:268-272 | the length hint agrees with the length check, and both hints are green iff the submit handler accepts the passwords |
| ResetPasswordPage.ViewOf | client/src/pages/ResetPassword.tsx:127-183 | unverified shows "Verifying link...", invalid the invalid-link screen, valid the form |
| ResetPasswordPage.Actions | client/src/pages/ResetPassword.tsx:170-176 | the invalid-link screen offers exactly one action, going to /login |
| ResetPasswordPage.VerifyNotice | client/src/pages/ResetPassword.tsx:40-57 | no notice exactly for a valid link; a refused link shows its message, or the default invalid-link text when the message is empty; the error notice for a thrown request |
| ResetPasswordPage.ResetNotice | client/src/pages/ResetPassword.tsx:100-121 | the success notice exactly for an ok answer; a refusal shows its message, or the default failure text when empty; the error notice for a thrown request |
| ResetPasswordPage.ResetPasswordForm.constructor | client/src/pages/ResetPassword.tsx:12-17 | empty fields, link unverified, not loading |
| ResetPasswordPage.ResetPasswordForm.View | client/src/pages/ResetPassword.tsx:127-183 | the page's view is `ViewOf` its token state |
| ResetPasswordPage.ResetPasswordForm.Mount | client/src/pages/ResetPassword.tsx:20-33 | a missing or empty token or email marks the link invalid at once; otherwise both are kept and that pair is sent for verification |
| ResetPasswordPage.ResetPasswordForm.TokenChecked | client/src/pages/ResetPassword.tsx:35-58 | the token state becomes `TokenVerdict` of the answer |
| ResetPasswordPage.ResetPasswordForm.BackToLogin | client/src/pages/ResetPassword.tsx:170-176 | from the invalid-link screen the page navigates to /login and nothing else changes |
| ResetPasswordPage.ResetPasswordForm.Submit | client/src/pages/ResetPassword.tsx:60-96 | rejected passwords show their notice and send nothing; accepted ones start loading and return email, token and password |
| ResetPasswordPage.ResetPasswordForm.Complete | client/src/pages/ResetPassword.tsx:98-124 | loading ends; only an ok answer schedules /login after 1500 ms; the form fields, token and email are unchanged |
| ResetPasswordPage.PasswordExamples | client/src/pages/ResetPassword.tsx:72-88 | seven equal characters fail as too short and keep the button disabled; eight equal ones pass and enable it; a mismatch fails as different |
| AnalysisDashboard.OrElse | client/src/components/AnalysisDashboard.tsx:72-77 | `x \|\| d` is `x` when present and non-zero, `d` otherwise |
| AnalysisDashboard.DeriveMetrics | client/src/components/AnalysisDashboard.tsx:71-78 | each metric follows its fallback chain; match and flow are 0 iff every source is missing or zero |
| AnalysisDashboard.MatchCardFallback | client/src/components/AnalysisDashboard.tsx:74 | without a report match score the card shows the embedding similarity, and "No alignment" when that is missing too |
| AnalysisDashboard.AnswerSentiment | client/src/components/AnalysisDashboard.tsx:86 | the first answer's sentiment, or "Neutral" when there is no answer or its sentiment is empty; never empty |
| AnalysisDashboard.CandidateScore | client/src/components/AnalysisDashboard.tsx:89-96 | 7 for positive, 3 for negative, 5 for neutral, tested in that order case-insensitively; otherwise engagement/10 with 50 for missing |
| AnalysisDashboard.CandidateScoreFollowsTone | client/src/components/AnalysisDashboard.tsx:86-96 | the chart score agrees with the sentiment colour the Q&A panel gives the same text |
| AnalysisDashboard.UnansweredQuestionIsNeutral | client/src/components/AnalysisDashboard.tsx:86-95 | a question without answers charts at 5 |
| AnalysisDashboard.PointTime | client/src/components/AnalysisDashboard.tsx:102 | the timestamp, or `Q<n>` with the 1-based position |
| AnalysisDashboard.SentimentData | client/src/components/AnalysisDashboard.tsx:81-108 | at most the first 10 questions, one point each in order, recruiter score from the report or 5 |
| AnalysisDashboard.ZeroRecruiterSentimentChartsAsFive | client/src/components/AnalysisDashboard.tsx:99 | a recruiter sentiment of 0 charts every point at 5 |
| AnalysisDashboard.PointFindsItsQuestion | client/src/components/AnalysisDashboard.tsx:105 | every point's segment index names its question, and the Q&A panel row with that id is that question |
| AnalysisDashboard.MapCategories | client/src/components/AnalysisDashboard.tsx:131-150 | one entry per category in table order; the rounded score or 0; the category's own details when present and non-empty, otherwise "No details available" |
| AnalysisDashboard.CategoryOf | client/src/components/AnalysisDashboard.tsx:159 | the question's category, or "Other" when it has none |
| AnalysisDashboard.Tallies | client/src/components/AnalysisDashboard.tsx:158-166 | the reduce's accumulator after a prefix of the questions; no group counts more questions than were seen (its contents are stated by `GroupsAreCategories`) |
| AnalysisDashboard.Order | client/src/components/AnalysisDashboard.tsx:158-168 | the order in which groups first appear; never longer than the prefix (membership, distinctness and order are stated by `OrderListsGroups`, `OrderListsCategoriesSeen` and `OrderIsFirstAppearance`) |
| AnalysisDashboard.GroupByCategory | client/src/components/AnalysisDashboard.tsx:158-166 | the reduce returns `Order` and `Tallies` of all questions: each group once, in order of first appearance (`OrderIsFirstAppearance`), with its count and sum (`GroupsAreCategories`) |
| AnalysisDashboard.OrderListsCategoriesSeen | client/src/components/AnalysisDashboard.tsx:158-168 | a category is listed exactly when some question falls in it |
| AnalysisDashboard.OrderIsFirstAppearance | client/src/components/AnalysisDashboard.tsx:158-168 | groups are listed in order of first appearance: wherever a later group's category occurs, every earlier group's category has already occurred |
| AnalysisDashboard.GroupsAreCategories | client/src/components/AnalysisDashboard.tsx:158-166 | a category has a group iff it occurs; its tally is the sum and count of exactly its questions |
| AnalysisDashboard.OrderListsGroups | client/src/components/AnalysisDashboard.tsx:168 | the listing has each group exactly once |
| AnalysisDashboard.GroupsAreNonEmpty | client/src/components/AnalysisDashboard.tsx:160-164 | every group counts at least one question, so the average never divides by zero |
| AnalysisDashboard.SumInBounds | client/src/components/AnalysisDashboard.tsx:163 | with percentage scores a group's sum lies between 0 and 100 times its count |
| AnalysisDashboard.GroupEntries | client/src/components/AnalysisDashboard.tsx:168-177 | one bar per group: capitalised name, rounded average, palette colour by position |
| AnalysisDashboard.Bars | client/src/components/AnalysisDashboard.tsx:158-177 | one bar per occurring category, valued at the rounded average of that category's scores |
| AnalysisDashboard.Split | client/src/components/AnalysisDashboard.tsx:180-183 | the first three bars are the core chart and the rest the other chart, none lost or repeated |
| AnalysisDashboard.RelevanceSpec | client/src/components/AnalysisDashboard.tsx:111-193 | breakdown first, else grouped questions split into the first three bars and the rest, else the overall score, else empty |
| AnalysisDashboard.GetRelevanceData | client/src/components/AnalysisDashboard.tsx:111-193 | the computed chart data is `RelevanceSpec` |
| AnalysisDashboard.BreakdownShape | client/src/components/AnalysisDashboard.tsx:112-154 | with a breakdown there are always 3 core and 7 other entries, in table order |
| AnalysisDashboard.RoundedAverageBounds | client/src/components/AnalysisDashboard.tsx:174 | the rounded average of percentages is a percentage |
| AnalysisDashboard.BarBounded | client/src/components/AnalysisDashboard.tsx:174 | with percentage scores every grouped bar is between 0 and 100 |
| AnalysisDashboard.GroupedBars | client/src/components/AnalysisDashboard.tsx:156-183 | the grouped fallback has one bar per occurring category and every bar is between 0 and 100 |
| ConversationAnalysis.BadgeVariant | client/src/components/ConversationAnalysis.tsx:26-31 | green from 75, blue from 25, outline from 5, red below 5 |
| ConversationAnalysis.BadgeVariantMonotone | client/src/components/ConversationAnalysis.tsx:26-31 | a higher score never gets a worse badge |
| ConversationAnalysis.BadgeText | client/src/components/ConversationAnalysis.tsx:33-38 | the label of the badge's own band followed by the score and "%" |
| ConversationAnalysis.RelevanceExplanation | client/src/components/ConversationAnalysis.tsx:40-47 | a given reasoning wins; otherwise the score line and the question advice of the badge's band |
| ConversationAnalysis.AnswerMatchExplanation | client/src/components/ConversationAnalysis.tsx:68-75 | a given reasoning wins; otherwise the score line and the answer advice of the badge's band |
| ConversationAnalysis.SentimentTone | client/src/components/ConversationAnalysis.tsx:49-55 | positive, then negative, then neutral are looked for case-insensitively; anything else is gray |
| ConversationAnalysis.ConfidenceText | client/src/components/ConversationAnalysis.tsx:59 | empty without a score, " (Confidence: n%)" with one |
| ConversationAnalysis.SentimentExplanation | client/src/components/ConversationAnalysis.tsx:57-66 | positive, else negative, else neutral heading, with the confidence text, and that mood's advice |
| ConversationAnalysis.ExplanationAgreesWithTone | client/src/components/ConversationAnalysis.tsx:49-66 | the explanation's mood matches the badge colour, except that a gray badge is explained as neutral |
| ConversationAnalysis.AnswerPreview | client/src/components/ConversationAnalysis.tsx:119 | text up to 200 characters shown whole; longer text cut to 200 plus "..." |
| ConversationAnalysis.InsightText | client/src/components/ConversationAnalysis.tsx:169-183 | a string insight as is; an object's first truthy field of description, insight, text, content, else its JSON |
| ConversationAnalysis.SegmentId | client/src/components/ConversationAnalysis.tsx:87 | the id starts with "transcript-segment-" |
| ConversationAnalysis.SegmentIdInjective | client/src/components/ConversationAnalysis.tsx:87 | different indices give different ids |
| ConversationAnalysis.RenderAnswer | client/src/components/ConversationAnalysis.tsx:115-149 | an answer's row: preview, sentiment colour with the explanation of the same mood, and the match badge whose label is its own band's |
| ConversationAnalysis.RenderQuestion | client/src/components/ConversationAnalysis.tsx:84-151 | a question's row: its segment id, its text and timestamp, its relevance badge and label, the relevance tooltip, and one answer row per answer in order |
| ConversationAnalysis.RenderPanel | client/src/components/ConversationAnalysis.tsx:84-193 | one row per question, in order, each row being that question rendered at its index (id, text, answers, relevance badge); the empty notice iff there are no questions; the insight list iff there are insights, one line each |
| ConversationAnalysis.RowOfSegmentId | client/src/components/ConversationAnalysis.tsx:84-89 | the row carrying a question's id is that question's row |
| ConversationAnalysis.UpperCasePositiveIsGreen | client/src/components/ConversationAnalysis.tsx:50-51 | "POSITIVE" is coloured green |
| ConversationAnalysis.EmptySentimentIsGray | client/src/components/ConversationAnalysis.tsx:49-54 | an empty sentiment gets the gray style |
| MetricsCards.BandIndex | client/src/components/MetricsCards.tsx:40-71 | the ladder picks the first threshold reached, else one past the last |
| MetricsCards.BandIndexMonotone | client/src/components/MetricsCards.tsx:40-71 | a higher score never lands in a worse band |
| MetricsCards.BandIndexIs | client/src/components/MetricsCards.tsx:40-71 | the band is the unique index reached with no earlier one reached |
| MetricsCards.SentimentDescription | client/src/components/MetricsCards.tsx:40-47 | always one of the six sentiment labels, "Excellent sentiment" iff the score is at least 8 |
| MetricsCards.EngagementDescription | client/src/components/MetricsCards.tsx:49-55 | always one of the five engagement labels, "High engagement" iff the score is at least 85 |
| MetricsCards.MatchDescription | client/src/components/MetricsCards.tsx:57-63 | always one of the five match labels, "Excellent alignment" iff the score is at least 85 |
| MetricsCards.FlowDescription | client/src/components/MetricsCards.tsx:65-71 | always one of the five flow labels, "Excellent flow" iff the score is at least 85 |
| MetricsCards.SentimentLadder | client/src/components/MetricsCards.tsx:40-47 | the sentiment description is the label of the score's band over 8/7/6/5/3 |
| MetricsCards.EngagementLadder | client/src/components/MetricsCards.tsx:49-55 | the engagement description is the label of the score's band over 85/70/55/30 |
| MetricsCards.AlignmentLadders | client/src/components/MetricsCards.tsx:57-71 | match and flow descriptions are labels of the score's band over 85/75/60/40 |
| MetricsCards.SentimentMonotone | client/src/components/MetricsCards.tsx:40-47 | a higher score is never described worse |
| MetricsCards.EngagementMonotone | client/src/components/MetricsCards.tsx:49-55 | a higher score is never described worse |
| MetricsCards.MatchMonotone | client/src/components/MetricsCards.tsx:57-63 | a higher score is never described worse |
| MetricsCards.FlowMonotone | client/src/components/MetricsCards.tsx:65-71 | a higher score is never described worse |
| MetricsCards.MatchAndFlowAgree | client/src/components/MetricsCards.tsx:57-71 | the same score gets the same band on the match and flow cards |
| MetricsCards.Cards | client/src/components/MetricsCards.tsx:73-110 | exactly four cards in fixed order, each with its own score and its own ladder's description |
| MetricsCards.CardTitlesDistinct | client/src/components/MetricsCards.tsx:73-110 | no two cards share a title |
| ProcessingStatus.DigitRun | client/src/components/ProcessingStatus.tsx:24 | `\d+` takes the longest run of digits at the start |
| ProcessingStatus.SavedPosition | client/src/components/ProcessingStatus.tsx:24 | the leftmost place where "saved " is followed by a digit |
| ProcessingStatus.SavedCalls | client/src/components/ProcessingStatus.tsx:24 | a count exactly when the pattern matches somewhere; the count is the maximal digit run after the leftmost match, so non-empty and all digits |
| ProcessingStatus.SavedCallsExamples | client/src/components/ProcessingStatus.tsx:24 | "saved 42 calls" yields "42"; "saved calls" yields nothing |
| ProcessingStatus.ClassifyService | client/src/components/ProcessingStatus.tsx:15-47 | message first (Gemini mention, "saved" or "no openai" win, then "openai"), then the step name; savings only with the message rule |
| ProcessingStatus.SavingsImplyGemini | client/src/components/ProcessingStatus.tsx:20-26 | a savings count always comes with Gemini, whatever the step's name |
| ProcessingStatus.StatusIcon | client/src/components/ProcessingStatus.tsx:49-60 | the hollow circle exactly for pending |
| ProcessingStatus.StatusColor | client/src/components/ProcessingStatus.tsx:62-73 | the muted colour exactly for pending |
| ProcessingStatus.IconAndColorAgree | client/src/components/ProcessingStatus.tsx:49-73 | icon and colour each determine the status |
| ProcessingStatus.CountComplete | client/src/components/ProcessingStatus.tsx:75 | between 0 and the step count; all steps iff every one is complete; 0 iff none is |
| ProcessingStatus.CountCompleteAppend | client/src/components/ProcessingStatus.tsx:75 | the count of a joined list is the sum of the counts |
| ProcessingStatus.CompletingAStepCountsIt | client/src/components/ProcessingStatus.tsx:75 | completing one more step adds exactly one |
| ProcessingStatus.RenderStep | client/src/components/ProcessingStatus.tsx:101-152 | the step's name, message, status icon and colour; the service badge iff a service is found, and then that classification; savings and the step's own duration only for complete steps that have them |
| ProcessingStatus.Render | client/src/components/ProcessingStatus.tsx:13-166 | nothing when hidden or empty; otherwise completed/total and one row per step in order |
| TrainingRecommendations.OrEmpty | client/src/components/TrainingRecommendations.tsx:30-35 | a missing list prop counts as empty |
| TrainingRecommendations.PriorityBadge | client/src/components/TrainingRecommendations.tsx:36-44 | the table's badge for a known priority, the medium badge for any other |
| TrainingRecommendations.RatingBadgeFor | client/src/components/TrainingRecommendations.tsx:46-54 | a badge exactly for the four known ratings, none for a missing or unknown one |
| TrainingRecommendations.RatingBadgesDistinct | client/src/components/TrainingRecommendations.tsx:47-52 | different ratings get different variants and texts |
| TrainingRecommendations.SeverityVariant | client/src/components/TrainingRecommendations.tsx:118 | critical red, moderate default, anything else secondary |
| TrainingRecommendations.AccentOf | client/src/components/TrainingRecommendations.tsx:136-145 | red for critical, orange for high, blue otherwise |
| TrainingRecommendations.AccentAgreesWithBadge | client/src/components/TrainingRecommendations.tsx:136-151 | red accent iff the destructive badge, orange iff the orange badge |
| TrainingRecommendations.UpperString | client/src/components/TrainingRecommendations.tsx:150 | upper-casing keeps the length and maps each character on its own |
| TrainingRecommendations.RenderRecommendation | client/src/components/TrainingRecommendations.tsx:135-186 | the row carries the recommendation; the priority decides badge, accent and upper-cased text; the resources, unchanged, shown iff there are some |
| TrainingRecommendations.Render | client/src/components/TrainingRecommendations.tsx:56-190 | nothing iff there are neither recommendations nor strengths; each list shown iff not empty; the strengths as given; one gap row per gap, in order, with its severity badge; one recommendation row per recommendation, in order |
| TrainingRecommendations.GapsDoNotDecideVisibility | client/src/components/TrainingRecommendations.tsx:56-58 | performance gaps never decide whether the section appears |

## Left out

- **Side effects as data.** `fetch`, `localStorage`, toasts, navigation, `window.location.href` and `setTimeout` are not performed. Server answers are parameters. The cache is the `IdentityStore` object. Notices, routes and the scheduled redirect are recorded in fields.
- **Concurrency.** The React scheduler and the interleaving of promises are not modelled. Each awaited answer is a separate method call in the order the caller chooses. `Auth.LateBackgroundAnswerAfterLogout` shows the one interleaving with a visible effect.
- **JSON.** Users are compared structurally where the code compares `JSON.stringify` output. `JSON.parse` failure is the `Corrupt` cache entry. A missing `data.user` is stored as text that will not parse back. The `JSON.stringify` fallback for insight objects is a parameter.
- **Charts.** `SentimentChart.tsx` and `RelevanceChart.tsx` are not part of this model. The data handed to them is.
- **Dashboard handlers.** The PDF/JSON download, sharing and scrolling handlers of `AnalysisDashboard.tsx` (lines 31-69 and 197-370) drive the DOM and are left out.
- **Number formatting.** `toFixed(1)` on card values and durations, the progress bar width, and the card value strings are not modelled. The cards carry the numbers.
- **Category key order.** `Object.entries` lists integer-like keys first. The model lists categories in order of first appearance, which matches for non-numeric category names.
- **Prototype keys.** Category, priority and rating names that collide with JavaScript object prototype keys (e.g. "constructor") are treated as ordinary strings.
- **Text handling.**
  - Case mapping covers ASCII letters only; for the allowed email domains this is exact.
  - String lengths count characters, not UTF-16 code units.
- **Numbers.** Scores are reals without NaN or infinities. `relevanceScore \|\| 0` is modelled as a score that is always present.
- ConversationAnalysis.BadgeText: scores are whole numbers, since the text prints them with integer formatting.
- ProcessingStatus.Status: only the four declared statuses are modelled; the `default` arms for other strings collapse into `Pending`.
- ConversationAnalysis.RenderAnswer: the contract does not restate the answer's timestamp or the match explanation text, which are taken over unchanged and built by `AnswerMatchExplanation`. The sentiment tooltip is rendered without a score, as the code does.
- **Presentation.** Icons, CSS classes and the `Math.random` particle styling are left out.
- **Category tooltips.** The `matchedSkills`/`missingSkills` and `yearsRequired`/`yearsCandidate` tooltip extras of the breakdown entries (`AnalysisDashboard.tsx:141-148`) are not modelled.
- **URL encoding.** The verification request (`ResetPassword.tsx:37`) puts the token and email into the query string without `encodeURIComponent`. The model sends the pair as values, so it does not capture how a token or email containing `&`, `#` or `=` would be mangled on the way.
- **Absent strings.** Optional strings that the code only ever reads through `||` are modelled as "" when absent.
