# ChronicleInk session, sign-in and dashboard logic in Dafny

ChronicleInk is a news platform with a React front end. This project models the
parts of that front end that carry logic rather than layout:

- **Session bootstrap** (`Session`). The auth-state callback, the bounded wait for
  a stored token, the user-record fetch and the merged user it publishes, the
  checking gate and sign-out.
- **Request interceptor** (`Api`). The API base URL and the bearer header added
  from the stored token.
- **Sign-in flows** (`Register`, `Login`, `SocialLogin`, with the shared call
  trace in `Flows`). The password and email regular expressions, and the order of
  the awaited steps. Which failures abort and which are tolerated. When the token
  is stored, the error texts and the redirect target.
- **Profile page** (`MyProfile`). The role badge, premium activity, the status
  label, the missing-date text and the member-days count.
- **Subscription page** (`Subscription`). The plan table, plan selection, the
  Subscribe gate and the checkout arguments.
- **Article submission** (`AddArticle`). The publisher list, the new article record, the loading
  flag and the form reset.
- **Admin tables** (`Pagination`, `ManageArticles`, `ManageUsers`). Page bounds
  and the disabled buttons, the moderation actions offered per article, the
  decline modal, the Make-Admin button and the avatar fallback.
- **Routing** (`Router`). Which layout, page and guard each location gets, and
  the NotFound fallback.
- **Profile editor** (`UpdateProfile`). The submit cycle of loading, error,
  success and editing, and the form reset from the user.

External services are not modelled. These are Firebase authentication, the
backend HTTP API, the image host and the payment form. Each awaited call becomes
a parameter carrying its outcome, which is either a value or an error. The async
flows are methods that take those outcomes and return the ordered trace of
external calls, toasts and navigations (`Flows.Call`). The browser's
`localStorage` is a class over a string map (`Browser.LocalStorage`). Each React
component with state is a class whose fields are its `useState` values.

Some behaviour of the code is easy to miss:

- The bootstrap callback performs no token exchange. The exchange happens only
  in the three sign-in flows.
- When the user-data fetch fails, the published user is left as it was. It is
  not cleared.
- Sign-out removes the stored token only when the provider sign-out succeeds.
- The route table has no admin or premium guard. The admin pages need only a
  signed-in user.

Two links elsewhere in the application point at paths the route table does not
contain: the profile page's edit button (`/update-profile`) and the home page's
subscription prompt (`/subscription`). `Router.DanglingLinksRenderNotFound`
shows that both render NotFound.

## Model

| member | source | states |
|---|---|---|
| Common.OrElse | src/utils/axiosInstance.js:5-7 | `a \|\| b` on a string: the value when it is present and non-empty, else the fallback |
| Common.ListOrEmpty | src/components/Dashboard/ManageArticles.jsx:26 | a list field falls back to [] only when it is missing |
| Common.IndexOf | src/pages/Register.jsx:257 | the first position of a character, or None exactly when it does not occur |
| Common.LastIndexOf | src/pages/Login.jsx:102 | the last position of a character, or None exactly when it does not occur |
| Api.BaseUrl | src/utils/axiosInstance.js:5-7 | the environment URL when it is set and non-empty, otherwise the fixed default; never empty |
| Api.InterceptedHeaders | src/utils/axiosInstance.js:12-15 | with a non-empty stored token, Authorization carries exactly that token as a bearer credential; without one, the headers are unchanged; no other header ever changes |
| Api.StoredTokenOverridesCallerHeader | src/pages/Login.jsx:31-39 | a stored token replaces an Authorization header the caller set itself |
| Api.Intercept | src/utils/axiosInstance.js:11-16 | returns the same config object, rewrites its headers as InterceptedHeaders says and changes nothing else |
| Api.OnRequestError | src/utils/axiosInstance.js:18-20 | a request-setup error becomes a rejection with that same error |
| Browser.LocalStorage.SetItem | src/pages/Register.jsx:138 | writing a key stores the value under it and leaves every other key as it was |
| Browser.LocalStorage.RemoveItem | src/context/AuthContext.jsx:32 | removing a key deletes it and leaves every other key as it was |
| Session.Merge | src/context/AuthContext.jsx:50-56 | role and premium flag come from the backend record; name, image, email, token and uid come from the provider user |
| Session.TriesFrom | src/context/AuthContext.jsx:59-66 | the wait resumed at try k ends between k and 20 tries |
| Session.WaitTries | src/context/AuthContext.jsx:60-65 | the wait ends after at most 20 tries |
| Session.TriesFromStopsAtFirstToken | src/context/AuthContext.jsx:62-64 | from try k, no token is stored before the wait stops, and an early stop means a token is present |
| Session.WaitStopsAtFirstToken | src/context/AuthContext.jsx:59-66 | at most 20 tries; no token was stored at any earlier try; stopping before 20 means a token is stored |
| Session.NoWriterKeepsInitial | src/context/AuthContext.jsx:62 | with no concurrent writer, storage still holds its initial token at every try |
| Session.WaitExhaustedWithoutWriter | src/context/AuthContext.jsx:60-65 | with no token and no writer, the wait uses all 20 tries |
| Session.AuthProvider.constructor | src/context/AuthContext.jsx:17-19 | initially there is no user, checking is on and children are not rendered |
| Session.AuthProvider.WaitForJwt | src/context/AuthContext.jsx:59-66 | the loop makes exactly WaitTries tries, ends with the token storage then holds and touches no other key |
| Session.AuthProvider.OnAuthStateChanged | src/context/AuthContext.jsx:47-90 | checking always ends; no provider user clears the user with no wait and no fetch; otherwise the wait runs WaitTries times and leaves the token StoredAfter says, touching no other key; the user-data request then goes out through the interceptor with the storage the wait left, so a wait that ends early sends exactly the token it found; a record publishes Merge, and a failed fetch keeps the previous user |
| Session.AuthProvider.UserSignOut | src/context/AuthContext.jsx:29-38 | the token is removed and success shown only when the provider sign-out succeeds; on failure storage is unchanged and an error is shown |
| Flows.RedirectTarget | src/pages/Login.jsx:48 | the navigation target is location.state when present and non-empty, else "/" |
| Register.LookaheadOnSingleLine | src/pages/Register.jsx:93 | on a line-terminator-free string, a `(?=.*[class])` lookahead succeeds exactly when some character is in the class |
| Register.PasswordPatternMeaning | src/pages/Register.jsx:92-93 | the password pattern accepts exactly the strings of at least 6 characters with no line terminator that contain an uppercase letter, a digit and one of the listed specials |
| Register.EmailPatternMeaning | src/pages/Register.jsx:257 | the email pattern matches exactly when the part before the first "@" is non-empty local characters, and after it a non-empty label runs up to the first ".", followed by a non-empty tail |
| Register.SplitIsAtFirstAt | src/pages/Register.jsx:257 | in any way the pattern splits an address, its "@" is the first "@" of the address |
| Register.SplitIsAtFirstDot | src/pages/Register.jsx:257 | in any way the pattern splits an address, its "." is the first "." after the "@"
| Register.OneLetterTopLevelDomainAccepted | src/pages/Register.jsx:257 | registration accepts a one-letter ending such as "a@b.c" |
| Register.ErrorTextMeaning | src/pages/Register.jsx:146-154 | a message containing "email-already-in-use" shows "Email already in use.", otherwise one containing "weak-password" shows the length hint, otherwise the message itself, or "Registration failed." when it is empty; the text is never empty |
| Register.DuplicateAccountText | src/pages/Register.jsx:148-149 | any message containing "email-already-in-use" shows "Email already in use." |
| Register.Trace | src/pages/Register.jsx:95-156 | every run starts with account creation and makes at least one more step |
| Register.OnlyTheTokenChanges | src/pages/Register.jsx:138 | storage gains the exchanged token exactly when the account, profile update and ID token succeed and the exchange succeeds; otherwise the token is as before; no other key changes |
| Register.ProceedsToRedirect | src/pages/Register.jsx:128-145 | once the account, profile update and ID token succeed, the run ends with navigation to the redirect target and a reload, whether or not the backend POST or the exchange failed |
| Register.AbortStopsEarly | src/pages/Register.jsx:95-156 | a thrown error ends the run with its mapped error toast, before any exchange, navigation or reload |
| Register.RegistrationPostedAfterProfileUpdate | src/pages/Register.jsx:104-120 | after a successful profile update, the backend registration is posted with the provider user's name, email, photo and uid as the update left them |
| Register.StoredProfileField | src/pages/Register.jsx:104-107 | the provider keeps an empty name or photo as null and any other value as it is |
| Register.RegistrationCarriesTheForm | src/pages/Register.jsx:104-120 | when the provider applies the update as documented, the posted registration carries the typed name and the image, null when none was given, with the created account's email and uid |
| Register.MissingUserStopsAtOnce | src/pages/Register.jsx:102 | a creation result without a user stops right after account creation with the mapped error |
| Register.Steps | src/pages/Register.jsx:95-156 | the calls of a submit are exactly Trace's, for every combination of outcomes |
| Register.OnSubmit | src/pages/Register.jsx:95-156 | the calls are Trace's and the storage afterwards is ItemsAfter's, whose properties the lemmas above state |
| Login.EmailPatternMeaning | src/pages/Login.jsx:102 | the email pattern matches exactly when the text before the first "@" is non-empty local characters, and after it a non-empty domain runs up to the last ".", followed by at least two letters |
| Login.TopLevelDomainHasTwoLetters | src/pages/Login.jsx:102 | every accepted email ends with "." and at least two letters |
| Login.OneLetterTopLevelDomainRejected | src/pages/Login.jsx:102 | sign-in rejects "a@b.c", which registration accepts |
| Login.PasswordOnlyRequired | src/pages/Login.jsx:140-142 | the sign-in password is accepted exactly when it is non-empty; a password registration refuses, such as "a", is accepted |
| Login.ExchangeAuthorization | src/pages/Login.jsx:31-39 | the exchange goes out with the stored token when one exists, else with the ID token |
| Login.Trace | src/pages/Login.jsx:21-52 | every run starts with the sign-in call and makes at least one more step |
| Login.OnlyTheTokenChanges | src/pages/Login.jsx:40 | storage gains the exchanged token exactly when sign-in, the ID token and the exchange succeed; otherwise the token is as before; no other key changes |
| Login.SignInFailureGoesNowhere | src/pages/Login.jsx:21-52 | a failed sign-in shows "Invalid email or password." and nothing else happens; storage is unchanged |
| Login.ExchangeThenLastLogin | src/pages/Login.jsx:28-45 | once signed in with an ID token, the third call is the exchange, the last-login PATCH follows it whatever its outcome, and there is no other exchange |
| Login.NavigatesExactlyOnSuccess | src/pages/Login.jsx:45-51 | navigation to the redirect target is the last call exactly when sign-in, the ID token and the last-login PATCH succeed; otherwise the run ends with "Invalid email or password." and never navigates |
| Login.OnSubmit | src/pages/Login.jsx:21-52 | the calls are Trace's, with the exchange header computed through the interceptor from the storage at the start, and the storage afterwards is ItemsAfter's |
| SocialLogin.NewUserInfo | src/components/SocialLogin.jsx:44-49 | a new user is registered with name displayName or "Anonymous", plus email, uid and photo |
| SocialLogin.Trace | src/components/SocialLogin.jsx:28-73 | every run starts with the popup and makes at least one more step |
| SocialLogin.OnlyTheTokenChanges | src/components/SocialLogin.jsx:66 | storage gains the exchanged token exactly when every step succeeds; otherwise the token is as before; no other key changes |
| SocialLogin.CheckPrecedesExchange | src/components/SocialLogin.jsx:37-65 | the existence check always comes before the token exchange |
| SocialLogin.ExistingUserPatchedNewUserRegistered | src/components/SocialLogin.jsx:43-57 | an existing user gets the last-login PATCH and is never registered; a new user is registered and never patched |
| SocialLogin.ReloadsExactlyOnSuccess | src/components/SocialLogin.jsx:59-72 | the run ends with "Successfully logged in" and a reload exactly when every step succeeds; otherwise it ends with "Login failed" and never reloads |
| SocialLogin.HandleGoogleLogin | src/components/SocialLogin.jsx:28-73 | the calls are Trace's and the storage afterwards is ItemsAfter's |
| MyProfile.RoleConfigFor | src/pages/MyProfile.jsx:52-91 | "premium" gives "Premium User", "admin" gives "Administrator", and every other value, missing included, gives "Standard User" |
| MyProfile.IsPremiumActive | src/pages/MyProfile.jsx:93-97 | false without an expiry or without the premium role; otherwise exactly expiry > now |
| MyProfile.PremiumExpiresOnce | src/pages/MyProfile.jsx:96 | once premium is inactive it stays inactive at every later time |
| MyProfile.StatusLabelMeaning | src/pages/MyProfile.jsx:521-523 | the status reads "Premium Active" exactly when premium is active, and "Standard" otherwise |
| MyProfile.FormatDate | src/pages/MyProfile.jsx:41-50 | "Not available" exactly for a missing date; otherwise the date itself is formatted |
| MyProfile.MemberDays | src/pages/MyProfile.jsx:486-491 | 0 without a creation time; otherwise the floor of the elapsed milliseconds divided by a day |
| MyProfile.MemberDaysMonotone | src/pages/MyProfile.jsx:487-490 | the member-days count never decreases as time passes |
| Subscription.FindIn | src/pages/Subscription.jsx:37-39 | finds a plan with the value in the list, or None exactly when no plan has it |
| Subscription.FindPlanIsUnique | src/pages/Subscription.jsx:4-8 | every listed plan is the one found for its value |
| Subscription.SubscriptionPage.constructor | src/pages/Subscription.jsx:11-14 | initially no plan, price 0 and checkout closed |
| Subscription.SubscriptionPage.Select | src/pages/Subscription.jsx:36-44 | a listed value selects that plan and its price; any other value, "" included, leaves plan and price unchanged |
| Subscription.SubscriptionPage.Subscribe | src/pages/Subscription.jsx:57-61 | checkout opens only when a plan is selected |
| Subscription.SubscriptionPage.Checkout | src/pages/Subscription.jsx:72-79 | checkout is shown exactly when open, with amount equal to the selected plan's price and that plan's duration and unit |
| Subscription.SubscriptionPage.CloseCheckout | src/pages/Subscription.jsx:74 | the checkout's close call hides it and keeps the selected plan and price |
| AddArticle.Publishers | src/pages/AddArticle.jsx:21-28 | the select lists the fetched publishers once the query resolves with a body, and no publisher before that or when the body is null |
| AddArticle.PublisherChoices | src/pages/AddArticle.jsx:123-128 | the choices are the "" placeholder followed by each publisher's name, in list order |
| AddArticle.NoListOnlyPlaceholder | src/pages/AddArticle.jsx:21-28 | without a fetched list the placeholder is the only choice |
| AddArticle.TagValues | src/pages/AddArticle.jsx:60 | the tag values of the selected options, in selection order |
| AddArticle.NewArticle | src/pages/AddArticle.jsx:56-68 | a new article is Pending, not premium and unviewed, carries the uploaded image, the selected tag values and the signed-in user as author |
| AddArticle.AddArticleForm.OnSubmit | src/pages/AddArticle.jsx:42-79 | an article is posted only after a successful upload with a user, and it is NewArticle of the form; the form resets and the success toast shows only when the post succeeds, any other path shows the failure toast; loading is off at the end |
| Pagination.TotalPages | src/components/Dashboard/ManageArticles.jsx:27 | the page count is at least 1: a missing or zero count becomes 1 |
| Pagination.PrevPage | src/components/Dashboard/ManageArticles.jsx:170 | Prev moves back one page but never below page 1 |
| Pagination.NextPage | src/components/Dashboard/ManageArticles.jsx:190 | Next moves forward one page but never beyond the last page |
| Pagination.PageButtons | src/components/Dashboard/ManageArticles.jsx:177-187 | one numbered button per page, the button at position idx setting page idx + 1 |
| Pagination.ButtonsKeepPageInBounds | src/components/Dashboard/ManageUsers.jsx:85-105 | from a page in bounds, Prev, Next and every numbered button keep 1 <= page <= total |
| Pagination.DisabledExactlyWhenNoMove | src/components/Dashboard/ManageArticles.jsx:171-191 | within bounds, Prev is disabled exactly when it would not move, and so is Next |
| Pagination.NextRecoversFromStalePage | src/components/Dashboard/ManageArticles.jsx:190-191 | a page beyond a smaller new count leaves Next enabled, and Next returns to the last page |
| Pagination.Pager.constructor | src/components/Dashboard/ManageArticles.jsx:12 | the table starts on page 1 |
| Pagination.Pager.ClickPrev | src/components/Dashboard/ManageUsers.jsx:85 | Prev sets the page to PrevPage, which is at least 1 |
| Pagination.Pager.ClickNext | src/components/Dashboard/ManageUsers.jsx:105 | Next sets the page to NextPage, which is in bounds when the page was at least 1 |
| Pagination.Pager.ClickPage | src/components/Dashboard/ManageUsers.jsx:92-101 | a numbered button sets its label as the page, which is in bounds |
| ManageArticles.ActionsFor | src/components/Dashboard/ManageArticles.jsx:119-160 | Approve is offered exactly when the status is not "Approved", Decline exactly when it is not "Declined", Make Premium exactly when the article is not premium, and Delete always |
| ManageArticles.SomeVerdictAlwaysOffered | src/components/Dashboard/ManageArticles.jsx:119-142 | every row offers Approve or Decline, and a pending article offers both |
| ManageArticles.ArticlesTable.constructor | src/components/Dashboard/ManageArticles.jsx:10-12 | page 1, no decline target, empty reason, modal closed |
| ManageArticles.ArticlesTable.OpenDecline | src/components/Dashboard/ManageArticles.jsx:137 | Decline opens the modal for that article's id |
| ManageArticles.ArticlesTable.EditReason | src/components/Dashboard/ManageArticles.jsx:208 | typing sets the reason and leaves the modal as it is |
| ManageArticles.ArticlesTable.Cancel | src/components/Dashboard/ManageArticles.jsx:212 | Cancel closes the modal and keeps the reason |
| ManageArticles.ArticlesTable.SubmitDecline | src/components/Dashboard/ManageArticles.jsx:40-53 | sends the open id with the reason; success closes the modal, failure keeps it open; the reason is never cleared |
| ManageUsers.AvatarSrc | src/components/Dashboard/ManageUsers.jsx:62 | the user's image when present and non-empty, else "/placeholder.jpg" |
| ManageUsers.MakeAdminOfferedExactlyToNonAdmins | src/components/Dashboard/ManageUsers.jsx:70-76 | Make Admin is offered exactly when the role is not "admin", missing or other roles included; granting admin removes it |
| Router.FirstMatch | src/Routes/Router.jsx:23-134 | the first route matching the path, or None exactly when no route matches |
| Router.ResolveMeaning | src/Routes/Router.jsx:23-134 | a location renders the view of a route that matches it, and NotFound exactly when no route matches |
| Router.DisjointPatternsShareNoPath | src/Routes/Router.jsx:23-134 | patterns of different length, or with different literals at one position, match no common path |
| Router.RoutesPairwiseDisjoint | src/Routes/Router.jsx:23-134 | no two routes of the table can match the same path |
| Router.ResolveIsTheOnlyMatch | src/Routes/Router.jsx:23-134 | whatever route matches a path is the one rendered |
| Router.RouteOf | src/Routes/Router.jsx:23-132 | any view other than NotFound comes from a route matching the path |
| Router.ProtectedRoute | src/Routes/Router.jsx:53-130 | each protected path has a route that matches it and is guarded by PrivateRoute |
| Router.ProtectedIndex | src/Routes/Router.jsx:53-130 | each PrivateRoute-guarded route matches only its own protected path |
| Router.ViewsOfTheTable | src/Routes/Router.jsx:23-132 | no route of the table renders the NotFound page, and only the /login and /register routes are guest-only |
| Router.GuestOnlyExactlyLoginAndRegister | src/Routes/Router.jsx:31-46 | the guest-only guard applies exactly to /login and /register |
| Router.AuthenticatedExactlyProtectedPaths | src/Routes/Router.jsx:53-130 | the sign-in guard applies exactly to the five /user pages and the four /admin pages; no guard checks a role |
| Router.OpenPages | src/Routes/Router.jsx:28-30 | the home page, /all-articles and /article/:id are unguarded |
| Router.NotFoundExactlyWhenUnmatched | src/Routes/Router.jsx:133 | NotFound renders exactly for paths no route matches |
| Router.OneSegmentPatterns | src/Routes/Router.jsx:23-132 | every one-segment pattern of the table is a literal naming one of the listed top-level paths |
| Router.SingleSegmentUnmatched | src/Routes/Router.jsx:133 | a one-segment path that is not a listed top-level path renders NotFound |
| Router.DanglingLinksRenderNotFound | src/pages/MyProfile.jsx:422 | /update-profile and /subscription render NotFound |
| UpdateProfile.FormFor | src/pages/UpdateProfile.jsx:22-38 | the form takes name and email from a present user, "" for missing fields, and an always-empty website |
| UpdateProfile.ErrorText | src/pages/UpdateProfile.jsx:53 | the error message when it is non-empty, else "Failed to update profile" |
| UpdateProfile.ProfileEditor.constructor | src/pages/UpdateProfile.jsx:12-28 | not editing, not loading, no messages, form from the user |
| UpdateProfile.ProfileEditor.OnUserChanged | src/pages/UpdateProfile.jsx:30-38 | a present user resets the form from it; an absent user leaves the form alone |
| UpdateProfile.ProfileEditor.StartEdit | src/pages/UpdateProfile.jsx:79 | Edit Profile enters editing, and a success message left from before shows again |
| UpdateProfile.ProfileEditor.Cancel | src/pages/UpdateProfile.jsx:87 | Cancel leaves editing and keeps the typed values |
| UpdateProfile.ProfileEditor.Edit | src/pages/UpdateProfile.jsx:137-172 | typing replaces the name and the website; the disabled email never changes |
| UpdateProfile.ProfileEditor.Submit | src/pages/UpdateProfile.jsx:40-57 | a non-empty website the browser does not accept as a URL, or an empty name, blocks the submit: nothing is sent or changed; otherwise name and website, never email, are sent with both messages cleared; success sets the success text and leaves editing, failure sets the error text and stays editing; loading ends off |

## Left out

- Firebase, the backend HTTP API, the image host and the payment form are not
  modelled. Each awaited call is a parameter carrying its outcome, and each flow
  records the calls it makes in order.
- Time is not modelled. The 100 ms sleep of the token wait is a count of tries.
  Other tasks' writes to storage during the sleeps are the `writes` parameter.
  The current time for premium and member days is an integer millisecond
  parameter.
- Concurrency is not modelled: overlapping auth callbacks, React's render
  scheduling, and clicks while a request is outstanding.
- Locale formatting of dates (`toLocaleString`) is left out. A present date is
  kept as its timestamp.
- The `loading` flag of the article form and the profile editor is set before
  the awaited requests and cleared after them. The awaits are parameters here,
  so the model does not show the flag's value while a request is in flight.
- The browser's URL check on the profile website is a parameter of
  `UpdateProfile.ProfileEditor.Submit`, not a URL grammar.
- `updateUserProfile`'s effect on the provider profile is not modelled. The
  profile editor passes it a single object where it expects a name and an image.
- `createUser` and `signInUser` only forward their arguments to the provider.
  They are the CreateAccount and SignIn calls of the trace.
- The approve, delete and make-premium handlers of the article table and the
  make-admin handler of the user table are left out. Each one makes a single
  request, then shows a toast and refetches.
- Query refetching and `keepPreviousData` are not modelled. The page count is a
  parameter of Next and of the numbered buttons.
- Strings are sequences of characters. JavaScript's UTF-16 code units are not
  modelled.
- Route matching takes the path already split into segments. Case-insensitive
  matching, trailing slashes and URL decoding are not modelled.
- Pagination.TotalPages: the reported page count is taken as a natural number.
  A negative count from the server is not modelled.
- Session.AuthProvider.WaitForJwt: another task may remove the token during the
  wait. The model treats a removal like a write of an empty value, which is
  falsy in the same way.
