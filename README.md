# BidTun client core in Dafny

This project models the client-side core of BidTun, an online auction site, and proves
properties of the model. BidTun's client is a React single-page application. The model covers:

- **The authenticated request gateway** (`setupAxiosInterceptors`). It keeps a mirror of the
  store's `user` and `guestUser`. It decorates every request with either a bearer token or a
  guest id, and recovers from a `401` by refreshing the token once and replaying the request.
  When the refresh fails, it signs the user out and goes to `/login`.
- **The reducers of the Redux slices**: `auth`, `general` and `language`. Each slice is a pure
  `Reduce` function plus a store class. The class's dispatch method is proved to move its
  fields exactly as `Reduce` does.
- **The auction pages and cards**:
  - ListingDetails, CardListing and Cards1: the countdown text, the image carousel, bid
    validation, autobid, the watchlist heart and bid-button enablement;
  - ActiveListings: the filter chain, maximum price, `mm/dd/yyyy` date parsing and pagination.
- **The forms**:
  - SignUp validation, including the email regular expression, and the submit rule;
  - the Login empty-field guard and redirect;
  - the profile form on the user dashboard;
  - the create/edit listing payload.
- **The admin pages**: deleting a row on the dashboard, and the listing and user filters.
- **The notification panels** of the header and of the notifications page.

Each module follows one source file, plus some shared modules:

- `Common`: JavaScript truthiness, the form-value model, a generic order-preserving `Filter`
  with its subsequence lemmas, lower-casing, JavaScript white space and substring search.
- `Countdown`: the `DD:HH:MM:SS` formatter, shared by the three components that show it.
- `Carousel`: the wrap-around image index.

Components with `useState` hooks are classes whose fields are those hooks. Their handlers are
methods. Anything asynchronous becomes a parameter of the handler that sees its result: a
server reply, a refresh result, whether a request succeeded. What a handler sends out is
returned to the caller as a value or an event log: a navigation target, a request payload, a
guest id to store.

## Model

| member | source | states |
|---|---|---|
| Gateway.Gateway.constructor | src/features/interceptors.js:5-14 | the mirror starts with the store's `user`/`guestUser` and follows the store while subscribed |
| Gateway.Gateway.Dispatch | src/features/interceptors.js:9-14 | a dispatch runs the auth reducer; while subscribed, the mirror then equals the store's new `user`/`guestUser`, so the mirror invariant is kept |
| Gateway.Gateway.Unsubscribe | src/features/interceptors.js:71-73 | after cleanup the mirror stops following the store; nothing else changes |
| Gateway.IdentityHeaders | src/features/interceptors.js:17-28 | with an access token, `Authorization: Bearer <token>` is set and nothing else changes; without one, a guest id sets only `guestUserId`; with neither, the headers are unchanged |
| Gateway.OneIdentityHeader | src/features/interceptors.js:19-27 | the request hook never changes headers other than `Authorization` and `guestUserId`, and adds a guest header only when there is no token |
| Gateway.IdentityHeadersIdempotent | src/features/interceptors.js:17-28 | decorating an already decorated request with the same mirror changes nothing |
| Gateway.ReplayKeepsNewToken | src/features/interceptors.js:56-57 | a replay whose `Authorization` was set to the refreshed token still carries it after the request hook runs again |
| Gateway.Gateway.Decorate | src/features/interceptors.js:17-28 | the request hook rewrites the config's headers as `IdentityHeaders` of the live mirror and leaves `_retry` alone |
| Gateway.AccessOf | src/features/interceptors.js:19 | `user?.access` is a value only of a present user |
| Gateway.RefreshOf | src/features/interceptors.js:48-50 | `user?.refresh`, the body of the refresh request, is a value only of a present user |
| Gateway.GuestIdOf | src/features/interceptors.js:20 | `guestUser?.id` is a value only of a present guest |
| Gateway.NoRefreshes | src/features/interceptors.js:48-50 | an event log counts no refresh exactly when none of its entries is a refresh request |
| Gateway.RefreshesAppend | src/features/interceptors.js:48-50 | refresh counts add up over concatenated logs |
| Gateway.Gateway.SignOut | src/features/interceptors.js:58-63 | on refresh failure the store's user becomes null, `/login` is navigated to once, and the call is rejected with the given reason |
| Gateway.Gateway.Replay | src/features/interceptors.js:56-57 | the replay passes through the request hook, is sent once with those headers, and settles as its reply does; the store is untouched |
| Gateway.Gateway.OnRejected | src/features/interceptors.js:37-68 | errors without config or response, other than 401, or already retried are rejected unchanged with no refresh; a recoverable 401 sets `_retry`, sends exactly one refresh carrying `user.refresh`, then either stores the refreshed user and replays with `Bearer <data.access>`, or clears the user, navigates to `/login` and rejects with the refresh error |
| Gateway.RefreshedUser | src/features/interceptors.js:52-53 | the user stored after a refresh has the new tokens and the `sub` of the decoded access token as id |
| Gateway.RefreshFailure | src/features/interceptors.js:58-63 | a rejected refresh call rejects with its own reason; a refresh the reducer cannot store rejects with the reducer's error |
| Gateway.ReplayOutcome | src/features/interceptors.js:56-57 | a replayed request resolves iff its reply is 2xx, else it rejects with the replay's config and response |
| Gateway.RequestConfig.constructor | src/features/interceptors.js:42-46 | a new request config has its headers and `_retry` false |
| AuthSlice.InitialUser | src/features/auth/authSlice.js:6-21 | a stored access token that is truthy and decodes yields `{id: sub, access, refresh: stored refresh}`; otherwise the user is null |
| AuthSlice.InitialState | src/features/auth/authSlice.js:24-33 | the initial state holds that user, no guest, no profile, all flags false and an empty message |
| AuthSlice.Reduce | src/features/auth/authSlice.js:118-216 | a case throws exactly when `refreshToken` has no access token that decodes or the login token does not decode; only login/logout touch storage, only the guest reducers touch `guestUser`, only `getProfile` touches `profile`, only `reset` touches `otpResent` |
| AuthSlice.ResetClearsStatus | src/features/auth/authSlice.js:122-128 | `reset` clears the four flags and the message and keeps user, guest, profile and storage |
| AuthSlice.ResetIdempotent | src/features/auth/authSlice.js:122-128 | resetting twice equals resetting once |
| AuthSlice.RefreshTokenSetsSub | src/features/auth/authSlice.js:129-133 | `refreshToken` stores the payload with `id` the decoded `sub` and changes nothing else |
| AuthSlice.UserAndGuestReducers | src/features/auth/authSlice.js:134-145 | `resetUser` clears only `user`; `updateGuestUser`/`resetGuestUser` set or clear only `guestUser` |
| AuthSlice.LoginStoresTokens | src/features/auth/authSlice.js:161-179 | `login.fulfilled` stores both tokens in storage and in the user, sets the id to the decoded `sub`, and sets success |
| AuthSlice.LoginRejectedClearsUser | src/features/auth/authSlice.js:180-185 | `login.rejected` clears the user, sets `isError` and stores the message |
| AuthSlice.LogoutClearsTokens | src/features/auth/authSlice.js:186-196 | `logout.fulfilled` clears the user and removes both tokens keeping other keys; `logout.rejected` clears the user and leaves storage alone |
| AuthSlice.LoginThenLogout | src/features/auth/authSlice.js:161-196 | logging in then out leaves no user and no stored token |
| AuthSlice.LoginSurvivesReload | src/features/auth/authSlice.js:6-21 | the state after a login, re-read from storage at start-up, yields the same user id and tokens |
| AuthSlice.RegisterAndProfileStore | src/features/auth/authSlice.js:149-160 | `register.fulfilled` stores `payload.data` as user and the message; `getProfile.fulfilled` stores the profile |
| AuthSlice.AuthStore.constructor | src/features/auth/authSlice.js:24-33 | the store starts in the initial state for its storage |
| AuthSlice.AuthStore.Dispatch | src/features/auth/authSlice.js:118-216 | a dispatch that does not throw moves the store to `Reduce` of its old state; one that throws changes nothing |
| GeneralSlice.InitialState | src/features/general/generalSlice.js:5-13 | no site details, no reviews, all flags false, empty message |
| GeneralSlice.Reduce | src/features/general/generalSlice.js:55-114 | only the fulfilled cases change their own data; subscribe cases never touch `isLoading`; only subscribe cases and reset touch `subscriptionLoading`; only reset and the three rejected cases change `isError`, and each rejected case sets it |
| GeneralSlice.ResetKeepsData | src/features/general/generalSlice.js:59-65 | `reset` clears the four flags and the message and keeps sitedetails and reviews |
| GeneralSlice.SubscribeMessage | src/features/general/generalSlice.js:100-107 | subscribe pending sets only `subscriptionLoading`; fulfilled stores `payload.message` or `Subscription successful` |
| GeneralSlice.RejectedCases | src/features/general/generalSlice.js:78-112 | each rejected case sets `isError`, stores the message and clears its own loading flag |
| GeneralSlice.GeneralStore.constructor | src/features/general/generalSlice.js:5-13 | the store starts in the initial state |
| GeneralSlice.GeneralStore.Dispatch | src/features/general/generalSlice.js:55-114 | a dispatch moves the store to `Reduce` of its old state |
| LanguageSlice.InitialLanguage | src/features/language/languageSlice.js:5 | the stored `preferredLanguage` when it is non-empty, else `FR` |
| LanguageSlice.LanguageAfter | src/features/language/languageSlice.js:12-15 | after `setLanguage` the current language is the payload, storage holds it under `preferredLanguage`, and no other key changes |
| LanguageSlice.SetLanguageIdempotent | src/features/language/languageSlice.js:12-15 | setting the same language twice equals setting it once |
| LanguageSlice.SetLanguageSurvivesReload | src/features/language/languageSlice.js:5-15 | a page load after `setLanguage(x)` starts with `x`, or `FR` for an empty `x` |
| LanguageSlice.LanguageStore.constructor | src/features/language/languageSlice.js:5 | the store starts from the stored preference |
| LanguageSlice.LanguageStore.SetLanguage | src/features/language/languageSlice.js:12-15 | the store moves as `LanguageAfter` says |
| Countdown.Components | src/pages/general/ListingDetails.jsx:92-95 | the days/hours/minutes/seconds fields have hours < 24 and minutes, seconds < 60, and recompose the whole seconds of `diff` |
| Countdown.FormatClosedIff | src/pages/general/ListingDetails.jsx:88-96 | the countdown reads `Closed` iff the listing is inactive or `diff <= 0` |
| Countdown.FormatLayout | src/pages/general/ListingDetails.jsx:92-96 | otherwise it is `DD:HH:MM:SS`, each field at least two digits and reading back as the computed component |
| Countdown.FieldValue | src/pages/general/ListingDetails.jsx:92-95 | `String(n).padStart(2, '0')` is all digits, two characters for n < 100, and reads back as n |
| Countdown.DecimalRoundTrip | src/pages/general/ListingDetails.jsx:92-95 | the decimal text of a number reads back as that number |
| Carousel.Prev | src/pages/general/ListingDetails.jsx:105-109 | prev from 0 wraps to count-1, otherwise decrements, and stays in range |
| Carousel.Next | src/pages/general/ListingDetails.jsx:111-115 | next from count-1 wraps to 0, otherwise increments, and stays in range |
| Carousel.PrevNextInverse | src/pages/general/ListingDetails.jsx:105-115 | next after prev, and prev after next, return the original index |
| Carousel.NextNOffset | src/pages/general/ListingDetails.jsx:111-115 | n clicks of next land on `(i + n) % count` |
| Carousel.NextCycle | src/pages/general/ListingDetails.jsx:111-115 | count clicks of next return to the start |
| Carousel.NextReaches | src/pages/general/ListingDetails.jsx:111-115 | every image can be reached from every other by next clicks |
| ListingDetails.Images | src/pages/general/ListingDetails.jsx:202-204 | a non-empty `images` array is used as is; otherwise the single truthy `image`, or nothing |
| ListingDetails.ImageCount | src/pages/general/ListingDetails.jsx:105-115 | the carousel count is the number of images, or 1 when there are none |
| ListingDetails.MinBid | src/pages/general/ListingDetails.jsx:155 | `highestBid + 1` when a highest bid is set, else the listing price |
| ListingDetails.AmountToSubmit | src/pages/general/ListingDetails.jsx:153-154 | the amount when it is non-zero, else the autobid amount |
| ListingDetails.PlaceBidDecision | src/pages/general/ListingDetails.jsx:145-180 | signed-out goes to login; no amount and no autobid is refused; a submitted amount is non-zero, is the chosen one and exceeds `minBid`; a refused amount is at most `minBid` |
| ListingDetails.SubmitIffAboveMinimum | src/pages/general/ListingDetails.jsx:163-166 | for a signed-in user with a defined minimum, a non-zero amount is submitted iff it exceeds the minimum |
| ListingDetails.AutobidSubmittedWhenNoAmount | src/pages/general/ListingDetails.jsx:153-162 | with no bid amount, a non-zero autobid amount is what is checked and submitted |
| ListingDetails.NextBidMustExceed | src/pages/general/ListingDetails.jsx:155-175 | after a bid of b is accepted, the next bid goes through iff it exceeds b + 1 |
| ListingDetails.AutobidDecision | src/pages/general/ListingDetails.jsx:118-132 | autobid activates iff threshold > 0 and increment > 0; an invalid threshold is reported first |
| ListingDetails.TickActiveIff | src/pages/general/ListingDetails.jsx:88-96 | after a tick the auction counts as active (`isAuctionActive`, line 206) iff the listing is active and `diff > 0` |
| ListingDetails.PlaceBidDisabled | src/pages/general/ListingDetails.jsx:405-409 | the bid button is enabled iff the auction is active, the user is not the auctioneer and no bid is loading |
| ListingDetails.ListingPage.constructor | src/pages/general/ListingDetails.jsx:39-45 | empty amounts, autobid off, index 0; the highest bid is the listing's highest bid or its price (line 75) |
| ListingDetails.ListingPage.Tick | src/pages/general/ListingDetails.jsx:84-98 | a tick writes the formatted countdown and stops the timer exactly when it reads `Closed` |
| ListingDetails.ListingPage.HandlePrevImage | src/pages/general/ListingDetails.jsx:105-109 | the index moves to `Prev` over the image count |
| ListingDetails.ListingPage.HandleNextImage | src/pages/general/ListingDetails.jsx:111-115 | the index moves to `Next` over the image count |
| ListingDetails.ListingPage.HandleAutobidSubmit | src/pages/general/ListingDetails.jsx:118-132 | on activation autobid is on with the threshold as amount and the modal closed; otherwise nothing changes |
| ListingDetails.ListingPage.ToggleAutobid | src/pages/general/ListingDetails.jsx:135-142 | turning autobid off clears its amount; turning it on opens the modal instead |
| ListingDetails.ListingPage.HandlePlaceBid | src/pages/general/ListingDetails.jsx:145-166 | the decision is `PlaceBidDecision` of the page state, and a bid starts loading only when one is submitted |
| ListingDetails.ListingPage.OnBidSettled | src/pages/general/ListingDetails.jsx:168-179 | a successful bid becomes the highest bid, clears the amount and keeps the autobid threshold captured at submit only if autobid was on at submit; a failure changes only the loading flag |
| CardListing.InitialHeart | src/components/CardListing.jsx:90 | the heart starts red iff the listing is on the watchlist |
| CardListing.HeartAfter | src/components/CardListing.jsx:135-146 | after a successful call the heart is red iff the message contains `added`; a failed call leaves it |
| CardListing.GuestToStore | src/components/CardListing.jsx:141-142 | a guest id is stored iff the call succeeded and the response carries a truthy `guestuser_id` |
| CardListing.FailuresKeepHeart | src/components/CardListing.jsx:135-146 | a run of failed calls leaves the heart as it was |
| CardListing.HeartFollowsLastSuccess | src/components/CardListing.jsx:135-146 | after any run of calls, the heart reflects the message of the last successful one |
| CardListing.BidButtonDisabled | src/components/CardListing.jsx:340-343 | the button is disabled iff the user is the auctioneer or the listing is inactive |
| CardListing.OnBidClick | src/components/CardListing.jsx:340-343 | a click opens the bid modal iff there is an access token, otherwise it goes to login |
| CardListing.SignedOutGoesToLogin | src/components/CardListing.jsx:340-343 | a signed-out visitor sees an enabled button on an active listing and is sent to login |
| CardListing.Card.constructor | src/components/CardListing.jsx:56-61 | the card starts with no amount, no highest bid, index 0 and the watchlist heart of line 90 |
| CardListing.Card.ShownHighestBid | src/components/CardListing.jsx:370 | the modal shows the local highest bid when set, else the listing's |
| CardListing.Card.Tick | src/components/CardListing.jsx:99-124 | a tick writes the formatted countdown and stops exactly when it reads `Closed` |
| CardListing.Card.HandlePrevImage | src/components/CardListing.jsx:75-80 | the index wraps back over the images and stays in range; the arrows exist only for more than one image (line 228) |
| CardListing.Card.HandleNextImage | src/components/CardListing.jsx:82-87 | the index wraps forward over the images and stays in range; the arrows exist only for more than one image (line 228) |
| CardListing.Card.HandleWatchlist | src/components/CardListing.jsx:129-148 | the heart moves as `HeartAfter`, the guest id to store is `GuestToStore`, and the watchlist row is removed iff a removal succeeded on the watchlist page |
| CardListing.Card.HandleBidClick | src/components/CardListing.jsx:340-343 | the click outcome is `OnBidClick` and the modal opens only for it |
| CardListing.Card.SubmitBid | src/components/CardListing.jsx:150-165 | success sets the highest bid to the submitted amount, clears the input and closes the modal; failure changes only the loading flag |
| Cards1.CompactCard.constructor | src/components/Cards1.jsx:43-47 | the card starts with no amount and no highest bid, and the heart is red iff the listing is watched (line 61) |
| Cards1.CompactCard.Tick | src/components/Cards1.jsx:68-82 | a tick writes the formatted countdown and stops exactly when it reads `Closed` |
| Cards1.CompactCard.HandleWatchlist | src/components/Cards1.jsx:87-102 | the heart follows the message of a successful call, and a guest id is stored only when the response carries one |
| Cards1.CompactCard.HandleBidClick | src/components/Cards1.jsx:201-202 | without an access token the click goes to login, otherwise it opens the modal |
| Cards1.CompactCard.SubmitBid | src/components/Cards1.jsx:104-119 | success stores the amount as highest bid and clears the input; failure changes only the loading flag |
| ActiveListings.MaxOfPrices | src/pages/general/ActiveListings.jsx:56 | the maximum is an upper bound of every price (absent ones as 0) and is attained |
| ActiveListings.MaxPrice | src/pages/general/ActiveListings.jsx:54-57 | 1000 for no listings, otherwise the maximum price |
| ActiveListings.SplitSlash | src/pages/general/ActiveListings.jsx:66 | splitting on `/` always yields at least one part |
| ActiveListings.SplitNoSlash | src/pages/general/ActiveListings.jsx:66 | a text without `/` splits into itself |
| ActiveListings.SplitJoin | src/pages/general/ActiveListings.jsx:66 | splitting `a/b` yields `a` followed by the parts of `b` |
| ActiveListings.NumberOf | src/pages/general/ActiveListings.jsx:67 | `Number` of a blank part (empty or white space only) is 0 |
| ActiveListings.TrimPadded | src/pages/general/ActiveListings.jsx:67 | `Number` drops exactly the white space around the text and keeps the text whole |
| ActiveListings.NumberOfPadded | src/pages/general/ActiveListings.jsx:67 | digits with white space around them read as their decimal value |
| ActiveListings.NumberOfDigits | src/pages/general/ActiveListings.jsx:67 | bare digits read as their decimal value, `''` as 0 |
| ActiveListings.NumberOfSigned | src/pages/general/ActiveListings.jsx:67 | `-d` reads as minus the value of `d`, `+d` as the value |
| ActiveListings.NumberOfLoneSign | src/pages/general/ActiveListings.jsx:67 | a lone `+` or `-` is NaN |
| ActiveListings.NumberOfTrailingJunk | src/pages/general/ActiveListings.jsx:67 | digits followed by a character that is neither a digit nor white space are NaN |
| ActiveListings.MakeDate | src/pages/general/ActiveListings.jsx:67-68 | a date exists only when year, month and day are numbers, and lies within the JavaScript time range |
| ActiveListings.ParseDate | src/pages/general/ActiveListings.jsx:65-69 | an empty text gives no date, any other text a date value |
| ActiveListings.ParseDateFields | src/pages/general/ActiveListings.jsx:65-69 | `mm/dd/yyyy` of digits becomes the local date with year `yyyy`, month `mm - 1` and day `dd` |
| ActiveListings.NoSlashInDigits | src/pages/general/ActiveListings.jsx:66 | a digit run contains no `/` |
| ActiveListings.OptionalStep | src/pages/general/ActiveListings.jsx:74-101 | a filter step that can be switched off is one filter whose predicate holds when it is off |
| ActiveListings.FilterThen | src/pages/general/ActiveListings.jsx:74-101 | adding an optional step after a filter is one filter on the conjunction |
| ActiveListings.BySearchIsFilter | src/pages/general/ActiveListings.jsx:74-81 | the search step is one filter |
| ActiveListings.ByCategoryIsFilter | src/pages/general/ActiveListings.jsx:82-86 | search then category is one filter on both conditions |
| ActiveListings.ByPriceIsFilter | src/pages/general/ActiveListings.jsx:87-90 | with the always-applied price step it is one filter on all three |
| ActiveListings.ChainIsOneFilter | src/pages/general/ActiveListings.jsx:72-103 | the whole chain is one filter on the conjunction of the four steps |
| ActiveListings.FilteredListingsSpec | src/pages/general/ActiveListings.jsx:72-103 | the shown listings are an order-preserving subsequence, and a listing is shown iff it passes every step |
| ActiveListings.KeptListing | src/pages/general/ActiveListings.jsx:74-101 | a shown listing contains the search term case-insensitively, has the selected category, is within the inclusive price range and within each set date bound |
| ActiveListings.DefaultQueryShowsPriced | src/pages/general/ActiveListings.jsx:72-103 | with the initial query (price range `[0, maxPrice]` set at lines 59-62), a listing is shown iff its price lies in `[0, maxPrice]` |
| ActiveListings.AsWrittenDateFilterDropsAll | src/pages/general/ActiveListings.jsx:91-101 | the chain as written, with a date bound set, drops every listing that has no `endDate` |
| ActiveListings.BoundsInclusive | src/pages/general/ActiveListings.jsx:91-101 | a listing closing exactly on both bounds is kept |
| ActiveListings.OneSidedBound | src/pages/general/ActiveListings.jsx:91-101 | each bound is optional: with one bound empty only the other applies |
| ActiveListings.TotalPages | src/pages/general/ActiveListings.jsx:106 | `ceil(n / 9)`: the pages cover n items and the last page is not empty |
| ActiveListings.Slice | src/pages/general/ActiveListings.jsx:108-111 | `slice` clamps its end to the length |
| ActiveListings.Page | src/pages/general/ActiveListings.jsx:106-111 | page p holds the items from `(p-1)*9`, at most 9 of them, and is empty past the end |
| ActiveListings.PagesPrefix | src/pages/general/ActiveListings.jsx:106-111 | the first k pages joined are the first `9k` items |
| ActiveListings.PagesPartition | src/pages/general/ActiveListings.jsx:106-111 | pages 1 to `totalPages`, as the pager at lines 390-399 offers them, joined are exactly the filtered listings |
| ActiveListings.PageOfIndex | src/pages/general/ActiveListings.jsx:106-111 | item i appears on page `i / 9 + 1` at position `i % 9` |
| SignUp.FirstAt | src/pages/public/SignUp.jsx:48-54 | the index of the first `@`, or none when there is no `@` |
| SignUp.EmailPatternIff | src/pages/public/SignUp.jsx:48-54 | the email check accepts exactly the texts matching `^[^\s@]+@[^\s@]+\.[^\s@]+$` |
| SignUp.ValidEmailMatches | src/pages/public/SignUp.jsx:48-54 | an accepted email splits into three non-empty runs without whitespace or `@`, around `@` and `.` |
| SignUp.PatternIsValid | src/pages/public/SignUp.jsx:48-54 | any such three runs form an accepted email |
| SignUp.Utf16Length | src/pages/public/SignUp.jsx:43 | `value.length` counts UTF-16 code units: at least one and at most two per character, and one per character exactly when no character lies beyond U+FFFF |
| SignUp.FieldError | src/pages/public/SignUp.jsx:35-56 | only the four validated fields get an entry; it is non-empty iff the value is invalid (a space in a name, a password under 8 UTF-16 code units, or not matching the email pattern), with that field's message |
| SignUp.ErrorsAfterFrame | src/pages/public/SignUp.jsx:35-56 | validation changes only the edited field's entry, and none for other fields |
| SignUp.AllClearAfter | src/pages/public/SignUp.jsx:199-201 | after an edit by `handleChange` (lines 58-66) the button is enabled iff the edited field is fine and every other entry is empty |
| SignUp.SignUpForm.constructor | src/pages/public/SignUp.jsx:12-18 | empty fields, terms unchecked, no errors |
| SignUp.SignUpForm.HandleChange | src/pages/public/SignUp.jsx:58-66 | the checkbox stores its boolean, any other field its text, and the errors move as validation says |
| SignUp.SignUpForm.OnAuthChange | src/pages/public/SignUp.jsx:24-33 | a failed registration replaces the errors with the server's, a success leads to `/verify-activation-otp`, and `reset` is dispatched |
| Login.SubmitDecision | src/pages/public/Login.jsx:53-62 | nothing is dispatched iff the email or the password is empty; otherwise `login` gets the form object |
| Login.LoginPayload | src/pages/public/Login.jsx:22-25 | with the two-field form, the payload dispatched at line 61 is exactly `{email, password}` |
| Login.RedirectRule | src/pages/public/Login.jsx:41-46 | a present user always leaves the page; without one, only a success does |
| Login.LoginForm.constructor | src/pages/public/Login.jsx:22-25 | the form starts with empty email and password |
| Login.LoginForm.HandleChange | src/pages/public/Login.jsx:49-51 | only the named field changes |
| Login.LoginForm.HandleSubmit | src/pages/public/Login.jsx:53-62 | the outcome is the empty-field guard applied to the form |
| Login.LoginForm.OnAuthChange | src/pages/public/Login.jsx:36-47 | navigation to `/` happens iff success or a user, and `reset` is dispatched every time |
| AdminDashboard.WithoutAuction | src/pages/AdminDashboard/AdminDashboard.jsx:96-99 | the remaining auctions are an order-preserving subsequence holding exactly those with another id |
| AdminDashboard.WithoutUser | src/pages/AdminDashboard/AdminDashboard.jsx:104-108 | the remaining users are an order-preserving subsequence holding exactly those with another id |
| AdminDashboard.WithoutAuctionLength | src/pages/AdminDashboard/AdminDashboard.jsx:96-101 | the list shrinks by the number of rows carrying the id |
| AdminDashboard.UniqueAuctionRemovesOne | src/pages/AdminDashboard/AdminDashboard.jsx:96-101 | with a unique id the list shrinks by exactly one, matching the counter decrement |
| AdminDashboard.Dashboard.constructor | src/pages/AdminDashboard/AdminDashboard.jsx:50-76 | counters 124, 42 and 567, the given rows, no selection |
| AdminDashboard.Dashboard.SelectItem | src/pages/AdminDashboard/AdminDashboard.jsx:86-92 | edit and delete-confirm select the item with its type |
| AdminDashboard.Dashboard.DeleteItem | src/pages/AdminDashboard/AdminDashboard.jsx:94-113 | no selection changes nothing; an auction is removed with `totalAuctions - 1` and `activeAuctions - 1` iff it was active; a user is removed with `totalUsers - 1`; an unknown type changes no data; the selection is cleared |
| ManageListings.ShownAuctions | src/pages/AdminDashboard/ManageListings.jsx:48-53 | the shown auctions are an order-preserving subsequence, and an auction is shown iff the filter is `all` or its status, and its title contains the search, both lower-cased |
| ManageListings.DefaultShowsAll | src/pages/AdminDashboard/ManageListings.jsx:48-52 | filter `all` with an empty search shows every auction |
| ManageListings.UnknownStatusShowsNone | src/pages/AdminDashboard/ManageListings.jsx:48-52 | a status filter no auction carries shows nothing |
| ManageListings.StatusBadge | src/pages/AdminDashboard/ManageListings.jsx:65 | green for `active`, gray for `ended`, yellow otherwise |
| ManageListings.ActionLabel | src/pages/AdminDashboard/ManageListings.jsx:77 | `End Auction` iff the status is `active`, else `Activate Auction` |
| ManageUsers.ShownUsers | src/pages/AdminDashboard/ManageUsers.jsx:71-76 | the shown users are an order-preserving subsequence, and a user is shown iff the filter is `all` or its status, and the name contains the search, both lower-cased |
| ManageUsers.DefaultShowsAll | src/pages/AdminDashboard/ManageUsers.jsx:71-75 | filter `all` with an empty search shows every user |
| ManageUsers.SearchIgnoresCase | src/pages/AdminDashboard/ManageUsers.jsx:71-75 | two searches that agree when lower-cased show the same users |
| ManageUsers.StatusBadge | src/pages/AdminDashboard/ManageUsers.jsx:89-92 | green for `active`, yellow for `pending`, red otherwise |
| ManageUsers.ActionLabel | src/pages/AdminDashboard/ManageUsers.jsx:103-104 | `Suspend User` iff the status is `active`, else `Activate User` |
| UserDashboard.OnMount | src/pages/protected/UserDashboard.jsx:118-122 | the page redirects to `/login` iff no non-empty access token is stored |
| UserDashboard.DecideStatus | src/pages/protected/UserDashboard.jsx:192-203 | `Closed` with under a second left warns and sends nothing; `Active` asks for `active: false`; any other request asks for `active: true` |
| UserDashboard.Flipped | src/pages/protected/UserDashboard.jsx:204-214 | the new label is `Closed` iff the old one was `Active`, else `Active` |
| UserDashboard.FlipTwice | src/pages/protected/UserDashboard.jsx:204-214 | two successful clicks restore an `Active`/`Closed` label |
| UserDashboard.ExpiredOnlyWhenReopening | src/pages/protected/UserDashboard.jsx:192-214 | the expiry warning stops only a reopening, which time left would allow |
| UserDashboard.StatusButton.constructor | src/pages/protected/UserDashboard.jsx:192-214 | the button starts with the given label and no colour |
| UserDashboard.StatusButton.HandleUpdateStatus | src/pages/protected/UserDashboard.jsx:192-217 | the decision is `DecideStatus`; on success the label flips and turns red or blue; otherwise nothing changes |
| UserDashboard.ProfileForm.constructor | src/pages/protected/UserDashboard.jsx:61-67 | the form starts as `EmptyProfile`: empty names, no file, empty avatar URL |
| UserDashboard.ProfileForm.OnProfileLoaded | src/pages/protected/UserDashboard.jsx:118-145 | the mount effect's captured form, `EmptyProfile`, is spread, so earlier edits and a chosen file are dropped; the names come from the profile, and the avatar from the profile or the default picture |
| UserDashboard.ProfileForm.HandleChange | src/pages/protected/UserDashboard.jsx:149-157 | the form moves as the shared change rule says, and keeps its state when that rule throws |
| UserDashboard.ProfileForm.SubmitProfile | src/pages/protected/UserDashboard.jsx:159-164 | the `file` entry is deleted from the state itself, and the rest is sent |
| Common.ChangedForm | src/pages/protected/UserDashboard.jsx:149-157 | a text input stores its value; a file input stores the file under `file` and its type under the name; an empty file list throws; no other key changes |
| Common.OrInt | src/pages/general/ListingDetails.jsx:75 | `a \|\| b` on numbers: `a` when non-zero, else `b` |
| CreateListing.FindCategory | src/pages/protected/CreateListing.jsx:83-85 | `find` returns the first category with the name, or none when no category has it |
| CreateListing.CategorySlug | src/pages/protected/CreateListing.jsx:83-95 | the slug of the first category with the listing's category name, else `other` |
| CreateListing.CategorySlugOfUniqueName | src/pages/protected/CreateListing.jsx:83-95 | with distinct category names, the slug is that of the category carrying the name |
| CreateListing.ListingForm.constructor | src/pages/protected/CreateListing.jsx:39-51 | the form starts with empty fields and no file, waiting for its listing (`isLoading`) with no submit in flight (`createLoading` false) |
| CreateListing.ListingForm.OnMount | src/pages/protected/CreateListing.jsx:111-115 | without a listing slug the create form shows at once, with no spinner and no not-found page; with a slug nothing changes until the fetch settles |
| CreateListing.ListingForm.HandleChange | src/pages/protected/CreateListing.jsx:118-127 | the form moves as the shared change rule says |
| CreateListing.ListingForm.OnListingLoaded | src/pages/protected/CreateListing.jsx:76-100 | the loaded listing fills name, price, description and closing time, with its category slug or `other`; the not-found flag and `isLoading` are cleared |
| CreateListing.ListingForm.OnCategoriesFetchFailed | src/pages/protected/CreateListing.jsx:77-81 | a loaded listing whose categories fail clears the not-found flag and leaves the page waiting |
| CreateListing.ListingForm.OnListingFetchFailed | src/pages/protected/CreateListing.jsx:103-108 | a 404 shows the not-found page, any other failure an empty form; both clear `isLoading` |
| CreateListing.ListingForm.Submit | src/pages/protected/CreateListing.jsx:129-142 | `createLoading` is set and `isLoading` kept, so no spinner replaces the form; an invalid date sends nothing; otherwise the payload has no `file`, keeps `file_type` iff a file is chosen, has `slug` iff editing (or it was in the form), carries the ISO closing date and passes every other field through; editing selects update over create |
| CreateListing.ListingForm.OnSubmitSettled | src/pages/protected/CreateListing.jsx:142-160 | every settled submit clears `createLoading`, except a saved listing whose image upload rejects, which keeps the button spinning |
| Notifications.Dismiss | src/components/notifications.jsx:33-35 | the remaining notifications are an order-preserving subsequence holding exactly those with another id |
| Notifications.DismissAbsent | src/components/notifications.jsx:33-35 | dismissing an id nobody carries changes nothing |
| Notifications.DismissTwice | src/components/notifications.jsx:33-35 | dismissing is idempotent, and dismissals commute |
| Notifications.ToneOf | src/components/notifications.jsx:58-62 | green for `success`, yellow for `warning`, and another tone otherwise |
| Notifications.Panel.constructor | src/components/notifications.jsx:30-31 | the panel starts with the given list |
| Notifications.Panel.Badge | src/components/notifications.jsx:44-48 | a count badge equal to the list length shows iff the list is non-empty |
| Notifications.Panel.ShowsEmptyText | src/components/notifications.jsx:50-51 | the empty-state text shows iff no badge shows |
| Notifications.Panel.DismissNotification | src/components/notifications.jsx:33-35 | the list becomes `Dismiss` of the old list |
| Notifications.Panel.ClearAll | src/components/notifications.jsx:90-96 | the list is empty and the empty-state text shows |
| Header.WebsiteNotifications.constructor | src/components/Header.jsx:69-70 | the panel starts with the given list |
| Header.WebsiteNotifications.DismissNotification | src/components/Header.jsx:72-74 | the list becomes `Dismiss` of the old list |
| Header.WebsiteNotifications.ClearAll | src/components/Header.jsx:166-168 | the list is empty and the empty-state text shows |
| Header.WebsiteNotifications.Badge | src/components/Header.jsx:92-108 | a count badge shows iff the list is non-empty |
| Header.WebsiteNotifications.ShowsEmptyText | src/components/Header.jsx:104-108 | `No new notifications` shows exactly when there is no badge |
| Header.Menu.constructor | src/components/Header.jsx:214 | the menu starts closed |
| Header.Menu.ToggleMenu | src/components/Header.jsx:218 | toggling flips the menu |
| Header.Menu.CloseMenu | src/components/Header.jsx:219 | closing leaves the menu closed |
| Header.Menu.OnLocationChange | src/components/Header.jsx:246-248 | a location change closes an open menu and reports whether it was open |
| Header.NavLink | src/components/Header.jsx:272-301 | a link is active iff the pathname is its target, and shows a badge iff its count is positive |
| Header.NavItems | src/components/Header.jsx:520-531 | home and listings always; the watchlist and create-listing links iff there is an access token |
| Header.AtMostOneActive | src/components/Header.jsx:520-531 | at most one of these navigation links is active at a time, by the NavLink rule of lines 272-301 |

## Left out

- The network, Promises and `store.subscribe` timing are not modelled as such. Each server
  reply, refresh result and success flag is a parameter of the handler that sees it. Dispatch
  notifies the subscriber synchronously.
- The refresh request goes through the same `api` instance. The model treats it as one opaque
  call whose result is an input, so its own `401` does not re-enter the hook.
- Several `401`s that happen at once are not coalesced into one refresh; the source does not
  do this either.
- `jwt_decode` is a function-valued field of the auth store, taken as given.
- The browser's side effects are stored or returned rather than performed:
  - `localStorage` is a `map` field of the stores;
  - `navigate` targets are returned by the handlers, or logged as events by the gateway;
  - `toast`, `alert`, `setInterval` and DOM changes are not modelled.
- Dates and time zones are left out: `new Date` parsing of closing dates, `toLocaleString`,
  `toISOString` and `getTimezoneOffset`.
  - The countdown takes the millisecond difference as an integer.
  - The date filter takes each listing's closing instant as an optional number.
  - `toISOString` is an input, `None` when the date is invalid.
- `parseFloat`/`Number` of bid inputs is not modelled. Amounts are integers, and `None` stands
  for an empty or NaN input.
- `parseInteger` and the other helpers in `src/features/utils` are not part of this model.
- The thunks' request bodies and endpoints are not modelled, only the reducer cases they
  trigger. The image upload that follows a submit is left out too; only whether it rejects
  is an input of `CreateListing.ListingForm.OnSubmitSettled`.
- SignUp.SignUpForm.OnAuthChange: takes the server's error object as a map from field to
  message. It does not model `setErrors(message)` when `message` is a plain string.
- AdminDashboard.Dashboard.constructor: takes the initial rows as parameters instead of the
  page's fixed sample rows. The revenue figure and the transactions table never change and are
  left out.
- ActiveListings.NumberOf: reads only blank text and optionally signed decimal digits.
  Fractions (`'5.5'`), exponents (`'1e3'`), `0x`/`0o`/`0b` prefixes and `Infinity` give NaN
  here, where JavaScript's `Number` reads them as numbers.
- Common.Lower: lower-cases only the capitals of the Basic Latin, Latin-1 and basic Cyrillic
  blocks. Other scripts, the final-sigma rule and mappings that lengthen the text (`İ`) are
  kept as they are, where `toLowerCase` applies the full Unicode case mapping.
- ActiveListings.KeptListing: its search ignores case only as far as `Common.Lower` does.
- ManageListings.ShownAuctions: its title search ignores case only as far as `Common.Lower`
  does.
- ManageUsers.ShownUsers: its name search ignores case only as far as `Common.Lower` does.
- ManageUsers.SearchIgnoresCase: two searches count as the same when `Common.Lower` maps them
  to the same text, which is a coarser test than full Unicode lower-casing.
- CardListing.Card.SubmitBid: stores the bid amount as the highest bid unchanged. The source
  stores `parseInteger(parseFloat(bidData.amount))`; amounts here are already integers, and
  `parseInteger` is not part of this model.
- Cards1.CompactCard.SubmitBid: stores the bid amount unchanged, where the source stores
  `parseInteger(parseFloat(bidData.amount))`, for the same reason.
- CardListing.Card.HandlePrevImage: requires more than one image, because the arrows only
  render then. HandleNextImage requires the same.
- The Header's language effect is modelled by `LanguageSlice.LanguageStore.SetLanguage`. It
  writes `preferredLanguage` to storage.
- Rendering, styling, translations and the components outside the listed pages are left out.

## Findings

| source | as written | input that shows it | evidently intended | confidence | as-written member | corrected member |
|---|---|---|---|---|---|---|
| src/pages/general/ActiveListings.jsx:93 | the date filter reads `listing.endDate`, but listings carry their closing time in `closing_date` (read at src/components/CardListing.jsx:92 and src/components/Cards1.jsx:63) | any non-empty start or end date, with listings that have no `endDate` field: every listing is dropped | compare the listing's `closing_date` with the bounds | not executed | ActiveListings.AsWrittenDateFilterDropsAll | ActiveListings.FilteredListingsSpec |
