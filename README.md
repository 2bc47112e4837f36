# Husky Helpers front end, modelled in Dafny

Husky Helpers is a campus marketplace. Providers list services, and members browse them, search them and rate providers. The web front end is a thin layer over a hosted backend that handles auth, tables and file storage. This project models the deterministic part of that front end:

- **Home page**: turning fetched `services` rows into listing cards. Each card carries a provider name, a provider photo and the mean testimonial rating. The page also filters the cards by a case-insensitive text query and a category selector whose `'All'` entry means no narrowing. Module `Home`.
- **OAuth callback route**: a decision function. It decides where a sign-in lands, whether it signs out a non-`@uw.edu` account, and whether it writes the profile row. Module `AuthCallback`.
- **Display derivations**:
  - name initials (`ServiceCard`, `AvatarUpload`);
  - the rounded star count of a card;
  - the five stars of the rating widget (`StarRating`);
  - a testimonial's initial and name fallbacks (`TestimonialCard`).
- **Per-page state machines**, each a class whose methods update its fields as the page's handlers do:
  - the profile page (`Profile.ProfilePage`);
  - the login form (`Login.LoginForm`);
  - the photo upload control (`AvatarUpload.AvatarUploader`);
  - the feedback form (`Feedback.FeedbackForm`);
  - the terms dialog with its persistent `localStorage` flag (`Terms.TermsModal`, `Terms.LocalStorage`).

Two helper modules support the rest:

- `Js` holds the JavaScript semantics the code relies on: `null`/`undefined` as `Option`, string truthiness, `a || b`, ASCII `toLowerCase`/`toUpperCase`, `includes`, `startsWith`/`endsWith`, `split`/`join`/`pop`, and number-to-string.
- `Seqs` holds the order-preserving `Array.prototype.filter` and its subsequence and membership lemmas.

Every backend call becomes an input to the model: the answer of a query, an auth exchange or a storage upload. The clock, the `confirm` answer, the request origin and the development flag are inputs too. Alerts, navigations, upserts and sign-outs become outputs or fields.

## Model

| member | source | states |
|---|---|---|
| Home.ProviderName | app/page.js:42 | the listing's provider name is the profile's `full_name` when that is a non-empty string, else `'Anonymous'`; never empty |
| Home.ProviderPhoto | app/page.js:43 | the photo is the profile's `photo_url` when non-empty, else null; a present photo is never empty |
| Home.AverageRating | app/page.js:44-47 | 0 when the testimonials are missing or empty; otherwise the mean, i.e. average × count equals the sum of ratings |
| Home.AverageRatingRange | app/page.js:44-47 | with every rating in 1..5 the average lies in [0,5], and is at least 1 when there is a rating |
| Home.SumBounds | app/page.js:46 | the reduce sum of n ratings in [lo,hi] lies in [lo·n, hi·n] |
| Home.Format | app/page.js:40-48 | formatting a row sets the derived view fields and changes no other field of the row |
| Home.Aggregate | app/page.js:40-48 | the `map` keeps the length and formats the row at every index |
| Home.AggregateKeepsRows | app/page.js:40-48 | every aggregated row keeps all original fields, in the original order, and carries the name, photo and average of its own row |
| Home.AggregateIdempotent | app/page.js:40-48 | aggregating an aggregated list changes nothing |
| Home.MatchesSearch | app/page.js:55-58 | the text test holds iff the lowered query occurs in the lowered title, description or provider name (missing name as `''`) |
| Home.MatchesCategory | app/page.js:59-60 | `'All'` passes every listing; any other category passes exactly the listings of that category |
| Home.FilteredServices | app/page.js:54-62 | the filtered list is no longer than the list, and every listing in it matches both the query and the category |
| Home.FilterIsSubsequence | app/page.js:54 | the filter result is a subsequence of the listings: nothing added, order kept |
| Home.FilterMembership | app/page.js:55-61 | a listing is kept iff it is in the list and the lowered query occurs in its lowered title, description or provider name (missing name as `''`), and the category is `'All'` or its own |
| Home.EmptyQueryMatchesAll | app/page.js:56-58 | the empty query passes the text test for every listing |
| Home.EmptyQueryAllShowsEverything | app/page.js:54-62 | the empty query with `'All'` shows the whole list |
| Home.AllCategoryIsTextOnly | app/page.js:59-60 | with `'All'` the filter is the text test alone |
| Home.QueryCaseInsensitive | app/page.js:56-58 | a query and its lower-cased form select the same listings |
| Home.FilteredCons | app/page.js:54 | the filter decides the first listing on its own and filters the rest independently |
| Home.CalcQueryExample | app/page.js:54-62 | the query "calc" with `'All'` over a "Math Tutoring"/"Calc help" listing and a "Dog Walking" listing shows only the first |
| Home.CalcMatchesDescription | app/page.js:57 | a description "Calc help" matches the query "calc" |
| Home.CalcMissesDogWalking | app/page.js:55-58 | "Dog Walking", "Pet care" and provider "Bo" do not match "calc" |
| Home.HomePage.constructor | app/page.js:11-14 | the page starts with no services, loading, an empty query and category `'All'` |
| Home.HomePage.FetchServices | app/page.js:28-52 | a successful fetch with data stores the aggregated rows; any other answer leaves `services` as it was; `loading` ends false either way; the query and category are untouched |
| Home.HomePage.Visible | app/page.js:78-81 | the cards shown are no more than the services, each matches the current query and category, and the empty query with `'All'` shows every service |
| Home.HomePage.SetSearchQuery | app/page.js:71 | only the query changes |
| Home.HomePage.SetSelectedCategory | app/page.js:73 | only the category changes |
| AuthCallback.RedirectPath | app/auth/callback/route.js:8 | the redirect parameter, or `'/'` only when it is absent (`??`: an empty parameter is kept) |
| AuthCallback.SuccessTarget | app/auth/callback/route.js:29-39 | the success redirect ends with the redirect path, and starts with the request origin in development or without a forwarded host, else with `https://` and the forwarded host, with nothing between the host and the path |
| AuthCallback.Callback | app/auth/callback/route.js:4-45 | only an e-mail ending in `@uw.edu` is ever upserted; a sign-out always comes with the domain error page and no upsert; every redirect other than the two error pages follows an upsert; the exchange is attempted iff the code is a non-empty string |
| AuthCallback.NoCodeFails | app/auth/callback/route.js:10-44 | a missing or empty code redirects to `/login?error=auth_failed` with no exchange, sign-out or upsert |
| AuthCallback.ExchangeFailureFails | app/auth/callback/route.js:14-44 | an exchange error or missing session redirects to `/login?error=auth_failed` with no sign-out or upsert |
| AuthCallback.ForeignDomainSignedOut | app/auth/callback/route.js:15-19 | an e-mail not ending in `@uw.edu` signs out and redirects to `/login?error=domain_restricted` with no upsert |
| AuthCallback.UwSignInSucceeds | app/auth/callback/route.js:22-39 | a `@uw.edu` sign-in upserts id, e-mail and `full_name` (or `''`), does not sign out, and redirects to origin+path in development or with no forwarded host, else to `https://host`+path |
| AuthCallback.RedirectParameterUnchecked | app/auth/callback/route.js:8-34 | the redirect parameter is appended to the origin unchecked: `@evil.example` on origin `https://app.example` yields `https://app.example@evil.example`, a URL whose host is evil.example |
| AuthCallback.UpperCaseDomainRejected | app/auth/callback/route.js:16 | the suffix test is case-sensitive: `@UW.EDU` does not pass |
| AuthCallback.GmailSignInRejected | app/auth/callback/route.js:16-19 | a `student@gmail.com` sign-in lands on the domain error page after a sign-out |
| StarRating.Label | components/StarRating.js:12 | the aria label reads "Rate 1 star" for the first star and "Rate k stars" for the others |
| StarRating.Stars | components/StarRating.js:6-12 | five stars numbered 1..5; star k is filled iff k ≤ rating; each is interactive and carries a role and aria label exactly when the widget is interactive |
| StarRating.Click | components/StarRating.js:10 | a click rates with the star's number exactly when the widget is interactive |
| StarRating.CountFilledPrefix | components/StarRating.js:9 | among the first n stars, max(0, min(rating, n)) are filled |
| StarRating.FilledCount | components/StarRating.js:9 | the widget fills max(0, min(rating, 5)) stars |
| StarRating.DefaultFillsNone | components/StarRating.js:3-9 | the default rating 0 fills no star |
| StarRating.ClickRates | components/StarRating.js:10 | clicking star k reports k when interactive and nothing otherwise |
| ServiceCard.FirstChars | components/ServiceCard.js:8 | joining the first characters of the words gives at most one character per word (an empty word gives none) |
| ServiceCard.FirstCharsOfSplit | components/ServiceCard.js:8 | the split/map/join pipeline equals a one-pass scan that keeps each character that starts a word |
| ServiceCard.Initials | components/ServiceCard.js:7-9 | `'?'` for a missing or empty name; otherwise the upper-cased word-start characters, at most one per space-separated word |
| ServiceCard.InitialsShape | components/ServiceCard.js:8 | the initials of a name hold no lower-case letter and are no longer than the word count |
| ServiceCard.InitialsSkipEmptyWords | components/ServiceCard.js:8 | runs of spaces add nothing: "  ann   lee " gives "AL" |
| ServiceCard.Round | components/ServiceCard.js:31 | `Math.round` gives the integer within half a unit, with halves rounding up |
| ServiceCard.RoundExamples | components/ServiceCard.js:31 | 0 gives 0, 4.0 gives 4, 3.5 gives 4 and 3.49 gives 3 |
| ServiceCard.AverageOrZero | components/ServiceCard.js:31 | `avg_rating || 0`: the listing's average once aggregated, 0 on a row without one |
| ServiceCard.StarCount | components/ServiceCard.js:31 | the star count is the integer within half a unit of the average (or 0) |
| ServiceCard.CardStars | components/ServiceCard.js:31 | the card shows the read-only star widget at the rounded average: five stars numbered 1..5, star k filled iff k ≤ the rounded average, so max(0, min(n, 5)) filled |
| ServiceCard.StarCountRange | components/ServiceCard.js:31 | with ratings in 1..5 a formatted card shows 0..5 stars, and 0 when it has no testimonials |
| ServiceCard.ThreeRatingsShowFour | components/ServiceCard.js:31 | ratings 4, 5 and 3 average 4.0 and show 4 stars |
| TestimonialCard.Initial | components/TestimonialCard.js:6-8 | exactly one character: `'?'` for a missing or empty name, else the upper-cased first character |
| TestimonialCard.DisplayName | components/TestimonialCard.js:16 | the author's name when non-empty, else `'Anonymous'`; never empty |
| TestimonialCard.RatingStars | components/TestimonialCard.js:18 | the card shows the read-only star widget at the testimonial's own rating, unchanged: five numbered stars, max(0, min(rating, 5)) of them filled, none clickable |
| AvatarUpload.AvatarInitials | components/AvatarUpload.js:11-13 | `'?'` for a missing or empty name; otherwise the upper-cased word-start characters, the same rule as a listing card, with no lower-case letter and at most one character per word |
| AvatarUpload.Rejection | components/AvatarUpload.js:19-26 | a file is accepted iff its MIME type starts with `image/` and it is at most 5 MiB; a non-image is refused first, then an oversized image |
| AvatarUpload.SizeLimitBoundary | components/AvatarUpload.js:23 | an image of exactly 5 MiB is accepted and one byte more is refused |
| AvatarUpload.ExtensionAfterLastDot | components/AvatarUpload.js:29 | the extension holds no '.', is the whole name when there is no '.', and is what follows the last '.' otherwise |
| AvatarUpload.Extension | components/AvatarUpload.js:29 | the extension holds no '.', and is the whole name when the name has none |
| AvatarUpload.AvatarPath | components/AvatarUpload.js:29-30 | the path is `userId/avatar.` followed by a dot-free extension: the whole file name when it has no dot, otherwise exactly what follows the file name's last '.' |
| AvatarUpload.VersionedUrl | components/AvatarUpload.js:46 | the new URL is the public URL, then `?t=`, then a non-empty run of decimal digits whose value is the timestamp |
| Js.NatToStringDecimal | components/AvatarUpload.js:46 | the printed form of a number is a non-empty string of decimal digits with no leading zero, one digit long exactly below 10, whose decimal value is the number |
| AvatarUpload.AvatarUploader.constructor | components/AvatarUpload.js:6-7 | the control keeps its three props and starts not uploading |
| AvatarUpload.AvatarUploader.HandlePhotoUpload | components/AvatarUpload.js:15-55 | no file: nothing happens; a refused file: only its alert; an upload error: the upload at the path, the failure alert, no profile write and no callback, `uploading` false; success: the upload, the profile write and the callback with the same versioned URL, `uploading` false |
| Profile.FormFrom | app/profile/page.js:39-43 | each edit field is the profile's value when non-empty, else `''` |
| Profile.MergeForm | app/profile/page.js:77 | the three edited fields are overwritten and every other profile field is kept; a missing profile yields only the three fields |
| Profile.MergePhoto | app/profile/page.js:108 | only `photo_url` changes |
| Profile.HeadingName | app/profile/page.js:123 | the profile's name when non-empty, else `'Set your name'` |
| Profile.WishlistName | app/profile/page.js:171 | the wished provider's name when non-empty, else `'Unknown'` |
| Profile.WithoutEntry | app/profile/page.js:84 | no entry with the removed id remains |
| Profile.WithoutService | app/profile/page.js:90 | no listing with the deleted id remains |
| Profile.WithoutEntryKeepsOthers | app/profile/page.js:84 | an entry survives removal iff it was there and has another id, and the survivors keep their order |
| Profile.WithoutServiceKeepsOthers | app/profile/page.js:90 | a listing survives deletion iff it was there and has another id, and the survivors keep their order |
| Profile.SaveUneditedKeepsHeading | app/profile/page.js:39-123 | saving the form as loaded leaves the heading unchanged |
| Profile.ProfilePage.constructor | app/profile/page.js:13-21 | the page starts with no user or profile, empty lists, loading, not editing, an empty form and no message |
| Profile.ProfilePage.LoadProfile | app/profile/page.js:28-65 | with no user: navigate to `/login` and change no data; otherwise store the user, the profile and its form when found, each list or `[]`, and clear `loading` |
| Profile.ProfilePage.SaveProfile | app/profile/page.js:67-80 | the update sends the user's id and the form; on success the message is set, editing ends and only the three fields of the profile change; on failure nothing changes |
| Profile.ProfilePage.ClearSaveMessage | app/profile/page.js:78 | the timer empties the message |
| Profile.ProfilePage.RemoveWishlistItem | app/profile/page.js:82-85 | the wishlist becomes the old list without the removed id, whatever the delete answered |
| Profile.ProfilePage.DeleteService | app/profile/page.js:87-91 | unconfirmed: nothing is sent and nothing changes; confirmed: the listings lose that id |
| Profile.ProfilePage.PhotoUpdated | app/profile/page.js:107-111 | only the profile's photo changes, and the message reads "Photo updated!" |
| Profile.ProfilePage.StartEditing | app/profile/page.js:131 | editing begins |
| Profile.ProfilePage.CancelEditing | app/profile/page.js:119 | editing ends |
| Profile.ProfilePage.ChangeForm | app/profile/page.js:117 | the form takes the edited value |
| Login.RedirectTarget | app/login/page.js:18 | the redirect parameter when non-empty, else `'/'` (`||`); never empty |
| Login.DisplayError | app/login/page.js:22-24 | a local error always wins; otherwise `domain_restricted` maps to the `@uw.edu` message and any other parameter is shown verbatim |
| Login.ErrorBannerShown | app/login/page.js:22-105 | the banner shows iff there is a local error or a non-empty error parameter |
| Login.DomainCodeShowsMessage | app/login/page.js:22-24 | the callback's two error codes show the fixed message and the raw code respectively |
| Login.LoginForm.Banner | app/login/page.js:22-105 | the banner is shown iff there is a local error or a non-empty error parameter, and a local error is shown as is |
| Login.LoginForm.constructor | app/login/page.js:9-19 | sign-in mode, empty fields and messages, not loading, redirect defaulted |
| Login.LoginForm.Edit | app/login/page.js:116-140 | the inputs take the typed values |
| Login.LoginForm.BeginSubmit | app/login/page.js:28-30 | the error and the success message are cleared and `loading` is set before any backend call |
| Login.LoginForm.FinishSignUp | app/login/page.js:41-57 | a sign-up error shows its message, clears `loading` and upserts nothing; success upserts the new user's profile when a user came back, shows the success message and clears `loading` |
| Login.LoginForm.FinishSignIn | app/login/page.js:64-71 | a sign-in error shows its message and clears `loading`; success navigates to the redirect target |
| Login.LoginForm.HandleSubmit | app/login/page.js:26-73 | the four outcomes of a submit: sign-up failure or success, sign-in failure or success, each with its error, message, loading, upsert and navigation |
| Login.LoginForm.GoogleSignIn | app/login/page.js:75-93 | asks to return to `/auth/callback?redirect=` plus the target; an OAuth error is shown and clears `loading`, otherwise `loading` stays set |
| Login.LoginForm.ShowSignIn | app/login/page.js:184 | switches to sign-in and clears the error and the success message |
| Login.LoginForm.ShowSignUp | app/login/page.js:191 | switches to sign-up and clears the error and the success message |
| Feedback.FeedbackForm.constructor | components/FeedbackForm.js:7-9 | rating 0, empty comment, not loading |
| Feedback.FeedbackForm.CanSubmit | components/FeedbackForm.js:36 | the submit button is enabled iff the form is not submitting and a rating was chosen |
| Feedback.FeedbackForm.ClickStar | components/FeedbackForm.js:24 | a click on a star of the interactive widget sets the rating to that star |
| Feedback.FeedbackForm.EditComment | components/FeedbackForm.js:31 | the comment takes the typed text |
| Feedback.FeedbackForm.BeginSubmit | components/FeedbackForm.js:13-14 | the form is busy and `onSubmit` receives exactly the current rating and comment |
| Feedback.FeedbackForm.HandleSubmit | components/FeedbackForm.js:11-18 | `onSubmit` receives the rating and comment as they were, then all three slots are reset |
| Feedback.RateThenSubmittable | components/FeedbackForm.js:7-36 | a fresh form cannot be submitted; after clicking any star it can |
| Feedback.SubmitResets | components/FeedbackForm.js:11-36 | a submission carries the chosen rating and text, and afterwards the form cannot be submitted until re-rated |
| Terms.NotAccepted | components/TermsModal.js:9-10 | a missing key or a stored empty string means not accepted; any other stored value means accepted |
| Terms.TermsModal.Rendered | components/TermsModal.js:20 | the dialog renders iff `show` holds |
| Terms.TermsModal.constructor | components/TermsModal.js:6 | the dialog starts hidden |
| Terms.TermsModal.Mount | components/TermsModal.js:8-13 | mounting shows the dialog iff the key is missing or holds the empty string |
| Terms.TermsModal.Accept | components/TermsModal.js:15-18 | accepting stores `'true'` under the key, touches no other key and hides the dialog |
| Terms.AcceptThenRemount | components/TermsModal.js:8-20 | a first visit shows the dialog; after accepting it is hidden, and a later mount keeps it hidden |
| Terms.AcceptTwice | components/TermsModal.js:15-18 | a second accept leaves the store and the flag as the first did |
| Terms.EmptyValueShows | components/TermsModal.js:9-10 | a stored empty string does not count as acceptance |

## Left out

- Backend semantics are not modelled: auth, the table queries (`select`, `eq`, `order`, `upsert`, `update`, `delete`) and storage upload and public URLs. Each call is represented only by its answer, passed in as a parameter. In particular, the `created_at` ordering of fetched rows is taken as given.
- Rendering, CSS and routing are out of scope. This covers the header, hero, layout and profile-editor components, the search-filter component apart from its category list, and the JSX of the modelled components. Exception: each component's choice between rendering and `null`, and its loading spinner, are decided by fields that are modelled.
- The service-posting and request-posting pages are not part of this model: they forward form fields to backend inserts, and the service-posting page parses the hourly rate with `parseFloat`.
- The service detail page is not part of this model. It is a view with its own rating average, initials and wishlist toggle.
- Floating-point arithmetic is replaced by exact `real` arithmetic. The mean and `Math.round` are therefore exact, not IEEE doubles.
- Case mapping is ASCII only. `toLowerCase` and `toUpperCase` map A–Z and a–z and leave every other character unchanged, so full Unicode case mapping is not modelled.
- Strings are sequences of Unicode code points, whereas JavaScript indexes UTF-16 code units. For a name beginning with a character outside the Basic Multilingual Plane, such as "😀a", JavaScript's `name[0]` is a lone surrogate, while the model takes the whole character.
- TestimonialCard.Initial: "exactly one character" holds only under the ASCII case mapping and code-point indexing. In JavaScript `'ß'.toUpperCase()` is "SS", so "ßen" gets a two-character initial, and an astral first character gives a lone surrogate.
- ServiceCard.Initials: "at most one character per word" holds only under the ASCII case mapping; a word starting with 'ß' contributes "SS" in JavaScript. The first character of a word is a code point, not a UTF-16 code unit.
- ServiceCard.FirstChars: takes the first code point of each word, where JavaScript's `n[0]` takes the first UTF-16 code unit.
- AvatarUpload.AvatarInitials: has the same two gaps as ServiceCard.Initials, because it follows the same rule.
- Timers, `Date.now()`, `alert` and `confirm` are replaced by inputs and outputs:
  - the timestamp and the confirm answer are parameters;
  - alerts are returned as effects;
  - the three-second message reset is a separate method (`ClearSaveMessage`).
- Concurrency is not modelled: not the interleaving of the independent fetches, not the auth-state subscription, and not updates that land after a page has been left. Each async handler runs as one method. The login submit is also split into a begin step and finish steps, and the feedback submit into a begin step that `HandleSubmit` completes, so that the state while the backend call is pending can be stated.
- The page's `checkUser` and the `user` slot it fills are not modelled. Only the hero component reads them.
- Browser form validation is not modelled: the `required` and `minLength` attributes act before `handleSubmit` runs.
- AuthCallback.Callback: when the exchange yields a session whose user has no e-mail, the source throws on `email.endsWith`. The model gives every session user an e-mail string, so that crash is not represented.
- Behaviour of the code worth knowing, modelled as the code has it:
  - Aggregation adds a third view field, `provider_photo_url`, falling back to null.
  - A failed home-page fetch shows no error: the list is left as it was.
  - A failed profile save changes nothing and shows no message.
  - A stored empty string under `husky_terms_accepted` counts as not accepted.
  - A successful password sign-in leaves `loading` set while the page navigates away.
  - The callback keeps an empty `redirect` parameter (`??`), while the login page replaces it with `'/'` (`||`).
