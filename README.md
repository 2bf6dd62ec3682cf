# TouristGuide client decision rules in Dafny

TouristGuide is an Android app (Kotlin) for browsing, reviewing and
moderating tourist places in one city, Surat. This project models the
decisions its screens make. It does not model how they draw.

The modelled decisions are:

- which places the feed shows after a load or a search, and which toasts appear;
- when a search is refused before any request is sent;
- how the administrator's approve, delete and pending-list calls are judged;
- which edit and delete buttons a place card or a review shows;
- what the session store holds after a save or a clear;
- how the sign-in, registration and add-place forms validate their input;
- how a place's like state and reviews follow the server;
- how an image path becomes a URL;
- how the liked-places and my-places lists refresh.

Every network call is an `Outcome`, which is one of:

- an exception (`Transport`, with its message);
- a non-2xx status (`Http`, with the error body as text, absent or unreadable);
- a 2xx status (`Ok2xx`), with an optional body.

Where the code reads the `{success, data, message}` envelope, a call
succeeds only on a 2xx status with a body whose `success` is true.

Each screen whose fields change is a class. Its methods' `ensures` clauses
tie the new state to pure functions. The lemmas are stated about those
functions.

Modules, one per source file plus four shared ones:

| module | models |
|---|---|
| `Text` | the Kotlin string helpers used: `lowercase`, `trim`, `contains`, `startsWith`, `removeSuffix`, `repeat` |
| `Net` | `Option`, `Outcome`, `Envelope`, `Toast` |
| `Validation` | the "first failing check wins" shape of the forms' `when` chains |
| `Model` | `data/model/Place.kt` and its records, and the category spinner |
| `Feed` | `ui/main/MainActivity.kt` |
| `Admin` | `ui/admin/AdminPanelActivity.kt` |
| `PlaceCard` | `ui/main/PlacesAdapter.kt` |
| `CategoryIcons` | `ui/main/CategoryAdapter.kt` |
| `ReviewCard` | `ui/placedetails/ReviewsAdapter.kt` |
| `Details` | `ui/placedetails/PlaceDetailsActivity.kt` |
| `Session` | `utils/PreferenceManager.kt`, plus the routing of `ui/splash/SplashActivity.kt` |
| `Auth` | `ui/auth/AuthActivity.kt` |
| `AddPlace` | `ui/addplace/AddPlaceActivity.kt` |
| `Extensions` | `utils/Extensions.kt` |
| `Liked` | `ui/liked/LikedPlacesActivity.kt` |
| `MyPlaces` | `ui/myplaces/MyPlacesActivity.kt` |

A few behaviours of the code are easy to miss. The model keeps them as
written:

- Every failing feed load empties the list. It does not keep the list shown before.
- The approve test never looks for "error". A body such as `{"success":false}` counts as approved.
- After an "Approve failed" toast the refresh indicator stays on: nothing turns it off.
- A refused like toggle is silent.
- In edit mode without a place id, the add-place form creates a new place but reports "Place updated successfully".

## Model

| member | source | states |
|---|---|---|
| Model.DefaultPermissions | app/src/main/java/com/touristguide/app/data/model/Place.kt:26-31 | every permission flag defaults to false |
| Model.NewPlace | app/src/main/java/com/touristguide/app/data/model/Place.kt:5-24 | a place built from its required fields has no approver, zero counts, a 0.0 rating and null permissions |
| Model.NewPlaceResponse | app/src/main/java/com/touristguide/app/data/model/Place.kt:33-39 | count, data, message and user default to null |
| Model.DefaultsOnlyResponseRefresh | app/src/main/java/com/touristguide/app/data/model/Place.kt:33-39 | a 2xx response carrying only `success` clears the shown list when true (null data reads as empty) and keeps it when false |
| Model.ListOutcome | app/src/main/java/com/touristguide/app/ui/admin/AdminPanelActivity.kt:64-66 | a place-list call succeeds iff it is 2xx with a body whose success is true; the data and message are the body's; an exception stays an exception |
| Model.Refreshed | app/src/main/java/com/touristguide/app/ui/liked/LikedPlacesActivity.kt:69-82 | success shows `data`, with null read as empty; failure keeps the list shown before |
| Model.RefreshedIdempotent | app/src/main/java/com/touristguide/app/ui/liked/LikedPlacesActivity.kt:69-71 | applying one outcome twice equals applying it once; after a success the old list does not matter |
| Model.SpinnerNames | app/src/main/java/com/touristguide/app/ui/main/MainActivity.kt:127-128 | the spinner lists the header, then each category's name at position p + 1 |
| Model.CategoryIdAt | app/src/main/java/com/touristguide/app/ui/main/MainActivity.kt:89 | position 0 selects no category, and only position 0 does |
| Model.SpinnerPositionAgrees | app/src/main/java/com/touristguide/app/ui/main/MainActivity.kt:89 | position p > 0 shows the name of the category whose id it selects |
| Model.IndexOfFirst | app/src/main/java/com/touristguide/app/ui/addplace/AddPlaceActivity.kt:160 | -1 iff no category has the id; otherwise the first index holding it |
| Model.SelectionRoundTrip | app/src/main/java/com/touristguide/app/ui/addplace/AddPlaceActivity.kt:160-164 | selecting position index + 1 gives back the category id that was looked up |
| Validation.FirstFailure | app/src/main/java/com/touristguide/app/ui/auth/AuthActivity.kt:163-176 | None iff no check fails; otherwise the error of a failing check with no failing check before it |
| Validation.EarlierFailureWins | app/src/main/java/com/touristguide/app/ui/auth/AuthActivity.kt:185-215 | a failing check with no failing check before it decides the result, whatever later checks say |
| Feed.Classify | app/src/main/java/com/touristguide/app/ui/main/MainActivity.kt:154-236 | the outcome is a listing iff it is 2xx, the trimmed body starts with "{", and it parses with success true; the listing is `data`, with null read as empty |
| Feed.Approved | app/src/main/java/com/touristguide/app/ui/main/MainActivity.kt:166-168 | keeps exactly the approved places and never lengthens the list |
| Feed.ApprovedCounts | app/src/main/java/com/touristguide/app/ui/main/MainActivity.kt:166-168 | each approved place is kept as many times as the server sent it; every copy of an unapproved one is dropped |
| Feed.ApprovedKeepsOrder | app/src/main/java/com/touristguide/app/ui/main/MainActivity.kt:166-168 | the filtered list is a subsequence of the server's list |
| Feed.ApprovedIdempotent | app/src/main/java/com/touristguide/app/ui/main/MainActivity.kt:166-168 | filtering twice equals filtering once |
| Feed.LoadDisplay | app/src/main/java/com/touristguide/app/ui/main/MainActivity.kt:165-236 | a listing shows its approved places; every other outcome shows an empty list |
| Feed.LoadToast | app/src/main/java/com/touristguide/app/ui/main/MainActivity.kt:182-236 | a toast appears iff this is not the first load and the outcome is a refusal, a non-2xx status or an exception |
| Feed.LoadShowsApprovedData | app/src/main/java/com/touristguide/app/ui/main/MainActivity.kt:154-236 | a successful load shows exactly the approved places of `data`, in order; any other load shows nothing; everything shown is approved |
| Feed.SearchResult | app/src/main/java/com/touristguide/app/ui/main/MainActivity.kt:269-323 | only a null 2xx body leaves the list alone; a null body or a listing shows no toast; a listing shows exactly its approved places, every other outcome an empty list, so a search never shows an unapproved place |
| Feed.ShortQueriesProceed | app/src/main/java/com/touristguide/app/ui/main/MainActivity.kt:246-257 | queries of at most three characters are never refused |
| Feed.SearchGateIgnoresCase | app/src/main/java/com/touristguide/app/ui/main/MainActivity.kt:246-250 | lower-casing a query does not change whether it is refused |
| Feed.KeywordQueriesProceed | app/src/main/java/com/touristguide/app/ui/main/MainActivity.kt:246-250 | a query containing a city keyword in any case is never refused |
| Feed.GateExamples | app/src/main/java/com/touristguide/app/ui/main/MainActivity.kt:246-257 | "Surat Castle" and "goa" are searched; "Kochi" is refused |
| Feed.MainScreen.constructor | app/src/main/java/com/touristguide/app/ui/main/MainActivity.kt:42-44 | no categories, no selection, an empty list and the first-load flag set |
| Feed.MainScreen.CompleteLoadCategories | app/src/main/java/com/touristguide/app/ui/main/MainActivity.kt:119-142 | only a success replaces the categories and the spinner names; failures are silent and change nothing |
| Feed.MainScreen.StartLoadPlaces | app/src/main/java/com/touristguide/app/ui/main/MainActivity.kt:144-152 | the query is the selected category, no search term, and the city "Surat" |
| Feed.MainScreen.SelectCategory | app/src/main/java/com/touristguide/app/ui/main/MainActivity.kt:88-91 | records the category the position selects, then reloads with it |
| Feed.MainScreen.QueryTextChanged | app/src/main/java/com/touristguide/app/ui/main/MainActivity.kt:104-108 | emptying the search box reloads the feed; other text does nothing |
| Feed.MainScreen.CompleteLoadPlaces | app/src/main/java/com/touristguide/app/ui/main/MainActivity.kt:154-240 | the shown list is `LoadDisplay` of the outcome, the no-places label shows iff it is empty, the toast is `LoadToast` with the old first-load flag, and the flag is cleared |
| Feed.MainScreen.StartSearch | app/src/main/java/com/touristguide/app/ui/main/MainActivity.kt:244-266 | the "Coming Soon" dialog iff the gate refuses, with no request and no state change; otherwise the query is the search term and the city, with no category |
| Feed.MainScreen.CompleteSearch | app/src/main/java/com/touristguide/app/ui/main/MainActivity.kt:267-327 | shows `SearchResult` of the outcome; a null body leaves the list and the label as they were |
| Admin.ApproveAcceptedIff | app/src/main/java/com/touristguide/app/ui/admin/AdminPanelActivity.kt:116-120 | a 2xx approve is accepted iff the trimmed body is null or empty or, lower-cased, contains "approved" or "success" (the exact JSON test adds nothing) |
| Admin.SuccessFalseIsAccepted | app/src/main/java/com/touristguide/app/ui/admin/AdminPanelActivity.kt:119-120 | `{"success":false}` is accepted as an approval |
| Admin.ApproveResult | app/src/main/java/com/touristguide/app/ui/admin/AdminPanelActivity.kt:115-143 | the pending list is reloaded unless the response is 2xx with a non-accepted body starting with "{" |
| Admin.ApproveFailuresReload | app/src/main/java/com/touristguide/app/ui/admin/AdminPanelActivity.kt:133-143 | a non-2xx status or an exception still reloads |
| Admin.AcceptedApprovalReloads | app/src/main/java/com/touristguide/app/ui/admin/AdminPanelActivity.kt:119-123 | an accepted approval shows the approved message and reloads |
| Admin.DeleteResult | app/src/main/java/com/touristguide/app/ui/admin/AdminPanelActivity.kt:158-172 | reloads iff 2xx with success true; otherwise "Failed to delete place", or the exception's message |
| Admin.PendingToast | app/src/main/java/com/touristguide/app/ui/admin/AdminPanelActivity.kt:79-88 | a toast iff the pending load did not succeed |
| Admin.AdminScreen.constructor | app/src/main/java/com/touristguide/app/ui/admin/AdminPanelActivity.kt:22-32 | an empty pending list, refresh indicator off |
| Admin.AdminScreen.StartLoadPending | app/src/main/java/com/touristguide/app/ui/admin/AdminPanelActivity.kt:60 | the refresh indicator turns on |
| Admin.AdminScreen.CompleteLoadPending | app/src/main/java/com/touristguide/app/ui/admin/AdminPanelActivity.kt:59-97 | success shows `data`, failure an empty list; the counter label and the no-places label always agree with the list; the indicator turns off |
| Admin.AdminScreen.StartApprove | app/src/main/java/com/touristguide/app/ui/admin/AdminPanelActivity.kt:111 | the refresh indicator turns on |
| Admin.AdminScreen.CompleteApprove | app/src/main/java/com/touristguide/app/ui/admin/AdminPanelActivity.kt:115-143 | the effect is `ApproveResult`; only a reload touches the indicator, so it stays on after "Approve failed" |
| Admin.AdminScreen.CompleteDelete | app/src/main/java/com/touristguide/app/ui/admin/AdminPanelActivity.kt:158-173 | the effect is `DeleteResult`; a reload turns the indicator on |
| PlaceCard.VisibleButtonIsAuthorised | app/src/main/java/com/touristguide/app/ui/main/PlacesAdapter.kt:59-92 | a visible edit or delete button has its permission flag and owner-or-admin; the action row shows iff one of its buttons does |
| PlaceCard.NeitherOwnerNorAdminSeesNothing | app/src/main/java/com/touristguide/app/ui/main/PlacesAdapter.kt:60-62 | without owner or admin no action shows, whatever the edit and delete flags say |
| PlaceCard.DefaultsShowNoActions | app/src/main/java/com/touristguide/app/data/model/Place.kt:23-31 | a place with default permissions, and default permission flags, show no action |
| PlaceCard.CardRating | app/src/main/java/com/touristguide/app/ui/main/PlacesAdapter.kt:47-51 | "New" iff the average is not positive; otherwise the average |
| PlaceCard.CardImage | app/src/main/java/com/touristguide/app/ui/main/PlacesAdapter.kt:44 | the first image, or none iff there are no images |
| CategoryIcons.IconFor | app/src/main/java/com/touristguide/app/ui/main/CategoryAdapter.kt:37-45 | each icon is chosen iff the lower-cased name is one of its singular, plural or synonym names |
| CategoryIcons.IconIgnoresCase | app/src/main/java/com/touristguide/app/ui/main/CategoryAdapter.kt:37 | names equal after lower-casing get the same icon |
| CategoryIcons.IconExamples | app/src/main/java/com/touristguide/app/ui/main/CategoryAdapter.kt:38-44 | mixed-case singular and plural names are recognised; "Temple" gets the logo |
| CategoryIcons.UnknownNamesGetLogo | app/src/main/java/com/touristguide/app/ui/main/CategoryAdapter.kt:44 | every name outside the thirteen listed gets the logo |
| ReviewCard.ViewerId | app/src/main/java/com/touristguide/app/ui/placedetails/PlaceDetailsActivity.kt:63-67 | the adapter's current user id is the stored user id, or "" when none is stored |
| ReviewCard.LoggedInSeesOwnDeletes | app/src/main/java/com/touristguide/app/ui/placedetails/ReviewsAdapter.kt:43-50 | after a login the delete button shows on a review iff its author id is the logged-in user's id |
| ReviewCard.LoggedOutSeesNoDeletes | app/src/main/java/com/touristguide/app/ui/placedetails/ReviewsAdapter.kt:43-50 | after a logout the delete button shows on a review iff its author id is empty, so on no review with an author |
| ReviewCard.FormatDate | app/src/main/java/com/touristguide/app/ui/placedetails/ReviewsAdapter.kt:54-61 | the first ten characters, or the whole of a shorter date; always a prefix |
| ReviewCard.FormatDateIdempotent | app/src/main/java/com/touristguide/app/ui/placedetails/ReviewsAdapter.kt:54-61 | formatting a formatted date changes nothing |
| ReviewCard.Stars | app/src/main/java/com/touristguide/app/ui/placedetails/ReviewsAdapter.kt:38 | exactly `rating` star characters |
| ReviewCard.StarsGrow | app/src/main/java/com/touristguide/app/ui/placedetails/ReviewsAdapter.kt:38 | one more rating point adds one star at the end |
| Details.Open | app/src/main/java/com/touristguide/app/ui/placedetails/PlaceDetailsActivity.kt:40-54 | a missing place id finishes the screen with a toast and no load; otherwise that place is loaded |
| Details.ReviewGate | app/src/main/java/com/touristguide/app/ui/placedetails/PlaceDetailsActivity.kt:221-229 | a review is sent iff the rating is positive and the comment is not blank, with the trimmed comment; otherwise only a reminder |
| Details.ReviewGateHasNoUpperBound | app/src/main/java/com/touristguide/app/ui/placedetails/PlaceDetailsActivity.kt:222-225 | a rating of 100 is sent |
| Details.ReviewGateRefusesSpaces | app/src/main/java/com/touristguide/app/ui/placedetails/PlaceDetailsActivity.kt:221-229 | a comment of spaces is refused |
| Details.LikeLabel | app/src/main/java/com/touristguide/app/ui/placedetails/PlaceDetailsActivity.kt:205-213 | "Unlike" iff liked, "Like" iff not |
| Details.RatingText | app/src/main/java/com/touristguide/app/ui/placedetails/PlaceDetailsActivity.kt:127-131 | the average and review count iff the average is positive; otherwise "No ratings yet" |
| Details.SliderUrls | app/src/main/java/com/touristguide/app/ui/placedetails/PlaceDetailsActivity.kt:134 | same length and order as the images; each entry is the base URL, less one trailing "/", followed by the path |
| Details.BlankLinkShowsWebsite | app/src/main/java/com/touristguide/app/ui/placedetails/PlaceDetailsActivity.kt:139-143 | a link of spaces still shows the visit-website button, although the edit form would trim it away and send no link |
| Details.SliderAgreesOnRelativePaths | app/src/main/java/com/touristguide/app/ui/placedetails/PlaceDetailsActivity.kt:134 | for a non-empty relative path the slider URL is the one `loadImage` uses |
| Details.SliderDiffersOnAbsoluteUrls | app/src/main/java/com/touristguide/app/ui/placedetails/PlaceDetailsActivity.kt:134 | for an absolute URL the slider still prefixes the base URL, unlike `loadImage` |
| Details.AddReviewResult | app/src/main/java/com/touristguide/app/ui/placedetails/PlaceDetailsActivity.kt:235-254 | both loads are repeated iff the call succeeded; otherwise the body's message, the default, or the exception's message |
| Details.DeleteReviewResult | app/src/main/java/com/touristguide/app/ui/placedetails/PlaceDetailsActivity.kt:267-283 | both loads are repeated iff the call succeeded; otherwise "Failed to delete review", or the exception's message |
| Details.LikeStateAfter | app/src/main/java/com/touristguide/app/ui/placedetails/PlaceDetailsActivity.kt:185-203 | success takes the server's like state and count (false and 0 without data); anything else keeps the old state |
| Details.SuccessfulToggleIgnoresOldState | app/src/main/java/com/touristguide/app/ui/placedetails/PlaceDetailsActivity.kt:190-195 | after a success the state does not depend on the state before: nothing is flipped locally |
| Details.ToggleToast | app/src/main/java/com/touristguide/app/ui/placedetails/PlaceDetailsActivity.kt:185-203 | a success or an exception toasts; a refusal is silent |
| Details.DetailsScreen.constructor | app/src/main/java/com/touristguide/app/ui/placedetails/PlaceDetailsActivity.kt:31-33 | no place, not liked, no reviews |
| Details.DetailsScreen.StartLoadPlaceDetails | app/src/main/java/com/touristguide/app/ui/placedetails/PlaceDetailsActivity.kt:92-93 | the loading indicator turns on |
| Details.DetailsScreen.CompleteLoadPlaceDetails | app/src/main/java/com/touristguide/app/ui/placedetails/PlaceDetailsActivity.kt:92-115 | a success with data shows the place, its like count, and the visit-website button iff the link is not null or empty; otherwise those stay as they were; a failure toasts and finishes the screen; loading ends |
| Details.DetailsScreen.CompleteLoadReviews | app/src/main/java/com/touristguide/app/ui/placedetails/PlaceDetailsActivity.kt:147-168 | a success replaces the reviews, with the empty label iff there are none; failures change nothing |
| Details.DetailsScreen.CompleteLoadLikeStatus | app/src/main/java/com/touristguide/app/ui/placedetails/PlaceDetailsActivity.kt:170-183 | a success takes the server's liked flag; failures change nothing |
| Details.DetailsScreen.CompleteToggleLike | app/src/main/java/com/touristguide/app/ui/placedetails/PlaceDetailsActivity.kt:185-203 | the new like state is `LikeStateAfter` of the old one, and the toast is `ToggleToast` |
| Details.DetailsScreen.CompleteAddReview | app/src/main/java/com/touristguide/app/ui/placedetails/PlaceDetailsActivity.kt:235-254 | the effect is `AddReviewResult`; a reload starts loading |
| Details.DetailsScreen.CompleteDeleteReview | app/src/main/java/com/touristguide/app/ui/placedetails/PlaceDetailsActivity.kt:267-283 | the effect is `DeleteReviewResult`; a reload starts loading |
| Session.GetString | app/src/main/java/com/touristguide/app/utils/PreferenceManager.kt:34-42 | null iff the key was never written; otherwise the stored string |
| Session.Saved | app/src/main/java/com/touristguide/app/utils/PreferenceManager.kt:22-32 | a save adds exactly the six session keys and leaves every other key as it was |
| Session.Cleared | app/src/main/java/com/touristguide/app/utils/PreferenceManager.kt:48-58 | a clear removes the five string keys, writes the flag, and leaves every other key as it was |
| Session.SaveThenRead | app/src/main/java/com/touristguide/app/utils/PreferenceManager.kt:22-46 | after a save the getters return what was saved, the user is logged in, and is an admin iff the role is "admin" |
| Session.AdminRoleIsExact | app/src/main/java/com/touristguide/app/utils/PreferenceManager.kt:46 | a missing role is not admin, and the role test is case-sensitive |
| Session.ClearThenRead | app/src/main/java/com/touristguide/app/utils/PreferenceManager.kt:48-58 | after a clear every getter returns null, and the user is neither logged in nor an admin |
| Session.FreshStore | app/src/main/java/com/touristguide/app/utils/PreferenceManager.kt:34-46 | an empty store is logged out, not admin, and returns null from every getter |
| Session.SaveOverwrites | app/src/main/java/com/touristguide/app/utils/PreferenceManager.kt:22-32 | the last save wins for every field |
| Session.ClearForgets | app/src/main/java/com/touristguide/app/utils/PreferenceManager.kt:48-58 | clearing is idempotent and forgets the last save |
| Session.StartScreen | app/src/main/java/com/touristguide/app/ui/splash/SplashActivity.kt:47-53 | the start screen is the main screen iff the user is logged in |
| Session.StartAfterSaveOrClear | app/src/main/java/com/touristguide/app/ui/splash/SplashActivity.kt:47-53 | after a save the app starts on the main screen; after a clear, on sign-in |
| Session.PreferenceManager.constructor | app/src/main/java/com/touristguide/app/utils/PreferenceManager.kt:6-11 | the store opens holding what earlier sessions wrote |
| Session.PreferenceManager.SaveAuthData | app/src/main/java/com/touristguide/app/utils/PreferenceManager.kt:22-32 | the new store is `Saved` of the old one, written key by key |
| Session.PreferenceManager.ClearAuthData | app/src/main/java/com/touristguide/app/utils/PreferenceManager.kt:48-58 | the new store is `Cleared` of the old one, written key by key |
| Session.PreferenceManager.Get | app/src/main/java/com/touristguide/app/utils/PreferenceManager.kt:34-42 | null iff nothing is stored under the key; otherwise the string stored there |
| Session.PreferenceManager.LoggedIn | app/src/main/java/com/touristguide/app/utils/PreferenceManager.kt:44 | true iff the logged-in flag is stored true |
| Session.PreferenceManager.Admin | app/src/main/java/com/touristguide/app/utils/PreferenceManager.kt:46 | true iff the stored role is exactly "admin" |
| Auth.ErrorsAfter | app/src/main/java/com/touristguide/app/ui/auth/AuthActivity.kt:163-224 | a failing check shows its error on its own field and every other label keeps what it showed; a pass clears the checked fields' errors |
| Auth.LoginError | app/src/main/java/com/touristguide/app/ui/auth/AuthActivity.kt:163-183 | no error iff the email is non-empty and valid and the password non-empty; each error iff every earlier check passes and its own fails |
| Auth.RegisterError | app/src/main/java/com/touristguide/app/ui/auth/AuthActivity.kt:185-224 | no error iff name, email and valid email are present, the password has six characters, and the confirmation matches; each of the six errors (empty name, empty email, invalid email, empty password, short password, mismatch) iff its own check fails and every earlier one passes |
| Auth.EmptyEmailReportedFirst | app/src/main/java/com/touristguide/app/ui/auth/AuthActivity.kt:163-224 | an empty email is reported whatever follows it, in both modes |
| Auth.LoginRequestFor | app/src/main/java/com/touristguide/app/ui/auth/AuthActivity.kt:77-91 | a request is sent iff the trimmed email and the untrimmed password pass validation; it carries the trimmed email |
| Auth.RegisterRequestFor | app/src/main/java/com/touristguide/app/ui/auth/AuthActivity.kt:118-135 | a request is sent iff the trimmed name and email and the untrimmed passwords pass validation |
| Auth.BlankEmailNeverSent | app/src/main/java/com/touristguide/app/ui/auth/AuthActivity.kt:78-84 | a blank email never reaches the server, in either mode |
| Auth.AuthResult | app/src/main/java/com/touristguide/app/ui/auth/AuthActivity.kt:92-114 | the session is saved, with navigation, iff the call succeeded with data; loading is hidden iff it failed; success without data does nothing; failures toast the body's message or the default |
| Auth.AuthScreen.constructor | app/src/main/java/com/touristguide/app/ui/auth/AuthActivity.kt:25 | starts in login mode, with no errors and no loading |
| Auth.AuthScreen.ToggleMode | app/src/main/java/com/touristguide/app/ui/auth/AuthActivity.kt:50-58 | flips the mode, so two toggles restore it |
| Auth.AuthScreen.ValidateLoginInputs | app/src/main/java/com/touristguide/app/ui/auth/AuthActivity.kt:163-183 | a failure sets only its own field's error; success clears the email and password errors |
| Auth.AuthScreen.ValidateRegisterInputs | app/src/main/java/com/touristguide/app/ui/auth/AuthActivity.kt:185-224 | a failure sets only its own field's error; success clears all four errors |
| Auth.AuthScreen.PerformLogin | app/src/main/java/com/touristguide/app/ui/auth/AuthActivity.kt:77-91 | the request is `LoginRequestFor` of the typed texts; the labels are `ErrorsAfter` of the login error of the trimmed email and the password; loading starts iff the request is sent |
| Auth.AuthScreen.PerformRegister | app/src/main/java/com/touristguide/app/ui/auth/AuthActivity.kt:118-135 | the request is `RegisterRequestFor` of the typed texts; the labels are `ErrorsAfter` of the register error of the trimmed name and email and the passwords; loading starts iff the request is sent |
| Auth.AuthScreen.Submit | app/src/main/java/com/touristguide/app/ui/auth/AuthActivity.kt:77-161 | login in login mode, registration otherwise: the request, the error labels and the loading state are those of the chosen path |
| Auth.AuthScreen.CompleteAuth | app/src/main/java/com/touristguide/app/ui/auth/AuthActivity.kt:92-114 | the store is `Saved` with the response's token, id, name, email and role exactly when `AuthResult` saves; otherwise it is unchanged |
| AddPlace.ErrorField | app/src/main/java/com/touristguide/app/ui/addplace/AddPlaceActivity.kt:187-203 | every error but the missing category has an input layout that shows it |
| AddPlace.ErrorFieldInjective | app/src/main/java/com/touristguide/app/ui/addplace/AddPlaceActivity.kt:187-199 | no two errors share a layout |
| AddPlace.LabelsAfter | app/src/main/java/com/touristguide/app/ui/addplace/AddPlaceActivity.kt:187-208 | a failing field shows its error and every other label keeps what it showed; a passing form clears all three labels |
| AddPlace.PlaceError | app/src/main/java/com/touristguide/app/ui/addplace/AddPlaceActivity.kt:180-203 | no error iff name, location and description are non-empty and a category is selected; each error iff every earlier check passes and its own fails |
| AddPlace.CityOrDefault | app/src/main/java/com/touristguide/app/ui/addplace/AddPlaceActivity.kt:211 | an empty city becomes "Surat"; any other city is kept |
| AddPlace.OmitEmpty | app/src/main/java/com/touristguide/app/ui/addplace/AddPlaceActivity.kt:231-233 | an optional part (the link, or the image parts) is sent iff it is not empty, and then unchanged; otherwise null |
| AddPlace.RemoveFirst | app/src/main/java/com/touristguide/app/ui/addplace/AddPlaceActivity.kt:78-81 | removes one copy of the URI if present, and nothing else |
| AddPlace.RemoveFirstSplits | app/src/main/java/com/touristguide/app/ui/addplace/AddPlaceActivity.kt:78-81 | in `before + [uri] + after` with no copy in `before`, removal gives `before + after`: the first copy goes and the order stays |
| AddPlace.UsableImages | app/src/main/java/com/touristguide/app/ui/addplace/AddPlaceActivity.kt:236-248 | exactly the usable selected URIs, never more than were selected |
| AddPlace.UsableImagesCounts | app/src/main/java/com/touristguide/app/ui/addplace/AddPlaceActivity.kt:236-248 | every copy of a usable selected URI gets a part, and no copy of an unusable one |
| AddPlace.UsableImagesAppend | app/src/main/java/com/touristguide/app/ui/addplace/AddPlaceActivity.kt:236-248 | the filter distributes over concatenation, so the parts follow selection order |
| AddPlace.AllUsableSendsAll | app/src/main/java/com/touristguide/app/ui/addplace/AddPlaceActivity.kt:236-248 | when every file is usable, every selected image is sent |
| AddPlace.ChooseEndpoint | app/src/main/java/com/touristguide/app/ui/addplace/AddPlaceActivity.kt:250-273 | update iff in edit mode with a place id, for that id; otherwise create |
| AddPlace.SubmitResult | app/src/main/java/com/touristguide/app/ui/addplace/AddPlaceActivity.kt:275-289 | the screen finishes iff the call succeeded; the toast for each outcome, with edit mode reporting "Place updated successfully" |
| AddPlace.EditModeWithoutIdCreates | app/src/main/java/com/touristguide/app/ui/addplace/AddPlaceActivity.kt:250-283 | in edit mode without an id a place is created, yet success reads "Place updated successfully" |
| AddPlace.AddPlaceScreen.constructor | app/src/main/java/com/touristguide/app/ui/addplace/AddPlaceActivity.kt:55-67 | no images, no categories, an empty spinner without an adapter, no selection; the place is loaded iff a submission would update |
| AddPlace.AddPlaceScreen.OnImagesPicked | app/src/main/java/com/touristguide/app/ui/addplace/AddPlaceActivity.kt:42-46 | a non-empty pick is appended in order, duplicates kept, and the counter shows the size; an empty pick changes nothing |
| AddPlace.AddPlaceScreen.OnRemoveImage | app/src/main/java/com/touristguide/app/ui/addplace/AddPlaceActivity.kt:78-81 | the list is `RemoveFirst` of the old one, and the counter shows the size |
| AddPlace.AddPlaceScreen.CompleteLoadCategories | app/src/main/java/com/touristguide/app/ui/addplace/AddPlaceActivity.kt:119-142 | only a success replaces the categories, and the spinner then lists the header and their names; only an exception toasts |
| AddPlace.AddPlaceScreen.OnCategorySelected | app/src/main/java/com/touristguide/app/ui/addplace/AddPlaceActivity.kt:96-98 | records the category the position selects |
| AddPlace.AddPlaceScreen.CompleteLoadPlaceData | app/src/main/java/com/touristguide/app/ui/addplace/AddPlaceActivity.kt:144-177 | a place fills the five texts and selects its category when that category is known; an unknown one changes no selection; without a place no text or selection changes; a failure finishes the screen; only the texts, the selection and the loading flag can change |
| AddPlace.AddPlaceScreen.BuildImageParts | app/src/main/java/com/touristguide/app/ui/addplace/AddPlaceActivity.kt:236-248 | the parts built one by one are `UsableImages` of the selection |
| AddPlace.AddPlaceScreen.BuildRequest | app/src/main/java/com/touristguide/app/ui/addplace/AddPlaceActivity.kt:211-273 | the request carries the fields, the defaulted city, the optional link, the selected category, the usable images and the chosen endpoint |
| AddPlace.AddPlaceScreen.SubmitTrimmed | app/src/main/java/com/touristguide/app/ui/addplace/AddPlaceActivity.kt:186-211 | a request is built iff the form passes; the labels become `LabelsAfter` of the error; only a missing category toasts; loading starts iff a request is sent |
| AddPlace.AddPlaceScreen.ValidateAndSubmit | app/src/main/java/com/touristguide/app/ui/addplace/AddPlaceActivity.kt:179-273 | a request is built iff the trimmed form passes; a failure sets only its own error, or toasts for the category; the request carries the trimmed fields, the defaulted city, the optional link, the usable images and the chosen endpoint |
| AddPlace.AddPlaceScreen.CompleteSubmit | app/src/main/java/com/touristguide/app/ui/addplace/AddPlaceActivity.kt:275-291 | the effect is `SubmitResult`; loading always ends |
| Extensions.PasswordBoundary | app/src/main/java/com/touristguide/app/utils/Extensions.kt:37-39 | five characters are refused, six accepted |
| Extensions.PrefixBase | app/src/main/java/com/touristguide/app/utils/Extensions.kt:56 | the base URL, less one trailing "/", followed by the path; the result ends with the path |
| Extensions.ResolveImage | app/src/main/java/com/touristguide/app/utils/Extensions.kt:45-57 | the placeholder iff the path is null or empty; an absolute URL unchanged; otherwise the prefixed path |
| Extensions.ResolvedEndsWithPath | app/src/main/java/com/touristguide/app/utils/Extensions.kt:51-57 | a loaded URL always ends with its path |
| Extensions.TrailingSlashIrrelevant | app/src/main/java/com/touristguide/app/utils/Extensions.kt:56 | a base URL with or without its trailing "/" resolves alike |
| Liked.LikedToast | app/src/main/java/com/touristguide/app/ui/liked/LikedPlacesActivity.kt:80-85 | a toast iff the load failed: the exception's message or "Failed to load liked places" |
| Liked.LikedScreen.constructor | app/src/main/java/com/touristguide/app/ui/liked/LikedPlacesActivity.kt:24-31 | an empty list, refresh indicator off |
| Liked.LikedScreen.StartLoad | app/src/main/java/com/touristguide/app/ui/liked/LikedPlacesActivity.kt:62-63 | the refresh indicator turns on |
| Liked.LikedScreen.CompleteLoad | app/src/main/java/com/touristguide/app/ui/liked/LikedPlacesActivity.kt:62-89 | the list is `Refreshed`; on success the empty label shows iff it is empty; the indicator turns off |
| Liked.LikedShowsUnapproved | app/src/main/java/com/touristguide/app/ui/liked/LikedPlacesActivity.kt:70-71 | an unapproved liked place is shown: there is no approval filter |
| MyPlaces.MyPlacesToast | app/src/main/java/com/touristguide/app/ui/myplaces/MyPlacesActivity.kt:77-81 | a toast iff the load failed: the body's message, the default, or the exception's message |
| MyPlaces.MyPlacesScreen.constructor | app/src/main/java/com/touristguide/app/ui/myplaces/MyPlacesActivity.kt:22-32 | an empty list, no indicators |
| MyPlaces.MyPlacesScreen.StartLoad | app/src/main/java/com/touristguide/app/ui/myplaces/MyPlacesActivity.kt:60-61 | the progress bar shows; a pull also shows the refresh indicator |
| MyPlaces.MyPlacesScreen.CompleteLoad | app/src/main/java/com/touristguide/app/ui/myplaces/MyPlacesActivity.kt:60-87 | the list is `Refreshed`; an empty result shows the empty state and leaves the adapter alone; a non-empty one goes to the adapter; both indicators turn off |

## Left out

- Transport: `ApiService.kt` (the Retrofit interface) is replaced by the abstract `Outcome`.
- Response types: the declared response type of `getPlaces` (`ApiService.kt` lines 27-31) differs from how `MainActivity.kt` lines 155-158 reads the body. The same holds for `getPendingPlaces` (line 68) and `AdminPanelActivity.kt` lines 65-66. The model uses the body shape the screens read.
- Concurrency: each coroutine is one atomic completion step. Several triggers start independent loads, so no order between requests and no "last request wins" rule is modelled.
- Drawing: dialogs, Glide loading, visibility beyond the modelled flags, and spinner adapters are left out. So are the decision-free adapters: the selected-images, image-slider and pending-places adapters.
- Spinner re-selection: replacing a spinner's adapter re-selects position 0 and fires the listener again. This is left out.
- Splash and app start: `TouristGuideApp.kt` and the splash delay are left out; only the routing decision is modelled.
- `Text.Lower` and `Text.Trim` are ASCII-only. Kotlin's Unicode case mapping and whitespace set are not modelled.
- `isValidEmail` is the parameter `isEmail`, because it relies on a platform regular expression.
- Image files: whether a picked URI yields a readable file is the parameter `usable`. The file copying itself is left out.
- `BuildConfig.BASE_URL` is a parameter.
- Numbers: the average rating is a `real` compared with zero; its "%.1f" formatting is not modelled. The review dialog's rating is an integer input, `ratingBar.rating.toInt()`.
- String resources (`R.string.*`) are symbolic `SayResource` ids. Their texts are not modelled.
- `Session.PreferenceManager.constructor`: requires each session key to hold the kind of value its getter reads. A foreign value of the wrong type would make the Kotlin getter throw; that path is not modelled.
- `Session.GetString`: requires a well-typed store and a string key, for the same reason.
- `ReviewCard.Stars`: requires a rating of at least zero, because `repeat` throws on a negative count; the crash is not modelled.
- `MyPlaces.MyPlacesScreen.CompleteLoad`: the adapter is given a copy of the list, not the same mutable list object, so aliasing between the two is not modelled.
- List diffing: the `DiffUtil` callbacks of the places, categories and reviews adapters (same item by id, same contents by data-class equality) only steer RecyclerView's update animations. The model keeps each list as a value and leaves them out.
- Menus: the main screen's options menu (admin entry, logout) is not modelled beyond `Session.ClearAuthData`.
