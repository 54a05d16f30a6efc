# Fitness app state holders, in Dafny

This project models the state holders and event handlers of a React Native
fitness app. It covers the session store, the forum and thread screens, the
food library and product screen, the calories tracker, the shared profile,
the sign-in and profile-details forms, and the backend address helper. Each
one is modelled as it appears in the app's source, and properties of the
model are proved.

Replies of the backend are inputs of the handlers (`Http.Reply`: a response
with its status and body text, or a transport failure). SecureStore and
AsyncStorage are one `Storage.KeyValueStore` class, whose `entries` map is
updated in place. Screens become classes whose fields are their React
state cells, so each handler is a method with `modifies` and `ensures`
clauses. Pure pieces are functions with lemmas beside them: the record
normalisation, the like toggle, the splice, the patch merge and the URL
join.

JSON text is a concrete codec (module `Json`) with a proved round trip,
`Parse(Serialize(v)) == Some(v)`. Every stored blob and every response body
goes through this codec. JavaScript's coercions are written out in module
`JsValues`. These are truthiness, `a || b`, `a ?? b`, property reads that
throw on `null`, `Number(x)`, `String(x)` and `trim`. `undefined` is
`None` and `NaN` is its own value.

## Model

| member | source | states |
|---|---|---|
| Storage.KeyValueStore.GetItem | components/AuthContext.tsx:18 | the read gives the stored text under the key, or nothing when the key is absent |
| Storage.KeyValueStore.SetItem | components/AuthContext.tsx:39 | a write changes the entry under its key and no other |
| Storage.KeyValueStore.RemoveItem | components/AuthContext.tsx:35 | a delete removes the key, and a missing key is no error |
| Json.RoundTrip | components/AuthContext.tsx:18-39 | parsing the text `JSON.stringify` writes gives back the same value, so anything stored is read back intact |
| Json.Serialize | components/AuthContext.tsx:39 | the text `JSON.stringify` writes is never empty, starts with `"`, `[` or `{` exactly for a string, an array or an object, and never with a closing bracket or brace |
| Json.Parse | components/AuthContext.tsx:20 | the empty text is a SyntaxError, and a value is read only when no text follows it |
| Json.StringifyEscapesShort | app/ScanResult.tsx:57 | a quote and a line break inside a string are written `\"` and `\n` |
| Json.StringifyEscapesControl | app/ScanResult.tsx:57 | another control character is written as a lower-case `\u00XX` escape |
| Json.ParseRejectsLeadingZero | components/AuthContext.tsx:20 | `01` and `-01` are SyntaxErrors |
| Json.ParseRejectsRawControl | components/AuthContext.tsx:20 | a raw line break inside a string literal is a SyntaxError |
| Json.ParseReadsEscapes | components/AuthContext.tsx:20 | a `\u` escape and the escaped `/` are read as the characters they stand for |
| JsValues.TrimIsEmptyIff | app/forum.tsx:158-159 | `s.trim()` is empty exactly when every character of `s` is white space |
| JsValues.TrimHasNoSpaceEdges | app/login.tsx:48 | `s.trim()`, when not empty, neither starts nor ends with white space |
| JsValues.TrimIsSlice | app/login.tsx:48 | `s.trim()` is a contiguous slice of `s` |
| JsValues.StringOr | app/login.tsx:74-79 | `String(v ?? fallback)` is the fallback for `null`/`undefined` and the string itself for a string |
| JsValues.StringToNumberOfIntText | app/calories.tsx:124 | `Number` of the text `String(n)` writes for an integer is `n` |
| Http.MapOrThrow | app/forum.tsx:45-51 | `.map` of a throwing normaliser succeeds exactly when every element normalises; the result then has one entry per element, in order |
| Http.FetchList | app/forum.tsx:35-52 | the load stops with the status and body exactly when the response is not ok, a transport failure is thrown with its message, and a list is produced only for an ok JSON body, one entry per array element (the comment load of app/Thread.tsx:25-39 is the same) |
| Http.FetchListOk | app/forum.tsx:43-52 | an ok reply with an array body yields one normalised entry per element, in order; any other JSON body yields the empty list |
| Http.FetchListFails | app/forum.tsx:35-41 | a non-ok reply yields its status and body, and a transport failure yields its message; neither yields a list |
| Http.ServerMessage | app/login.tsx:67 | `(data && data.message) \|\| fallback` is the fallback when the body was `{}` or `null` |
| Http.ServerMessageShown | app/login.tsx:63-67 | a non-empty `message` string sent in the body is the message shown |
| Session.StringIdIsKept | components/AuthContext.tsx:34 | a user whose `id` reads as a string, even the empty one, passes the `u.id == null` check and is persisted |
| Session.HasId | components/AuthContext.tsx:34 | `u && u.id != null` holds exactly for an object whose `id` is present and not `null` |
| Session.LoadedUser | components/AuthContext.tsx:18-21 | a stored text that parses becomes the user; a missing entry or a text that does not parse keeps the current one |
| Session.PersistUser | components/AuthContext.tsx:34-39 | the entry exists exactly when the user has an id, it then parses back to the user, and every other key is unchanged |
| Session.SetUserThenReload | components/AuthContext.tsx:18-39 | after `setUser(u)` with an id, the entry exists and the launch effect reads `u` back, whatever user it started with |
| Session.SetUserWithoutIdForgets | components/AuthContext.tsx:34-37 | `setUser` with a null or id-less user deletes the entry, so a relaunch keeps its starting user |
| Session.PersistUserOnlyTouchesKey | components/AuthContext.tsx:34-39 | `setUser` changes no key but `auth.user` |
| Session.ClearIdempotent | components/AuthContext.tsx:42-45 | clearing twice equals clearing once, and a relaunch then finds no user |
| Session.AuthProvider.constructor | components/AuthContext.tsx:11-12 | the provider starts with no user and not ready |
| Session.AuthProvider.LoadStored | components/AuthContext.tsx:15-28 | the launch effect leaves `isReady` true on every path, even a failed read; the user becomes the parsed stored blob when one is there, else stays |
| Session.AuthProvider.SetUser | components/AuthContext.tsx:31-40 | the in-memory user becomes `u` always; the entry holds `u`'s JSON text when `u` has an id and is deleted otherwise |
| Session.AuthProvider.ClearUser | components/AuthContext.tsx:42-45 | the user is `null` and the `auth.user` entry is gone; `isReady` is unchanged |
| Session.AuthProvider.SignOut | components/AuthContext.tsx:47-49 | sign-out has exactly the effect of `clearUser` |
| Session.SignInThenRelaunch | components/AuthContext.tsx:15-40 | running `setUser(u)` on one provider and the launch effect on a fresh one over the same SecureStore restores `u` |
| LegacySession.SetUserThenReload | app/AuthContext.tsx:18-28 | the older store reloads whatever was set, `null` and id-less users included, and that reload does not reject |
| LegacySession.PersistUser | app/AuthContext.tsx:26-28 | the entry is always written, parses back to the user, and every other key is unchanged |
| LegacySession.LoadRejects | app/AuthContext.tsx:17-22 | a failed read always rejects; with no entry, an empty one or one that parses, the effect rejects only if the read failed |
| LegacySession.VariantsDifferExactlyOnIdless | app/AuthContext.tsx:26-29 | the two stores write the same entries exactly when the user has an id; for an id-less user the newer deletes and the older persists and restores it |
| LegacySession.AuthProvider.constructor | app/AuthContext.tsx:11-12 | the older provider starts with no user and not ready |
| LegacySession.AuthProvider.LoadStored | app/AuthContext.tsx:15-24 | `isReady` is raised in `finally` on every path; the effect rejects exactly when the read fails or a stored text does not parse |
| LegacySession.AuthProvider.SetUser | app/AuthContext.tsx:26-29 | the in-memory user is `u`, and its JSON text is written unconditionally |
| LegacySession.AuthProvider.ClearUser | app/AuthContext.tsx:31-34 | the user is `null` and the `auth.user` entry is removed |
| Config.ApiBase | config.ts:11 | the base is one of the three configured addresses; any platform but Android or web gets the LAN address |
| Config.Api | config.ts:13-17 | every URL starts with the base, and it equals the base exactly when the path is empty |
| Config.ApiJoinsWithOneSlash | config.ts:15-16 | for a non-empty path the URL is the base, one `/`, then the path without its leading `/` if it has one |
| Config.ApiSlashInsensitive | config.ts:15-16 | `api("x")` equals `api("/x")` for a non-empty `x` without a leading slash |
| Config.ApiBaseIsHttp | config.ts:7-11 | every base is an `http://` address on port 8080 |
| Profile.DefaultProfile | app/ProfileContext.tsx:20-24 | the initial profile has the placeholder name and a `null` avatar |
| Profile.Merge | app/ProfileContext.tsx:32 | each field the patch carries wins and every other field is kept |
| Profile.MergeEmpty | app/ProfileContext.tsx:32 | an empty patch leaves the profile unchanged |
| Profile.MergeIdempotent | app/ProfileContext.tsx:32 | applying a patch twice equals applying it once |
| Profile.MergeThen | app/ProfileContext.tsx:32 | two patches in a row act as one patch in which the later value of each field wins |
| Profile.MergeFixed | app/ProfileContext.tsx:32 | a patch leaves the profile unchanged exactly when every field it carries already has that value |
| Profile.ProfileProvider.constructor | app/ProfileContext.tsx:29 | the provider starts with the default profile |
| Profile.ProfileProvider.SetProfile | app/ProfileContext.tsx:31-33 | `setProfile(patch)` leaves the merge of the previous profile with the patch |
| Library.SpliceStart | app/library.tsx:60 | the start index `splice` uses, including negative indices counted from the end, is always within the list |
| Library.Splice | app/library.tsx:59-60 | within range, the copy is one shorter, keeps the items before and after the index in order, and loses exactly that item as a multiset; out of range, it is unchanged |
| Library.SafeNum | app/library.tsx:138-140 | a number is shown as itself and anything else as `"-"` |
| Library.LoadedLibrary | app/library.tsx:33-34 | a stored text holding a JSON array becomes the list; no entry, a text that does not parse or one holding another value keeps the current list |
| Library.WrittenListReloads | app/library.tsx:33-34 | a list written back as JSON is the list the next mount loads |
| Library.LibraryScreen.constructor | app/library.tsx:25 | the first render shows an empty list |
| Library.LibraryScreen.Mount | app/library.tsx:30-40 | the mount effect shows the stored list when there is one and keeps the current list otherwise |
| Library.LibraryScreen.RemoveItem | app/library.tsx:58-63 | the list loses the item at the index, and the stored `library` entry holds exactly the new list |
| Library.LibraryScreen.ConfirmClear | app/library.tsx:49-52 | the `library` entry is removed and the list is empty, and so is the list a remount then loads |
| Library.RemoveThenRemount | app/library.tsx:30-63 | removing an item and then reopening the library shows the spliced list |
| ScanResult.DecodeProduct | app/ScanResult.tsx:33-40 | the text used is the parameter or, when repeated, its first value; it decodes to its parsed JSON, and to `null` when it is missing, empty or does not parse |
| ScanResult.DecodeWrittenProduct | app/ScanResult.tsx:33-40 | a product written as JSON, alone or as the first of a repeated parameter, decodes to itself |
| ScanResult.AddedLibrary | app/ScanResult.tsx:51-55 | a missing or empty stored list counts as empty, so adding gives the one-item list; a saved array gains the product at its end; a text that does not parse or holds no array throws, so nothing is written |
| ScanResult.AddToSavedList | app/ScanResult.tsx:51-57 | the list written after adding to a saved list is one longer, starts with the saved items in their order and ends with the product |
| ScanResult.ScanResultScreen.constructor | app/ScanResult.tsx:24-27 | the screen starts not saving |
| ScanResult.ScanResultScreen.AddToLibrary | app/ScanResult.tsx:46-65 | without a product nothing changes; otherwise the stored list gains the product at its end, or stays as it was when it cannot be extended, and `saving` is false afterwards |
| ScanResult.AddThenOpenLibrary | app/ScanResult.tsx:46-65 | adding a product and then opening the library shows the earlier list with the product last |
| Forum.NormalisePost | app/forum.tsx:45-51 | only `null` throws; `comments` is 0, `id` is `Number(p.id)`, and `likes` is 0 exactly when `Number(p.likes)` is `NaN` or 0 |
| Forum.NormalisePostJson | app/forum.tsx:185-191 | normalising a post sent back as JSON gives that post |
| Forum.SetLikes | app/forum.tsx:108-122 | the toggle keeps length, order and every other field; it sets `comments` to 0 everywhere and moves likes by one only on posts whose id is `=== id`, never below zero |
| Forum.LikeThenUnlike | app/forum.tsx:104-124 | liking then unliking gives every post its likes back when the count was not negative; only the comment counts are reset |
| Forum.LikesStayNonNegative | app/forum.tsx:111 | a toggle never makes a non-negative like count negative |
| Forum.RemoveById | app/forum.tsx:80 | the filter keeps exactly the posts whose id is not `===` the deleted id |
| Forum.RemoveByIdKeepsOrder | app/forum.tsx:80 | the filter distributes over concatenation, so survivors keep their order |
| Forum.RemoveByIdIdempotent | app/forum.tsx:80 | deleting the same id twice removes nothing more |
| Forum.RemoveNaNKeepsAll | app/forum.tsx:80 | a `NaN` id is `!==` to every id, so deleting it keeps every post |
| Forum.NewPostJson | app/forum.tsx:165-170 | the body carries the fixed author, the trimmed draft and zero likes and comments |
| Forum.CreatedPost | app/forum.tsx:181-192 | a non-ok reply adds nothing; an ok one adds a post exactly when its body is JSON other than `null`, with `comments` 0 and the id read with `Number` |
| Forum.FetchStatus | app/forum.tsx:38-58 | "ok" is recorded exactly when the load produced a list, a failed status as `failed: <status>`, and a thrown error as "error" |
| Forum.FetchError | app/forum.tsx:39-59 | no error is recorded exactly when the load produced a list; otherwise the body or the thrown message |
| Forum.ForumScreen.constructor | app/forum.tsx:18-24 | the screen starts empty, with no draft, closed and with no fetch status |
| Forum.ForumScreen.LoadPosts | app/forum.tsx:30-62 | a list read replaces the posts and records "ok"; any failure keeps the posts and records `failed: <status>` with the body, or "error" with the message |
| Forum.ForumScreen.ToggleLike | app/forum.tsx:102-127 | a liked id leaves `likedIds` and its post loses a like; any other id is added and its post gains one; every post's `comments` is reset to 0; the other fields are unchanged |
| Forum.ForumScreen.DeletePost | app/forum.tsx:73-91 | the post list loses the id's posts only on an ok reply; otherwise nothing changes |
| Forum.ForumScreen.HandlePost | app/forum.tsx:157-207 | a blank draft sends nothing and changes nothing; otherwise the trimmed draft is sent, a created post is put first and the draft cleared, and `isPosting` ends false |
| Forum.ForumScreen.Publish | app/forum.tsx:181-206 | a created post is prepended, the draft cleared and the form closed; with none, the list, draft and form are unchanged; `isPosting` is false |
| Thread.NormaliseComment | app/Thread.tsx:32-38 | only `null` throws; `id` and `postId` go through `Number`, and `likes` is 0 exactly when `Number(c.likes)` is `NaN` or 0 |
| Thread.NormaliseCommentJson | app/Thread.tsx:82-88 | normalising a comment written as JSON gives that comment |
| Thread.Draft | app/Thread.tsx:55-61 | the draft has id 0, the thread's post id, the fixed author, the given content and no likes |
| Thread.CreatedComment | app/Thread.tsx:73-88 | a non-ok reply adds nothing; an ok one adds a comment exactly when its body is JSON other than `null`, with the id read with `Number` |
| Thread.EchoedDraftIsShown | app/Thread.tsx:67-89 | a server that answers ok with the draft under a new id makes the screen show that draft under that id |
| Thread.ThreadScreen.constructor | app/Thread.tsx:17-18 | the screen starts with no comments and no text |
| Thread.ThreadScreen.Load | app/Thread.tsx:20-45 | a list read replaces the comments, and any failure keeps them |
| Thread.ThreadScreen.PostComment | app/Thread.tsx:47-96 | a blank text sends nothing; otherwise the draft with the trimmed text is sent, and a created comment is put first and the text cleared; on failure the list and text are unchanged |
| Thread.ThreadScreen.AddCreated | app/Thread.tsx:80-90 | a created comment goes first in the list and the text is cleared; without one both are kept |
| Login.IsValidIff | app/login.tsx:48 | the form is valid exactly when the username is not all white space and the password has at least 6 characters |
| Login.NullableNumber | app/login.tsx:77-78 | `null` or `undefined` gives `null`, and a number is kept |
| Login.LoginBodyFields | app/login.tsx:60 | the request carries the trimmed username and the password as typed |
| Login.LoginUser | app/login.tsx:73-80 | the user's `id` and `username` are `String(data.x ?? fallback)`, and `height` and `weight` are `Number` of the sent value or `null` |
| Login.LoginMessage | app/login.tsx:66-71 | a transport failure shows its message, a non-ok reply the server's message or the default, and an ok reply the success text exactly when its body is not `null` |
| Login.LoginUserFields | app/login.tsx:73-80 | the user's `id` is `""` without one from the server, `username` falls back to the trimmed input, and height and weight are `null` when missing; the id always passes the persistence check |
| Login.SignedInUser | app/login.tsx:66-82 | a user is handed to the session store exactly when the reply is ok with a body other than `null` |
| Login.LoginOutcomes | app/login.tsx:66-71 | a sign-in shows the success text and the user has an id; a non-ok reply shows the server's message or the default text and signs nobody in |
| Login.SessionAfter | app/login.tsx:73-82 | a signed-in user becomes the session user and is written under `auth.user`; otherwise the session is unchanged |
| Login.SignInSurvivesRelaunch | app/login.tsx:73-82 | after a successful sign-in, a relaunch of the app restores the signed-in user |
| Login.LoginScreen.constructor | app/login.tsx:39-45 | the form starts empty and not submitting |
| Login.LoginScreen.OnLogin | app/login.tsx:52-90 | an invalid form or a sign-in in progress sends nothing and changes nothing; otherwise the trimmed username and the password are sent, the outcome's message is shown, the session is updated and `isSubmitting` ends false |
| Login.LoginScreen.Submit | app/login.tsx:54-89 | the trimmed username and the password are sent, the reply's message is shown, the session is updated as `SessionAfter` says, and `isSubmitting` is false on every path |
| UserInfo.RowPrefix | app/user_info.tsx:26-28 | the inner loop's first `n` options are the options for inches 0 to `n - 1` of one foot value |
| UserInfo.HeightOptions | app/user_info.tsx:23-31 | the table has 12 options per foot value in the range |
| UserInfo.BuildHeightOptions | app/user_info.tsx:23-31 | the nested loops build exactly the table, row by row in order of feet |
| UserInfo.BuildRow | app/user_info.tsx:26-28 | the inner loop builds exactly the twelve options of one foot value, by inches 0 to 11 |
| UserInfo.FormTable | app/user_info.tsx:48 | the form's 4 to 7 feet table has 48 options, from 48 to 95 inches |
| UserInfo.OptionValues | app/user_info.tsx:25-28 | option `k` has value `minFeet * 12 + k` and is the option of some foot value in range and inch count 0 to 11, label included |
| UserInfo.FilterWeight | app/user_info.tsx:240 | the filtered text holds only digits and `.`, and each of those characters as often as the input does |
| UserInfo.FilterWeightConcat | app/user_info.tsx:240 | the filter distributes over concatenation, so it keeps characters in their order |
| UserInfo.FilterWeightKeeps | app/user_info.tsx:240 | a text of digits and dots passes the filter unchanged |
| UserInfo.FilterWeightIdempotent | app/user_info.tsx:240 | filtering twice is filtering once |
| UserInfo.ParseFloat | app/user_info.tsx:55 | a parsed weight's fraction is a run of digits |
| UserInfo.ParseFloatOfWhole | app/user_info.tsx:55 | a whole number typed as its digits parses to itself, and it is positive exactly when it is not 0 |
| UserInfo.SaveInfoError | app/user_info.tsx:68-83 | the checks run height, weight, sex, goal in that order; each message appears exactly when the earlier checks pass and its own fails, and there is none exactly when all pass |
| UserInfo.SignupBody | app/user_info.tsx:92-99 | the request carries `String(id)`, the height in inches, the parsed weight and the sex |
| UserInfo.SavedUser | app/user_info.tsx:117-125 | the saved user carries the height, weight and sex that were sent |
| UserInfo.SaveOutcome | app/user_info.tsx:104-113 | the user is signed in exactly when the reply is ok; a transport failure shows its message and a non-ok reply the server's message or the default |
| UserInfo.IsValid | app/user_info.tsx:140-146 | a form that enables the Save button passes every check of the handler (lines 68-83) and is not being submitted |
| UserInfo.IsValidIsStricter | app/user_info.tsx:140-146 | the converse fails: the handler accepts a sex other than male or female, which the button does not |
| UserInfo.SavedUserId | app/user_info.tsx:117-118 | the saved user's `id` is `String(id)`, so the session store persists it |
| UserInfo.SavedUserUsername | app/user_info.tsx:119 | the saved `username` is `""` when the route carries none |
| UserInfo.UserInfoScreen.constructor | app/user_info.tsx:40-46 | the form starts at 66 inches with every text empty |
| UserInfo.UserInfoScreen.ChangeWeight | app/user_info.tsx:240 | the weight field holds the filtered text and only digits and dots |
| UserInfo.UserInfoScreen.OnSaveInfo | app/user_info.tsx:52-138 | the first failed check shows its message and sends nothing; a save in progress sends nothing; otherwise the form is sent, the reply's message shown, the user signed in on success only, and `isSubmitting` ends false |
| Calories.PushedProductReachesScanResult | app/calories.tsx:98-101 | the product either path pushes decodes on the product screen to itself and is truthy |
| Calories.OrNull | app/calories.tsx:93-95 | `x \|\| null` is the value when it is truthy and `null` otherwise |
| Calories.ProductUrl | app/calories.tsx:77-79 | the address is the fixed prefix, then exactly the barcode, then `.json` |
| Calories.ScannedProduct | app/calories.tsx:84-96 | a missing product or missing nutriments throw; name and brand fall back to fixed texts; calories prefer per serving, then per 100 g, then `null`; each nutrient is truthy or `null` |
| Calories.ScanOutcome | app/calories.tsx:76-108 | a transport or parse failure is an error; a product is found only for `status` 1; any other status is Not Found, and only that |
| Calories.ServedBodyOutcome | app/calories.tsx:80-104 | a served body with status other than 1 is Not Found; with 1, the product record is built from the served product, whatever the HTTP status |
| Calories.ManualNumber | app/calories.tsx:124-127 | `Number(x) \|\| null` is `null` exactly when the text reads as 0 or not as a number, and otherwise the number read |
| Calories.ManualNumberOfIntText | app/calories.tsx:124 | a typed integer is kept unless it is 0, and an empty field gives `null` |
| Calories.ManualProduct | app/calories.tsx:115-128 | there is a product exactly when the name is not blank; it has the trimmed name, the brand or the fixed text for an empty one, and the numbers through `Number(x) \|\| null` |
| Calories.CaloriesScreen.constructor | app/calories.tsx:32-45 | the screen starts with no scanner, nothing scanned and empty fields |
| Calories.CaloriesScreen.StartScanner | app/calories.tsx:176-179 | the scanner opens and a new scan is accepted |
| Calories.CaloriesScreen.HandleBarcodeScanned | app/calories.tsx:70-109 | once scanned, further callbacks do nothing; otherwise the lookup is requested, loading stops, and a found product is pushed or the Not Found or Error alert shown |
| Calories.CaloriesScreen.OnManualSubmit | app/calories.tsx:115-134 | a blank name alerts and pushes nothing; otherwise the typed product is pushed |
| Calories.ScanTwiceThenRestart | app/calories.tsx:71-72 | a second barcode before Start Scanner sends no lookup, and one after it does |

`Library.SafeNum` also models `safeNum` of app/ScanResult.tsx:157-159,
which is the same function.

## Left out

- Rendering, navigation, alerts and console logs. An alert or a navigation is a value returned by the handler (`Calories`), or it is dropped.
- Sharing a post, the camera permission flow and the `manualMode` toggle of the calories screen. These are foreign library calls or pure view state.
- The backend, `fetch` and the OpenFoodFacts service. Their replies are inputs of the handlers.
- Asynchronous interleaving. Each handler runs to completion before the next one starts, as the app has no request guards.
- `encodeURIComponent`/`decodeURIComponent` on route parameters and on URLs. They are treated as the identity.
- Json.Parse: white space between tokens, fractions and exponents in numbers, and `\u` escapes of surrogate code units are not read; such text reads as a parse failure, where `JSON.parse` accepts it. Strings are sequences of code points, so a surrogate pair written by the server cannot be joined into one character.
- JsValues.StringToNumber: `Number(s)` is exact only for white space, a sign and decimal digits. Any other text, including a decimal point or an exponent, is `NaN`. Numbers are integers throughout; floating point is not modelled.
- Login.NullableNumber: a `NaN` height or weight is stored as `null`, because the JSON model has no `NaN`. `JSON.stringify` writes `null` for it too.
- UserInfo.ParseFloat: `parseFloat` is modelled only on text of digits and dots, which is all the weight field can hold. The weight sent and stored is the whole part.
- Library.LoadedLibrary and Library.LibraryScreen.Mount: a stored text that parses to a JSON value other than an array leaves the list unchanged. The app would put that value into state; the list is typed as a sequence of values here.
- Storage.KeyValueStore: reads and writes never fail. The one exception is the session launch read, whose failure is the `readFails` input.
- Login.IsValid: the password length is counted in Unicode code points, not UTF-16 units.
- Http.ServerMessage: a non-string `message` is shown as its `String(...)` text. The app would put the raw value into state.
- Login.LoginScreen.Submit: `serverMessage` is assigned once, with the final message. On a successful reply with a `null` body, the app first shows the success text and then the TypeError message.
- Profile.Merge: a patch that carries a field explicitly set to `undefined` is not modelled. A field is either carried or absent.
- Forum.ForumScreen.DeletePost: the author check that shows the delete button (app/forum.tsx:70) is not a precondition. Any post can be deleted.
- Thread.ThreadScreen: the `post` route parameter is not modelled. It is only displayed.
- Password reset, image upload, the dashboard, the animated index screen and the commented-out registration screen are not part of this model.
