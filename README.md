# A small social network: browser session, field rules and Lambda handlers

This project models the logic of a small social-networking site in Dafny. Users keep a profile (display name, bio, political alignment, a privacy flag). They write posts and comment on them. They like posts and comments.

The model has two halves:

- **The browser.**
  - The session store (`src/website/auth.js`). It builds the identity provider's implicit-grant URLs. It takes the tokens from the redirect fragment and keeps them in localStorage. It checks the id token's expiry and picks the page after login.
  - The field rules (`src/website/validators.js`).
  - The date helpers (`src/website/date-utils.js`).
- **The server.**
  - The same field rules in Python (`src/api/utils/validators.py`).
  - The event accessors (`src/api/utils/helpers.py`).
  - Every profile and post Lambda handler. Each handler is a method of class `Backend.Tables`. The class holds the four DynamoDB tables as maps:
    - profiles, keyed by `user_id`;
    - posts, keyed by `post_id`;
    - comments, keyed by `(post_id, comment_id)`;
    - likes, keyed by `(target_id, user_id)`.

Each handler checks its inputs in the order the source does. It answers with a `Lambda.Response`. It changes at most one entry of one table. The messages are the source's own. An exception that escapes to the `error_handler` decorator becomes `Unhandled(error)`, naming the exception the source raises. The event and body accessors raise KeyError, TypeError, AttributeError and JSONDecodeError as the source does. DynamoDB faults are modelled only where a handler catches them itself (`create_post`).

The handlers share one invariant, `Backend.Tables.Valid()`. Every item is stored under its own key attributes. Every post and comment carries a string `created_at`, as every handler that writes one sets it. Every handler requires the invariant, and every write handler keeps it.

Strings are sequences of code points, and the two runtimes are modelled as two different measures of them (`Text`):

- JavaScript's `trim` and Python's `strip` remove different whitespace sets:
  - only JavaScript removes U+FEFF;
  - only Python removes U+001C–U+001F and U+0085.
- JavaScript's `.length` counts UTF-16 code units. Python's `len` counts code points.

`ApiValidators.RulesAgree` proves that the browser and server rules agree on text both runtimes see alike. Two lemmas show that they can disagree on other text:

- `ApiValidators.ByteOrderMarkDisagrees`: a byte-order mark counts as content for the server but is blank to the browser;
- `ApiValidators.AstralNameDisagrees`: eleven characters outside the Basic Multilingual Plane make a valid name for the server but too long a name for the browser.

Two details of the code:

- Post and comment lengths are checked on the untrimmed content.
- The redirect URI is the origin followed by `/index.html`.

## Model

| member | source | states |
|---|---|---|
| Text.TrimShape | src/api/utils/validators.py:11-14 | Stripped text is no longer than the input, begins and ends with a non-space character, and is empty exactly when the input is all whitespace |
| Text.TrimIsSlice | src/api/utils/validators.py:14 | Stripped text is a contiguous slice of the input, starting after its leading whitespace |
| Text.TrimIdempotent | src/api/posts/create_post.py:25 | Stripping stripped text changes nothing |
| Text.TrimAgrees | src/website/validators.js:15-19 | When both runtimes class each character of a string alike as whitespace, `trim` and `strip` return the same text |
| Text.Length | src/website/validators.js:21-25 | A JavaScript length lies between the code-point count and twice that count; a Python length is the code-point count |
| Text.BmpLength | src/website/validators.js:21-25 | Inside the Basic Multilingual Plane, both runtimes' lengths equal the code-point count |
| Text.AstralLength | src/website/validators.js:21-25 | Outside the Basic Multilingual Plane, a JavaScript length is twice the code-point count |
| Verdicts.FirstFailure | src/website/validators.js:81-98 | The combined verdict is valid iff every rule passes; otherwise it is the first failing rule's verdict, with every earlier rule passing |
| WebValidators.NonEmpty | src/website/validators.js:50-51 | `filter(a => a)` keeps exactly the non-empty elements |
| WebValidators.NonEmptyKeepsOrder | src/website/validators.js:50-51 | The filter distributes over concatenation and keeps a one-element list iff its element is non-empty, so the kept elements stay in their order |
| WebValidators.DisplayNameRule | src/website/validators.js:14-30 | Missing or blank names get "Display name is required"; other names under 2 or over 20 trimmed UTF-16 units get "Display name must be at least 2 characters" or "... must not exceed 20 characters"; a name passes iff its trimmed length is between 2 and 20 |
| WebValidators.DisplayNameBoundary | src/website/validators.js:21-27 | One visible character is rejected as shorter than 2; two visible characters pass |
| WebValidators.ValidateBio | src/website/validators.js:32-42 | A bio passes iff it is absent or at most 500 UTF-16 units long; a failure carries the bio message |
| WebValidators.ValidatePoliticalAlignment | src/website/validators.js:44-55 | An alignment passes iff it is absent, empty, or one of National, Labour, Independent; a failure carries the alignment message |
| WebValidators.AlignmentOptions | src/website/validators.js:50-51 | The alignment message lists "National, Labour, Independent" |
| WebValidators.PostContentRule | src/website/validators.js:57-67 | Missing or blank content gets "Content is required"; other content over 280 UTF-16 units gets "Content must not exceed 280 characters"; content passes iff it is not blank and its untrimmed length is at most 280 |
| WebValidators.PostContentBoundary | src/website/validators.js:62-64 | The limit is inclusive: plain text of 280 characters passes, and 281 gets the "must not exceed 280" message |
| WebValidators.CommentContentRule | src/website/validators.js:69-79 | Missing or blank comments get "Comment content is required"; other comments over 200 UTF-16 units get "Comment must not exceed 200 characters"; a comment passes iff it is not blank and its untrimmed length is at most 200 |
| WebValidators.CommentContentBoundary | src/website/validators.js:74-76 | 200 characters pass; 201 get the "must not exceed 200" message |
| WebValidators.ValidateProfileData | src/website/validators.js:81-98 | The result is the first failure among name, bio and alignment, in that order; it is valid iff all three pass |
| WebValidators.GetValidationConstants | src/website/validators.js:100-109 | The published alignments are exactly the three non-empty ones, each accepted by the alignment rule; the name bounds are ordered |
| ApiValidators.DisplayNameRule | src/api/utils/validators.py:10-22 | Missing or blank names get "display_name is required"; other names under 2 or over 20 stripped code points get "display_name must be at least 2 characters" or "... must not exceed 20 characters"; a name passes iff its stripped length is between 2 and 20 |
| ApiValidators.ValidateBio | src/api/utils/validators.py:25-32 | A bio passes iff it is None or at most 500 code points long; a failure carries the bio message |
| ApiValidators.ValidatePoliticalAlignment | src/api/utils/validators.py:35-44 | An alignment passes iff it is None or one of the listed values, '' included; a failure carries the alignment message |
| ApiValidators.AlignmentErrorText | src/api/utils/validators.py:40-42 | The alignment message lists "National, Labour, Independent" |
| ApiValidators.PostContentRule | src/api/utils/validators.py:47-54 | Missing or blank content gets "Content is required"; other content over 280 code points gets "Content must not exceed 280 characters"; content passes iff it is not blank and at most 280 code points long |
| ApiValidators.CommentContentRule | src/api/utils/validators.py:57-64 | Missing or blank comments get "Comment content is required"; other comments over 200 code points get "Comment must not exceed 200 characters"; a comment passes iff it is not blank and at most 200 code points long |
| ApiValidators.ValidateProfilePrivate | src/api/utils/validators.py:67-74 | The flag passes iff it is None or a JSON boolean; a failure carries its message |
| ApiValidators.ValidateProfileData | src/api/utils/validators.py:77-97 | Valid iff each rule that runs passes; on an update with no name, the name rule is skipped |
| ApiValidators.ProfileDataFirstFailure | src/api/utils/validators.py:77-97 | The reported failure is the first failing rule in the order name (unless skipped), bio, alignment, privacy flag |
| ApiValidators.PortableMeasures | src/api/utils/validators.py:10-22 | On text both runtimes see alike, the two trims, blankness tests and lengths coincide |
| ApiValidators.RulesAgree | src/api/utils/validators.py:10-64 | On such text, each server rule accepts exactly what its browser twin accepts |
| ApiValidators.ByteOrderMarkDisagrees | src/api/utils/validators.py:47-54 | A lone byte-order mark passes the server's post rule but fails the browser's |
| ApiValidators.AstralNameDisagrees | src/api/utils/validators.py:10-22 | An 11-character name outside the Basic Multilingual Plane passes on the server but is too long for the browser |
| DateUtils.EnsureUtc | src/website/date-utils.js:6-16 | 'Z' is appended iff the string has a 'T', no '+' and no trailing 'Z'; otherwise, empty input included, the string is unchanged |
| DateUtils.EnsureUtcIdempotent | src/website/date-utils.js:6-16 | Applying it twice is applying it once |
| DateUtils.FormatLocal | src/website/date-utils.js:18-52 | formatPostTime and formatDate: a falsy input gives the fallback ('' and 'N/A' respectively); otherwise the result is the locale text |
| DateUtils.Classify | src/website/date-utils.js:61-73 | Minute, hour and day counts stay within 1–59, 1–23 and 1–6 |
| DateUtils.FloorDivNested | src/website/date-utils.js:61-64 | Flooring by b and then by c equals flooring once by b·c |
| DateUtils.ClassifyBuckets | src/website/date-utils.js:61-73 | The successive divisions pick a bucket by fixed millisecond thresholds (1 min, 1 h, 1 day, 7 days), with a count that is a single floor division |
| DateUtils.NatToStringRoundTrip | src/website/date-utils.js:69-73 | The decimal text put into "n … ago" reads back as n |
| DateUtils.FormatRelativeTime | src/website/date-utils.js:54-81 | Falsy gives ''; under a minute gives "just now"; an unparsable date or one a week or more old gives the absolute text; minutes give "n minute(s) ago" |
| DateUtils.FormatRelativeTimeHoursDays | src/website/date-utils.js:70-73 | Hours and days render as "n hour(s) ago" and "n day(s) ago" with the single-division counts |
| DateUtils.SingularUnit | src/website/date-utils.js:68-69 | One unit reads "1 minute ago"; two read "2 minutes ago" |
| Auth.FirstParam | src/website/auth.js:24-28 | `URLSearchParams.get` gives a value iff the name occurs; the value comes from its first occurrence |
| Auth.LoginParams | src/website/auth.js:7-13 | The authorization request's parameter list gives the client id, `response_type=token`, the three scopes and the encoded redirect URI |
| Auth.QueryStringRoundTrip | src/website/auth.js:8-12 | `name=value` pairs joined by '&' split back into the same pairs, when names are non-empty without '=' or '&' and values have no '&' |
| Auth.LoginUrlCarries | src/website/auth.js:7-13 | The login URL is the authorize endpoint followed by a query string that reads back as LoginParams, so it carries each of the four parameters |
| Auth.LogoutParams | src/website/auth.js:16-20 | The logout parameter list gives the client id and the encoded redirect URI as `logout_uri` |
| Auth.LogoutUrlCarries | src/website/auth.js:16-20 | The logout URL is the logout endpoint followed by a query string that reads back as LogoutParams |
| Auth.Browser.GetTokens | src/website/auth.js:46-51 | Each token is present iff its storage key is present, and then it holds the stored value |
| Auth.Browser.IsAuthenticated | src/website/auth.js:54-66 | Live iff there is a non-empty id token that decodes with a numeric `exp` whose milliseconds lie after now |
| Auth.Browser.GetUserInfo | src/website/auth.js:69-83 | No info iff the id token is missing, empty or undecodable; otherwise email, name and sub of its claims |
| Auth.Browser.SaveTokens | src/website/auth.js:40-43 | Both keys are overwritten, id token first, and read back as the pair just saved |
| Auth.Browser.ParseTokensFromUrl | src/website/auth.js:23-37 | Succeeds iff both fragment tokens are non-empty; it then saves them and clears the fragment with a history replace; otherwise nothing changes |
| Auth.ParseTwice | src/website/auth.js:23-37 | A second parse after a successful one fails, and the stored tokens are those of the fragment |
| Auth.Browser.Logout | src/website/auth.js:86-90 | Both keys are removed before the navigation to the logout URL, and afterwards no token is stored |
| Auth.LoggedOutIsNotLive | src/website/auth.js:54-83 | Without a stored id token, no clock and no decoder make the session live or yield user info |
| Auth.Browser.Login | src/website/auth.js:93-95 | The only effect is navigation to the login URL |
| Auth.PostLoginRoute | src/website/auth.js:98-121 | Onboarding iff the profile lookup answered "no profile"; home otherwise, failures included |
| Auth.Browser.HandlePostLoginRedirect | src/website/auth.js:98-121 | The page navigates to the route PostLoginRoute picks |
| Helpers.GetUserIdFromEvent | src/api/utils/helpers.py:14-16 | Returns the `sub` claim iff the claims hold it; raises TypeError when a step of the path holds None, and KeyError otherwise |
| Helpers.ParseRequestBody | src/api/utils/helpers.py:25-27 | An absent body reads as {}; a JSON object gives its fields; a None body raises TypeError and non-JSON text JSONDecodeError; JSON that is not an object raises AttributeError at the caller's first `.get` |
| Helpers.GetQueryParam | src/api/utils/helpers.py:29-31 | The parameter when given, the default when the parameter or the whole map is missing or None |
| Helpers.GetPathParam | src/api/utils/helpers.py:33-35 | The parameter when present; KeyError for a missing key or map; TypeError for a None map |
| Helpers.OptionalPathParam | src/api/posts/like_post.py:27 | `.get` chain: None when the key or the map is missing; AttributeError iff the map is None |
| Helpers.StrippedField | src/api/profiles/create_profile.py:29-31 | An absent key gives ''; a string gives its stripped text; any other JSON value, None included, raises AttributeError |
| Helpers.StrippedBodyField | src/api/posts/create_comment.py:31-34 | An absent body gives ''; a body that fails to parse raises what ParseRequestBody raises; a JSON object gives StrippedField of its fields |
| Lambda.Get | src/api/posts/get_post_likes.py:46 | `dict.get` gives the stored value when the key is present and the default otherwise |
| Profiles.FilterPrivateProfile | src/api/profiles/get_profile.py:15-29 | The owner, and anyone viewing a public profile, get it whole; others get the four public fields with bio and alignment blanked and the flag True |
| Profiles.FilterIdempotent | src/api/profiles/get_profile.py:15-29 | Filtering a filtered profile changes nothing |
| Profiles.PrivateViewHidesDetails | src/api/profiles/get_profile.py:21-29 | A private profile shows someone else nothing but its public fields, '' and True |
| Profiles.CreateFieldsRead | src/api/profiles/create_profile.py:29-32 | Reads the three stripped text fields and the flag (default False); any non-string text field raises AttributeError |
| Profiles.NewProfileAttributes | src/api/profiles/create_profile.py:40-49 | A new profile has exactly seven attributes, holding the given values, with created_at equal to updated_at |
| Profiles.ValidNewProfileFlag | src/api/profiles/create_profile.py:32-37 | A validated new profile stores a boolean or None flag |
| Profiles.PresentStripped | src/api/profiles/update_profile.py:31-32 | An absent key gives None; a string gives its stripped text; any other value raises AttributeError |
| Profiles.UpdateFieldsRead | src/api/profiles/update_profile.py:30-33 | The name is read only when truthy, and is '' otherwise; bio and alignment are read when present; the flag is read as given |
| Profiles.ProfileChangesNames | src/api/profiles/update_profile.py:46-63 | updated_at is always written; each other field is written iff supplied, with its value; nothing outside the updatable set is written |
| Profiles.BuildUpdate | src/api/profiles/update_profile.py:46-63 | The SET clause, updated_at first, names without repeats exactly the attributes of the value map, and that map is the change set |
| Profiles.UpdateKeepsIdentity | src/api/profiles/update_profile.py:66-73 | An update leaves user_id, created_at and every unnamed attribute unchanged |
| Posts.NewPostAttributes | src/api/posts/create_post.py:72-82 | A new post has exactly six attributes, holding the given values, with created_at equal to updated_at |
| Posts.NewCommentAttributes | src/api/posts/create_comment.py:54-61 | A new comment has exactly six attributes, holding the given values, and no updated_at |
| Posts.NewLikeAttributes | src/api/posts/like_post.py:61-66 | A new like has exactly four attributes, holding the given values |
| Posts.EditPost | src/api/posts/update_post.py:52-62 | An edit writes content and updated_at and keeps every other attribute |
| Posts.EditKeepsIdentity | src/api/posts/update_post.py:52-62 | An edit keeps the id, the author, the author's name and the creation time |
| Posts.AuthorName | src/api/posts/create_post.py:59 | The profile's display_name, or 'Unknown User' when it has none |
| Posts.Toggle | src/api/posts/like_post.py:43-68 | The like at the key is deleted when present and inserted otherwise; every other key and like is untouched |
| Posts.ToggleTwiceRestores | src/api/posts/like_post.py:43-68 | From "not liked", two toggles give the table back |
| Posts.ToggleTwiceRelikes | src/api/posts/like_post.py:43-68 | From "liked", two toggles leave a fresh like at the key |
| Posts.ToggleKeysInvolution | src/api/posts/like_post.py:43-68 | Two toggles leave the set of liked keys unchanged |
| Posts.CreatePostCheck | src/api/posts/create_post.py:25-45 | create_post's inline checks pass iff the stripped content is non-empty and at most 280 code points long |
| Posts.CreatePostCheckAgrees | src/api/posts/create_post.py:25-45 | On stripped content they equal validate_post_content, messages included |
| Queries.LikeKeys | src/api/posts/get_post_likes.py:31-41 | The likes under the target whose target_type is the kind, and no others |
| Queries.OfKind | src/api/posts/get_post_likes.py:41 | The comprehension keeps exactly the queried likes of the kind |
| Queries.OfKindKeepsOrder | src/api/posts/get_post_likes.py:41 | The filter keeps the query's user_id order and adds no repeats |
| Queries.LikedIsCounted | src/api/posts/get_feed.py:35-39 | A viewer who liked a post makes its like count at least 1 |
| Queries.AnnotatePost | src/api/posts/get_feed.py:25-49 | Adds like_count (the post likes), liked_by_user (whether the viewer is among them) and comment_count (the comments on the post), keeping every other attribute |
| Queries.AnnotateComment | src/api/posts/get_comments.py:44-58 | Adds like_count and liked_by_user for the comment, keeping every other attribute |
| Ordering.HasFirst | src/api/posts/get_feed.py:19 | Every non-empty set of items has one whose sort key may come first |
| Ordering.ScanSorted | src/api/posts/get_feed.py:15-19 | The result lists each scanned item exactly once, sorted by key ascending or descending |
| Listings.ItemsOf | src/api/posts/get_feed.py:15-16 | The returned list holds the table's items under the given keys, in order |
| Listings.AnnotatePostsInPlace | src/api/posts/get_feed.py:25-49 | Each post in the list is replaced in place by its annotated form |
| Listings.AnnotateCommentsInPlace | src/api/posts/get_comments.py:44-58 | Each comment in the list is replaced in place by its annotated form |
| Backend.LikerOf | src/api/posts/get_post_likes.py:44-47 | A listing entry is the like's user_id with its display_name, or 'Unknown User' |
| Backend.LikerList | src/api/posts/get_post_likes.py:44-47 | One entry per listed like, in the same order |
| Backend.LikesOfTarget | src/api/posts/get_post_likes.py:31-41 | Lists the target's likes of the kind exactly once each, in user_id order; the count is their number |
| Backend.ToggleKeepsKeyed | src/api/posts/like_post.py:50-68 | A toggle keeps every like stored under its own (target_id, user_id) |
| Backend.LikeCountAfterToggle | src/api/posts/like_post.py:50-68 | A toggle raises the post's like count by one when the caller had not liked it, and lowers it by one when they had |
| Backend.StoreKeepsCommentsKeyed | src/api/posts/create_comment.py:64 | Storing a comment under its own key keeps the comments table keyed |
| Backend.StoreKeepsPostsKeyed | src/api/posts/create_post.py:85 | Storing a post under its own id keeps the posts table keyed |
| Backend.StoreKeepsProfilesKeyed | src/api/profiles/create_profile.py:57 | Storing a profile under its own user_id keeps the profiles table keyed |
| Backend.PostRoute | src/api/posts/like_post.py:24-29 | A failed claims lookup raises its KeyError or TypeError; a None path map raises AttributeError; a falsy post_id gets "post_id is required"; otherwise it proceeds with the caller and the post id |
| Backend.CommentRoute | src/api/posts/delete_comment.py:18-25 | The same checks for both ids, answered "post_id and comment_id are required" |
| Backend.Tables.GetProfile | src/api/profiles/get_profile.py:31-56 | The target defaults to the caller; a missing profile is not found; otherwise the answer is the profile filtered unless the caller owns it |
| Backend.Tables.CreateProfile | src/api/profiles/create_profile.py:16-59 | Errors, then the validation failure, then a conflict on an existing profile, each in that order and each leaving the table unchanged; otherwise the new profile is stored and returned |
| Backend.Tables.UpdateProfile | src/api/profiles/update_profile.py:17-73 | Validation comes before existence; the stored profile becomes the old one merged with exactly the change set; every failure leaves the table unchanged |
| Backend.Tables.CreatePost | src/api/posts/create_post.py:12-116 | Any exception in claims, body or write is answered 401; a ClientError reading the profile is answered 500 and any other read fault 401; a missing profile is not found; otherwise the post, named after its author, is stored under the new id and returned |
| Backend.Tables.UpdatePost | src/api/posts/update_post.py:19-62 | Validation, then existence, then ownership; only the owner's edit is written, by EditPost |
| Backend.Tables.DeletePost | src/api/posts/delete_post.py:15-39 | Existence, then ownership; only the owner's post is removed; comments, likes and profiles are untouched |
| Backend.Tables.CreateComment | src/api/posts/create_comment.py:21-66 | Route checks, then the comment rule, then the post and the profile; the comment is stored under (post_id, comment_id) and returned |
| Backend.Tables.DeleteComment | src/api/posts/delete_comment.py:16-52 | Route checks, existence, ownership; only the owner's comment is removed |
| Backend.Tables.LikePost | src/api/posts/like_post.py:18-68 | After the post and profile checks, the caller's like is toggled; `liked` says whether it is now present |
| Backend.Tables.LikeComment | src/api/posts/like_comment.py:17-70 | The same toggle, on the like keyed by the comment id |
| Backend.LikePostTwice | src/api/posts/like_post.py:43-68 | Two successful likes answer opposite `liked` values and restore the liked keys; starting unliked restores the whole table |
| Backend.Tables.GetPostLikes | src/api/posts/get_post_likes.py:16-52 | Each post like listed once in user_id order; the count equals the number of post likes |
| Backend.Tables.GetCommentLikes | src/api/posts/get_comment_likes.py:16-59 | The same for a comment's likes |
| Backend.Tables.GetFeed | src/api/posts/get_feed.py:9-51 | The newest min(100, all) posts, newest first, each annotated for the caller; every post left out is no newer than any listed |
| Backend.KeptAreNewest | src/api/posts/get_feed.py:19-22 | Cutting a sorted listing keeps it sorted, and nothing cut is newer than anything kept |
| Backend.AnnotatedPosts | src/api/posts/get_feed.py:25-49 | The listed posts, each annotated for the viewer, in the given order |
| Backend.Tables.GetUserPosts | src/api/posts/get_user_posts.py:9-55 | Exactly the target's posts (the target defaults to the caller), newest first, annotated for the caller |
| Backend.Tables.GetComments | src/api/posts/get_comments.py:17-60 | Exactly the post's comments, oldest first, each annotated for the caller |
| Backend.AnnotatedComments | src/api/posts/get_comments.py:44-58 | The listed comments, each annotated for the viewer, in the given order |

## Left out

- Clocks, uuids and time parsing are parameters: `get_current_timestamp()`, `uuid.uuid4()`, `Date.now()`, and the time value of `new Date(...)`.
- `get_table` and the boto3 calls are not modelled as calls. Each table is a map; `get_item`, `put_item`, `delete_item` and `update_item` are map lookups and updates.
- Tables are read whole. Scan and query pagination is not modelled.
- A scan or query followed by a stable sort can list tied items in any order. `Ordering.ScanSorted` therefore returns any order sorted by the key.
- The likes table's sort order is modelled by `user_id`. The posts index used by `get_user_posts` is modelled as a filter on `user_id` plus a newest-first sort.
- `utils/response_builder` is not part of this model, so a response is named by its meaning, not its number. The handlers fix some numbers themselves: 201 and 409 are passed to the builder, and `create_post` writes 400, 404, 500, 401 and 201 into its own responses. Elsewhere `BadRequest`, `NotFound`, `Forbidden` and `Success` stand for whatever number the builder picks.
- The `error_handler` decorator is not part of this model. An exception that reaches it becomes `Unhandled(error)`.
- Backend.Tables.CreatePost: DynamoDB faults are inputs, `profileReadFault` (the exception the profile read raises, if any) and `writeFails`. The second `except` branch (lines 107-116) cannot run, because the first catches every exception, so it has no counterpart.
- DynamoDB faults in the other handlers are not modelled: those handlers have no `except` of their own.
- Tables that break `Tables.Valid()` are not modelled. In the source, a `created_at` that is not a string would make the feed's `sort` raise TypeError, and a post or comment without one would be missing from `UserIdIndex` and `PostCommentsIndex`, which sort on `created_at`.
- The liker and the listed ids are read from item keys. This equals the item attributes the source reads under the key invariant.
- JSON decoding, base64 decoding of the token payload, `URLSearchParams`, `encodeURIComponent` and `toLocaleDateString` are inputs to the model:
  - the parsed body;
  - a decoder returning None wherever the source's `try` would throw;
  - the split fragment;
  - a string function;
  - the locale text.
- Auth.LoginUrlCarries and Auth.LogoutUrlCarries: they require that the client id and the encoded redirect URI contain no '&'. The model's `encodeURIComponent` is an arbitrary string function, while the real one always escapes '&'.
- Auth.Browser.IsAuthenticated: `exp` is an integer. A fractional `exp` is not modelled.
- DateUtils.FormatLocal and DateUtils.FormatRelativeTime: the `catch` branches are not modelled. Building a Date and formatting it with a fixed locale and time zone does not throw; an unparsable date gives a NaN time value, modelled as `dateMs == None`.
- `window.history.replaceState` and `window.location.href` are recorded as effects, in order. `console.error` output is not modelled.
- `handlePostLoginRedirect`'s awaited profile lookup is the `ProfileProbe` input.
- Numbers other than integers, and lists and objects inside items, are the opaque `Value.Other`.
- Strings have no Unicode normalisation or case folding.
- The browser pages, API clients, rendering helpers, `config.js` and `utils/__init__.py` are not part of this model.
