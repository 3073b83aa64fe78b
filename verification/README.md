# Mini red social, modelled in Dafny

This project models a small social network in Dafny and proves properties of the model.
The network has a REST server, a single Flask file over four SQLite tables. It also has a
React client. The server side has users, posts, likes (one per user and post) and comments.
Its route handlers do the following:
- register and log in users;
- read and edit the signed-in user's profile;
- list posts newest first, page by page;
- create, edit and delete one's own posts, with a cascade delete of their likes and comments;
- toggle a like;
- list and add comments.

The client keeps a session (a token in storage, the `Authorization: Bearer` header and the
signed-in user). Around the session it has a feed, a profile page, a registration form, a
new-post dialog, a comments dialog, post cards, and a top-level view switch.

Layout, one module per source file:

| file | module | models |
|---|---|---|
| `common.dfy` | `Common` | `Option`, the `Outcome` of a remote call, and the JavaScript string rules the client relies on: `||` on strings, `trim`, `.length` in UTF-16 units, `${n}` |
| `api.dfy` | `Api` | the JSON records exchanged between server and client |
| `backend.dfy` | `Backend` | the tables as the fields of class `Store`, one method per route handler, and the table constraints |
| `auth_context.dfy` | `AuthContext` | class `AuthProvider`: the session |
| `feed.dfy` | `Feed` | the three list edits of the feed, and its fetch |
| `register.dfy` | `Register` | the password checks and the submit of the registration form |
| `new_post_modal.dfy` | `NewPostModal` | the post creation dialog |
| `comments_modal.dfy` | `CommentsModal` | the comments dialog |
| `relative_time.dfy` | `RelativeTime` | `formatDate`, which is the same code in the post card and in the comments dialog |
| `post_card.dfy` | `PostCard` | likes, the in-place edit, delete, and ownership |
| `profile.dfy` | `Profile` | the author filter and the profile form |
| `app.dfy` | `App` | which screen is shown |

How the model treats the parts it cannot see:
- Each remote call the client makes is a parameter: `Success(data)`, or `Failure(error)`
  with the server's optional `error` field.
- Each state change the client makes is a method of a class whose fields are the
  component's state.
- Primary keys and creation times are parameters of the server methods. A key is
  constrained only to be unused, because SQLite may hand out the key of a deleted newest row
  again.
- The database order of the listing is a parameter. `IsNewestFirst` constrains it to hold
  every post once, newest first.

Where the code and the written description of the system differ, the model follows the code:
- At start-up a stored token counts only when it is non-empty, because `if (token)` treats
  the empty string as absent. Such a token is left in storage.
- `updateProfile` has no guard against being called while signed out. Without a header the
  server's token check (`@jwt_required`) refuses the request, so such a call can only fail.

## Model

| member | source | states |
|---|---|---|
| Common.Option.GetOr | backend/app.py:94 | a present value is returned; an absent one gives the default |
| Common.OrElse | frontend/src/contexts/AuthContext.tsx:81 | `s || fallback`: the server's message when present and non-empty, otherwise the fallback |
| Common.TrimStart | frontend/src/components/NewPostModal.tsx:46 | the result is a suffix of the input, starts with a non-space, and everything dropped is whitespace |
| Common.TrimEnd | frontend/src/components/NewPostModal.tsx:46 | the result is a prefix of the input, ends with a non-space, and everything dropped is whitespace |
| Common.Trim | frontend/src/components/NewPostModal.tsx:46 | `trim` gives the empty string exactly for blank text |
| Common.TrimSlice | frontend/src/components/NewPostModal.tsx:56 | the trimmed text is, character for character, the slice `s[lo..hi]` of the input, with only whitespace before `lo` and after `hi` |
| Common.TrimKeepsNoOuterSpace | frontend/src/components/NewPostModal.tsx:56 | non-empty trimmed text begins and ends with a non-whitespace character, so the slice is the largest one |
| Common.Utf16Length | frontend/src/components/Register.tsx:32 | `.length` lies between the character count and twice it, and equals the count exactly when no character lies outside the Basic Multilingual Plane |
| Common.NatToDecimal | frontend/src/components/PostCard.tsx:44 | `${n}` is a numeral of digits without a leading zero, and it reads back as n |
| Common.IntToString | frontend/src/components/PostCard.tsx:44 | `${n}`: a minus sign and the numeral of the magnitude for a negative n, the plain decimal numeral otherwise |
| Common.IntToStringInjective | frontend/src/components/PostCard.tsx:44-49 | two integers with the same numeral are equal |
| Backend.Given | backend/app.py:81 | Python truthiness of `data.get(key)`: the key is present with a non-empty value |
| Backend.TablesValid | backend/app.py:34-74 | the conjunction of the five table constraints below |
| Backend.UsersValid | backend/app.py:35-37 | users are keyed by id; usernames and emails are unique |
| Backend.PostsValid | backend/app.py:49-53 | posts are keyed by id and every post's author exists |
| Backend.LikesValid | backend/app.py:61-62 | every like names an existing user and an existing post |
| Backend.CommentsValid | backend/app.py:68-72 | every comment names an existing post and an existing user |
| Backend.CommentIdsDistinct | backend/app.py:69 | comment ids are a primary key |
| Backend.LikesWithout | backend/app.py:57 | the likes kept by the cascade are exactly those not on the deleted post |
| Backend.LikesOn | backend/app.py:60-67 | the likes of one post are exactly the (user, post) pairs that name it |
| Backend.Toggled | backend/app.py:320-328 | the toggled pair flips its membership and every other pair keeps its own |
| Backend.ToggleTwice | backend/app.py:320-328 | toggling twice gives back the original likes |
| Backend.ToggleKeepsLikesValid | backend/app.py:317-328 | a toggle by an existing user on an existing post leaves every like pointing at an existing user and an existing post |
| Backend.ToggleCount | backend/app.py:320-335 | a toggle moves the toggled post's like count by exactly one, up or down, and leaves other posts' likes alone |
| Backend.CommentsOn | backend/app.py:346-357 | a post's thread holds exactly the comments on that post |
| Backend.CommentsNotOn | backend/app.py:57-58 | the comments kept after a post's deletion are exactly those not on it |
| Backend.CommentsNotOnKeepsThreads | backend/app.py:57-58 | deleting one post's comments leaves every other post's thread unchanged, order included |
| Backend.ClampPage | backend/app.py:189-194 | the page used is at least 1 and is the requested page when that is at least 1 |
| Backend.ClampPerPage | backend/app.py:190-194 | the page size used is at least 1 and is the requested size when that is at least 1 |
| Backend.PageItems | backend/app.py:192-197 | a page is the slice of the listing at its offset: never longer than the page size, full before the last page, empty past the end |
| Backend.PageCount | backend/app.py:215 | `pages` is 0 for no posts, otherwise the least number of pages of that size that holds them all |
| Backend.PagesCoverListing | backend/app.py:192-194 | every position of the listing lies on the page its index names, at the matching place |
| Backend.DeleteCascadeKeepsTablesValid | backend/app.py:56-58 | deleting a post with its likes and comments keeps every table constraint |
| Backend.DeleteWithoutCascadeBreaksTables | backend/app.py:57-58 | without the cascade, a liked post's deletion would leave a like that points at nothing |
| Backend.NoThreadWithoutComments | backend/app.py:346-357 | a post with no stored comment has an empty thread |
| Backend.FreshPostHasNoActivity | backend/app.py:249-250 | an unused post id has no likes and no comments, so a new post's zero counts are its real counts |
| Backend.KeptCommentsValid | backend/app.py:57-58 | after a post's comments are dropped, every remaining comment points at a remaining post and an existing user, and the remaining ids stay distinct |
| Backend.KeptCommentIdsDistinct | backend/app.py:70 | dropping comments keeps comment ids distinct |
| Backend.Store.constructor | backend/app.py:35-74 | empty tables satisfy every constraint |
| Backend.Store.LikeCount | backend/app.py:208 | a post's like count is zero exactly when no like names it |
| Backend.Store.CommentViewOf | backend/app.py:348-356 | the listed comment carries the row's id, text and time, and its author's id, name and picture |
| Backend.Store.IsNewestFirst | backend/app.py:192 | `ORDER BY created_at DESC`: every post exactly once, newer before older |
| Backend.Store.PostViewOf | backend/app.py:198-210 | the listed post carries the row's fields, its author's id, name and picture, and its like and comment counts |
| Backend.Store.FindUserBy | backend/app.py:84-88 | the lookup returns a user with that username or email, and finds none exactly when no user has it |
| Backend.Store.Register | backend/app.py:77-111 | missing fields give 400 with no change; a taken username, checked before the email, gives 400; a taken email gives 400. Otherwise exactly one user is added, with the hashed password, the bio or "" and an empty picture, and 201 returns it with a token. The constraints, uniqueness of username and email included, are kept |
| Backend.Store.Login | backend/app.py:113-136 | missing credentials give 400; an unknown user and a wrong password give the same 401; a matching user gets 200 with a token for its id; no table changes |
| Backend.Store.RegisterThenLogin | backend/app.py:77-136 | a user who has just registered logs in at once with the same username and password and gets a token for its own id, provided a hash checks against its own password |
| Backend.Store.GetProfile | backend/app.py:138-154 | 404 for an unknown user, otherwise the user's fields and creation time |
| Backend.Store.UpdateProfile | backend/app.py:156-184 | only the keys present in the body change, only on that user; 404 for an unknown user |
| Backend.Store.GetPosts | backend/app.py:187-217 | the body lists the posts on the requested page of the newest-first listing, in that order, each as `PostViewOf`, with the total, the page count and the raw requested page |
| Backend.Store.CreatePost | backend/app.py:219-252 | missing content gives 400; otherwise one post is added under the caller with image default "", and 201 reports zero likes and comments |
| Backend.Store.UpdatePost | backend/app.py:254-291 | 404, then 403 for someone else's post, otherwise only the present keys of that post change |
| Backend.Store.DeletePost | backend/app.py:293-308 | 404, then 403, otherwise the post, its likes and its comments go and nothing else changes |
| Backend.Store.ToggleLike | backend/app.py:311-336 | 404 for a missing post, otherwise the caller (an existing user) has its like on it flipped, and the message names the action, the count is the post's new like count and the state is whether the pair is now present |
| Backend.Store.GetComments | backend/app.py:339-359 | 404 for a missing post, otherwise one entry per comment of the post's thread, in the order of the comments table, each with its author |
| Backend.Store.CreateComment | backend/app.py:361-396 | 404, then 400 for missing content, otherwise exactly one comment is appended and returned with 201 |
| AuthContext.BearerHeader | frontend/src/contexts/AuthContext.tsx:45 | the header is the bearer prefix followed by the token |
| AuthContext.TokenOfHeader | frontend/src/contexts/AuthContext.tsx:78 | a header of the bearer form gives back a token from which it is rebuilt |
| AuthContext.BearerRoundTrip | frontend/src/contexts/AuthContext.tsx:97 | the token is recovered from its header |
| AuthContext.Truthy | frontend/src/contexts/AuthContext.tsx:44-53 | `if (token)`: a stored token counts only when present and non-empty |
| AuthContext.AuthProvider.constructor | frontend/src/contexts/AuthContext.tsx:38-39 | no user, loading, no header |
| AuthContext.AuthProvider.Start | frontend/src/contexts/AuthContext.tsx:42-66 | without a usable token there is no request and no change; with one, the header is set and the profile is requested with it; success sets the user; failure drops the token and the header; loading ends false on every path; the header always matches the token, and a user is only ever set together with it |
| AuthContext.AuthProvider.SignIn | frontend/src/contexts/AuthContext.tsx:75-79 | token, header and user come from the same response |
| AuthContext.AuthProvider.Login | frontend/src/contexts/AuthContext.tsx:68-83 | success stores the token, the matching header and the user together; failure changes nothing and reports the server's message or 'Error al iniciar sesión' |
| AuthContext.AuthProvider.Register | frontend/src/contexts/AuthContext.tsx:85-102 | as login, with the bio defaulting to "" and the fallback 'Error al registrarse' |
| AuthContext.AuthProvider.Logout | frontend/src/contexts/AuthContext.tsx:104-108 | token, header and user are cleared whatever the state before, so a second call changes nothing |
| AuthContext.AuthProvider.UpdateProfile | frontend/src/contexts/AuthContext.tsx:110-121 | an omitted picture is an absent key; success replaces the user wholesale; failure keeps it and reports the server's message or 'Error al actualizar perfil'; the token and header are untouched. Without a header the outcome is a failure, so a signed-in user always has a token and its header |
| Feed.WithNewPost | frontend/src/components/Feed.tsx:46-48 | the new post comes first, followed by the old list |
| Feed.WithUpdatedPost | frontend/src/components/Feed.tsx:50-54 | the length is kept; posts with the edited id become the edited post and every other post is unchanged |
| Feed.WithoutPost | frontend/src/components/Feed.tsx:56-58 | exactly the posts with another id are kept, every copy of each: each post occurs as often as before when its id differs, and not at all otherwise |
| Feed.UpdateIdempotent | frontend/src/components/Feed.tsx:50-54 | an edit applied twice is the edit applied once |
| Feed.UpdateAbsentIsNoOp | frontend/src/components/Feed.tsx:50-54 | an edit of an absent post changes nothing |
| Feed.DeleteIdempotent | frontend/src/components/Feed.tsx:56-58 | deleting twice is deleting once |
| Feed.DeleteAbsentIsNoOp | frontend/src/components/Feed.tsx:56-58 | deleting an absent id changes nothing |
| Feed.DeleteKeepsOrder | frontend/src/components/Feed.tsx:56-58 | the kept posts are a subsequence of the old list |
| Feed.CreateThenDelete | frontend/src/components/Feed.tsx:46-58 | adding a post with a fresh id and deleting that id gives back the list |
| Feed.FeedState.constructor | frontend/src/components/Feed.tsx:23-25 | no posts, loading, no error |
| Feed.FeedState.FetchPosts | frontend/src/components/Feed.tsx:28-40 | success shows the server's list and clears the error; failure keeps the list and shows 'Error al cargar los posts'; loading ends false |
| Feed.FeedState.HandleNewPost | frontend/src/components/Feed.tsx:46-48 | the list becomes `WithNewPost` of the old list |
| Feed.FeedState.HandleUpdatePost | frontend/src/components/Feed.tsx:50-54 | the list becomes `WithUpdatedPost` of the old list |
| Feed.FeedState.HandleDeletePost | frontend/src/components/Feed.tsx:56-58 | the list becomes `WithoutPost` of the old list |
| Register.PasswordError | frontend/src/components/Register.tsx:27-35 | a mismatch is reported first, then a password under 6 UTF-16 units; the password passes exactly when confirmed and at least 6 long |
| Register.ThreeAstralCharactersSuffice | frontend/src/components/Register.tsx:32 | three characters outside the Basic Multilingual Plane pass the length check |
| Register.RegisterForm.constructor | frontend/src/components/Register.tsx:5-13 | five empty fields, no error, not loading |
| Register.RegisterForm.HandleChange | frontend/src/components/Register.tsx:16-21 | only the named field changes |
| Register.RegisterForm.HandleSubmit | frontend/src/components/Register.tsx:23-46 | the error is cleared first; a failed check shows its message, sends nothing and leaves the session alone; otherwise the session registers with the form's four fields, the error is what it reported, and loading ends false |
| NewPostModal.NewPostForm.constructor | frontend/src/components/NewPostModal.tsx:26-29 | empty text and picture, not loading, no error |
| NewPostModal.NewPostForm.SubmitEnabled | frontend/src/components/NewPostModal.tsx:142 | publishing is enabled exactly when not loading and the text is not blank |
| NewPostModal.NewPostForm.SetContent | frontend/src/components/NewPostModal.tsx:91 | only the text changes |
| NewPostModal.NewPostForm.SetImage | frontend/src/components/NewPostModal.tsx:31-41 | only the picture changes |
| NewPostModal.NewPostForm.RemoveImage | frontend/src/components/NewPostModal.tsx:121 | the picture becomes "" |
| NewPostModal.NewPostForm.HandleSubmit | frontend/src/components/NewPostModal.tsx:43-67 | blank text gives 'El contenido es requerido' and no request. Otherwise the trimmed text, which the server accepts, is sent with the current picture. Success reports the post and then closes; failure shows the server's message or 'Error al crear el post' and stays open. Loading ends false |
| CommentsModal.CommentsDialog.constructor | frontend/src/components/CommentsModal.tsx:26-30 | empty thread and input, loading |
| CommentsModal.CommentsDialog.FetchComments | frontend/src/components/CommentsModal.tsx:32-42 | success shows the server's thread without clearing an old error; failure keeps it and shows 'Error al cargar comentarios'; loading ends false |
| CommentsModal.CommentsDialog.SetNewComment | frontend/src/components/CommentsModal.tsx:150 | only the input changes |
| CommentsModal.CommentsDialog.HandleSubmit | frontend/src/components/CommentsModal.tsx:48-69 | blank input changes nothing and sends nothing. Otherwise the trimmed text is sent; success appends the server's comment, empties the input and notifies; failure keeps the list and the input and shows the server's message or 'Error al agregar comentario'. `submitting` ends false |
| RelativeTime.AgeOf | frontend/src/components/CommentsModal.tsx:71-85 | each difference falls in exactly one bucket: under an hour in minutes (0 to 59, negative for a negative difference), under a day in hours (1 to 23), otherwise whole days (at least 1), with the count the floor of the difference in that unit |
| RelativeTime.DaysOf | frontend/src/components/PostCard.tsx:47-48 | flooring the hours by 24 equals flooring the milliseconds by a day |
| RelativeTime.FormatDate | frontend/src/components/PostCard.tsx:37-51 | the label is 'hace N min', 'hace Nh' or 'hace Nd', with N the floor of the difference in minutes, hours or days for the matching range |
| RelativeTime.Render | frontend/src/components/PostCard.tsx:44-49 | the label is 'hace ', then the count's numeral, then the unit's text, each at its own place in the string |
| RelativeTime.RenderInjective | frontend/src/components/PostCard.tsx:44-49 | two different ages never get the same label |
| PostCard.IsOwner | frontend/src/components/PostCard.tsx:105 | nobody owns a post while signed out; a user owns it exactly when the ids match |
| PostCard.OwnerControlsMatchServer | frontend/src/components/PostCard.tsx:105-143 | the edit and delete controls appear exactly for the user whom the server's 403 checks let through |
| PostCard.PostCardState.constructor | frontend/src/components/PostCard.tsx:30-35 | not liked, the listing's count, not editing |
| PostCard.PostCardState.HandleLike | frontend/src/components/PostCard.tsx:53-64 | success adopts the server's like state and count; failure keeps both; loading ends false |
| PostCard.PostCardState.HandleEdit | frontend/src/components/PostCard.tsx:66-69 | the editor opens on the post's text |
| PostCard.PostCardState.SetEditContent | frontend/src/components/PostCard.tsx:151 | only the edited text changes |
| PostCard.PostCardState.HandleSaveEdit | frontend/src/components/PostCard.tsx:71-84 | the edited text is sent with no picture key; success hands the server's post on and closes the editor; failure stays in edit mode |
| PostCard.PostCardState.HandleCancelEdit | frontend/src/components/PostCard.tsx:86-89 | the editor closes and the text goes back to the current post's |
| PostCard.PostCardState.ReceivePost | frontend/src/components/Feed.tsx:100-104 | a re-render hands the card the list's current copy of its post, which later edits and cancels read; the card's own state keeps its values |
| PostCard.PostCardState.HandleDelete | frontend/src/components/PostCard.tsx:91-103 | nothing is sent or changed without confirmation; a successful delete asks the feed to drop this post's id |
| Profile.PostsBy | frontend/src/components/Profile.tsx:40 | the kept posts are exactly the listing's posts by that author, every copy of each: each post by the author occurs as often as in the listing, any other not at all |
| Profile.PostsByKeepsOrder | frontend/src/components/Profile.tsx:40 | they keep the listing's order |
| Profile.PagesOfDifferentUsersAreDisjoint | frontend/src/components/Profile.tsx:40 | two users' pages share no post |
| Profile.InitialForm | frontend/src/components/Profile.tsx:26-29 | the form starts from the user's bio and picture, or empty fields without a user |
| Profile.ProfilePage.constructor | frontend/src/components/Profile.tsx:23-31 | no posts, loading, not editing, the form from the user, not saving, no error |
| Profile.ProfilePage.FetchUserPosts | frontend/src/components/Profile.tsx:33-47 | no user means no request; otherwise success keeps the user's own posts and failure keeps the old ones; loading ends false |
| Profile.ProfilePage.HandleInputChange | frontend/src/components/Profile.tsx:53-73 | only the named field of the form changes |
| Profile.ProfilePage.StartEditing | frontend/src/components/Profile.tsx:189 | edit mode starts |
| Profile.ProfilePage.HandleSave | frontend/src/components/Profile.tsx:75-86 | both fields go to the session's `updateProfile`; success leaves edit mode; failure shows the message and stays; `saving` ends false; the token and header are untouched; without a header the save fails |
| Profile.ProfilePage.HandleCancel | frontend/src/components/Profile.tsx:88-95 | the form is restored from the user, edit mode ends and the error is cleared |
| App.ScreenOf | frontend/src/App.tsx:14-56 | the spinner while loading, whatever the user. Without a user, the sign-in card shows the login form exactly on 'login'. The signed-in pages appear only with a user, the feed exactly on 'feed' and the profile exactly on 'profile', never both |
| App.StartShowsRegistration | frontend/src/App.tsx:12 | at start-up a visitor sees the registration form |
| App.SignInFromLoginShowsNoPage | frontend/src/App.tsx:42-53 | after signing in from the login form, neither page is shown |
| App.IntendedScreenOf | frontend/src/App.tsx:48-56 | with a user, exactly one of the feed and the profile is shown |
| App.IntendedDiffersOnlyOnEmptyPage | frontend/src/App.tsx:48-56 | the corrected screen differs from the written one only where the written one is an empty page |

## Findings

| source | as written | input that shows it | evidently intended | confidence | as-written member | corrected member |
|---|---|---|---|---|---|---|
| frontend/src/App.tsx:42-53 | the page name chosen on the sign-in card ('login' or 'register') is kept after signing in, and only 'feed' and 'profile' render a page | open the login tab (`currentView = 'login'`), then sign in: the signed-in layout shows the navigation bar over an empty page | after signing in, the feed is shown for any page name other than 'profile' | medium, not executed | App.SignInFromLoginShowsNoPage | App.IntendedScreenOf |

## Left out

- HTTP and framework plumbing are not modelled: routing, request parsing, CORS, configuration and JSON encoding. A request body is a record with one optional field per key. A body that is not JSON at all is treated as one with every key absent.
- Password hashing and token issue are library calls, modelled as the uninterpreted constants `hash`, `checkHash` and `issueToken` of `Store`. Token verification and the 7-day expiry are not modelled. The identity a token carries is taken to be the user's integer id.
- Backend.Store.Register, Backend.Store.CreatePost, Backend.Store.CreateComment: the primary key the database assigns is a parameter that is only required to be unused.
- Backend.Store.CreatePost, Backend.Store.CreateComment, Backend.Store.ToggleLike: the caller is required to be an existing user. Users are never deleted, so a token always names one.
- Backend.Store.GetPosts: the database order is a parameter constrained to be newest first. The order among posts with equal creation times is the database's. The clamping of the page and page size follows Flask-SQLAlchemy 3.x with `error_out=False`; the library's internals are not modelled.
- Backend.Store.GetComments: the `comments` relationship of a post has no `ORDER BY`, so the order is SQLite's. The model takes it to be the order of the comments table, which is insertion order in practice.
- Database sessions, commits, migrations and table creation are not modelled. Each handler is one atomic step.
- Dates are not modelled: the clocks, ISO formatting and parsing, and the locale date format of the profile page. Timestamps are integer milliseconds, and "now" is a parameter.
- RelativeTime.FormatDate: the server writes its UTC times with `isoformat()` and no offset (backend/app.py:202), and the browser's `new Date` reads such a string as local time. West of UTC a fresh post therefore gets a creation time ahead of the reading clock, and a negative difference ('hace -300 min' at UTC-5). The model takes both times as given numbers and covers negative differences, but it does not model the time-zone shift itself.
- Browser storage and the HTTP client's default headers become plain fields of `AuthProvider`.
- Reading an image file into a data URL (FileReader) is not modelled. The result is the parameter of `SetImage` and `HandleInputChange`.
- Rendering is not modelled (JSX, CSS, the confirmation dialog's text). The confirmation answer is the parameter of `HandleDelete`. The login form and the navigation bar only forward to the session and to the view callback. frontend/src/components/Login.tsx and frontend/src/components/Navbar.tsx are not part of this model.
- Concurrency is not modelled. Overlapping requests, such as a login racing a logout, and the scheduling of effects are left out; each operation is atomic.
- Errors that only reach the console are not modelled: failed likes, edits and deletes on the card, and failed profile fetches. Their visible effect, nothing changing, is modelled.
