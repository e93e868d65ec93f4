# EchoDraft: a verified model of the blog editor, post routes and sign-up flow

This project models the domain layer of EchoDraft, a blogging application with a React front end and an Express/MongoDB back end. It covers six parts:

- the draft editor's store: an ordered list of content blocks, plus the files and preview URLs of image blocks keyed by block id. A non-title block can only follow a title.
- the form that turns a draft into a multipart submission, and that replays a fetched post into the store.
- the post routes: creating and updating posts, including the walk that trades image blocks for uploaded files; the filter and search queries; the owner-checked delete with its comment cascade; the like/dislike toggle; reviews.
- the optimistic counters on the post page, and its compact count rendering.
- the one-time-code sign-up, password sign-in and the external identity provider's user upsert.
- the client-side validators of the sign-up and sign-in forms.

The database is a class, `Models.Database`, whose collections the route handlers update in place. These outside pieces become parameters:

- the media host: a function from a received file to a URL, or none when the upload fails
- the clock: `now`, plus `midnight` for local midnight
- the random draw for the code
- the mailer's outcome
- the password hash and its comparison
- the regular-expression engine

The modules follow the program:

| module | file |
|---|---|
| `Common` | JavaScript truthiness, `filter`, `findOne`, decimal rendering |
| `Models` | Block.js, the comment, user and pending-signup records, the database |
| `Wire` | what crosses the network |
| `BlogStore` | useBlogStore |
| `BlogForm` | BlogForm.jsx |
| `BlockRoutes` | blockRoutes.js |
| `AdminRoutes` | adminRoutes.js |
| `AuthRoutes` | authRoutes.js |
| `BlogDetails` | BlogDetails.jsx |
| `Validators` | signup.jsx and signin.jsx |

## Model

| member | source | states |
|---|---|---|
| Models.Stored | backend/models/Block.js:14-25 | The stored content keeps the blocks' order, types and values, and each element gets its own id, numbered consecutively. |
| Models.CommentsFor | backend/routes/blockRoutes.js:250-253 | A comment is selected iff it is in the collection and is for the given post. |
| Models.CommentsNotFor | backend/models/Block.js:45-47 | What the cascade leaves: exactly the comments of other posts. |
| Models.CommentsPartition | backend/models/Block.js:42-51 | The removed and the kept comments together are the whole collection, counting multiplicity. |
| Models.CascadeIsolation | backend/models/Block.js:42-51 | After the cascade the deleted post has no comments, and every other post keeps exactly its own comments in the same order. |
| Models.Database.FindByIdAndDelete | backend/models/Block.js:42-51 | The post is removed and its comments go with it only when a document was deleted. Otherwise the comments are untouched. Users, pending signups and the id counter never change. |
| BlogStore.InitialValue | frontend/src/store/useBlogStore.js.js:34 | A new block's value is absent iff it is an image given no value; otherwise it is the given value. |
| BlogStore.Added | frontend/src/store/useBlogStore.js.js:22-47 | A non-title add with no title present changes nothing. Otherwise exactly one block is appended and earlier blocks are kept. The preview of the id becomes the given value exactly when an image is added with a non-empty value. Otherwise an existing preview of the id keeps its URL, and every other preview is kept. |
| BlogStore.AddsKeepTitleFirst | frontend/src/store/useBlogStore.js.js:22-45 | Any sequence of adds preserves "empty or opens with a title". |
| BlogStore.AddsFromEmptyDraft | frontend/src/store/useBlogStore.js.js:22-45 | From the empty draft, any sequence of adds yields content that is empty or opens with a title. |
| BlogStore.AddsAfterTitleAppendAll | frontend/src/store/useBlogStore.js.js:22-47 | Once a title is present, or the first add is a title, every add is accepted and the blocks appear in call order. |
| BlogStore.AddsWithoutTitleChangeNothing | frontend/src/store/useBlogStore.js.js:24-29 | With no title present or added, a whole sequence of adds leaves the editor unchanged. |
| BlogStore.UpdatedContent | frontend/src/store/useBlogStore.js.js:50-55 | Length, order, ids and types are kept; exactly the blocks carrying the id get the new value. |
| BlogStore.UpdateKeepsStructure | frontend/src/store/useBlogStore.js.js:50-55 | Updating an absent id is a no-op, and an update never changes whether the draft has a title or opens with one. |
| BlogStore.RemovedContent | frontend/src/store/useBlogStore.js.js:75 | No block with the id remains; a block remains iff it was present and has another id. |
| BlogStore.RemoveAbsentIsNoOp | frontend/src/store/useBlogStore.js.js:75 | Removing an id that no block carries leaves the content as it was. |
| BlogStore.RemoveThenReuseId | frontend/src/store/useBlogStore.js.js:70-79 | After removal, re-adding a block with the same id leaves no stale preview. The id has a preview only if this add records one, and then it is the given value. |
| BlogStore.Store.constructor | frontend/src/store/useBlogStore.js.js:5-13 | The store starts as the empty draft, with no fetched posts or comments. |
| BlogStore.Store.SetForm | frontend/src/store/useBlogStore.js.js:16 | Sets only the blog type. |
| BlogStore.Store.SetSelectedBlock | frontend/src/store/useBlogStore.js.js:17 | Sets only the selector value. |
| BlogStore.Store.SetTypeError | frontend/src/store/useBlogStore.js.js:18 | Sets only the type-error flag. |
| BlogStore.Store.SetPreviews | frontend/src/store/useBlogStore.js.js:19 | Sets only the previews. |
| BlogStore.Store.AddBlock | frontend/src/store/useBlogStore.js.js:22-47 | Content and previews become `Added` of the old ones; the other fields are untouched. |
| BlogStore.Store.UpdateValue | frontend/src/store/useBlogStore.js.js:50-55 | Content becomes `UpdatedContent`; images, previews and everything else are untouched. |
| BlogStore.Store.HandleImage | frontend/src/store/useBlogStore.js.js:58-67 | With a file chosen, the file and its URL are stored under the id and the matching blocks take that URL; other entries are kept. With no file chosen, nothing changes. |
| BlogStore.Store.RemoveBlock | frontend/src/store/useBlogStore.js.js:70-79 | The blocks with the id are removed, the id is deleted from images and previews, and every other entry is kept. |
| BlogStore.Store.ResetForm | frontend/src/store/useBlogStore.js.js:82-90 | Back to the empty draft; the fetched posts and comments are untouched. |
| BlogForm.CleanBlock | frontend/src/pages/BlogForm.jsx:246-251 | Keeps id and type. An image omits its value iff a file is pending for it or it has no value. Every other block sends its value unchanged. |
| BlogForm.CleanContent | frontend/src/pages/BlogForm.jsx:245-253 | One cleaned block per draft block, in the same order. |
| BlogForm.AppendImageParts | frontend/src/pages/BlogForm.jsx:257-259 | One part per entry of `images`, in entry order, named by its block id and carrying its file. Every id appears exactly once. |
| BlogForm.HandleSubmit | frontend/src/pages/BlogForm.jsx:237-279 | With no type, nothing is sent and the type error is raised. Otherwise the request goes to update when editing and to create otherwise, carrying the type, the cleaned content and the parts. The form is reset iff the call succeeds; on failure the store is untouched. |
| BlogForm.DisabledIffAddIgnored | frontend/src/pages/BlogForm.jsx:281-337 | A selector option is disabled exactly when the store would ignore its add. |
| BlogForm.HandleSelectChange | frontend/src/pages/BlogForm.jsx:229-235 | An empty choice changes nothing. Otherwise the block is added as `addBlock` would add it, and the selector is cleared. |
| BlogForm.ReplayOp | frontend/src/pages/BlogForm.jsx:214-215 | The block the replayed add creates carries the stored id and type. A non-empty stored value is kept; an empty or missing one becomes null for an image and "" otherwise. |
| BlogForm.ReplayOps | frontend/src/pages/BlogForm.jsx:213-216 | One replayed add per fetched block, in order. |
| BlogForm.LoadExistingBlog | frontend/src/pages/BlogForm.jsx:204-222 | A failed fetch changes nothing. Otherwise the store holds the post's type, with the editor the empty draft after replaying every fetched block in order. |
| BlogForm.ReplayOfTitledPost | frontend/src/pages/BlogForm.jsx:209-216 | A fetched post opening with a title loads block for block: the same ids, types and order. Each block keeps its stored value, or takes null for an image and "" otherwise when that value is empty or missing. |
| BlogForm.ReplayOfUntitledPost | frontend/src/pages/BlogForm.jsx:209-216 | A fetched post without a title block loads as empty content. |
| BlockRoutes.Strip | backend/routes/blockRoutes.js:22 | Keeps the type and value and drops the client id; an omitted value becomes absent. |
| BlockRoutes.Stripped | backend/routes/blockRoutes.js:22 | Strips every block, in order. |
| BlockRoutes.ResolutionSucceeds | backend/routes/blockRoutes.js:26-46 | The walk succeeds iff there is a file for every consuming block and each of those uploads succeeds. |
| BlockRoutes.ResolutionContents | backend/routes/blockRoutes.js:26-46 | On success, length and types are kept. The k-th consuming block takes the URL of file k, and every other block keeps its value. |
| BlockRoutes.ResolveImages | backend/routes/blockRoutes.js:26-46 | The loop with the file cursor computes exactly `Resolution`; none is the 500 path. |
| BlockRoutes.ResolvedImageNeedsFileOnlyOnCreate | backend/routes/adminRoutes.js:172 | An image that already has a URL makes create want a file and fail without one, while update keeps the block as it is. |
| BlockRoutes.BuildFilterQuery | backend/routes/blockRoutes.js:85-122 | A type equality iff the type is truthy and not "all". A lower creation bound of midnight, now − 7 days or now − 30 days for "today", "last7" or "month", and none for anything else. A sort key iff the sort is topLikes, newest or oldest. No owner condition. |
| BlockRoutes.FilterRulesDetermine | backend/routes/blockRoutes.js:85-122 | The filter rules fix the whole query apart from its owner part. |
| BlockRoutes.TimeFilterBound | backend/routes/blockRoutes.js:97-112 | Every post the time filter selects was created at or after its bound. |
| BlockRoutes.SearchQuery | backend/routes/blockRoutes.js:72-83 | A post matches iff some content value or its type matches the pattern; newest first. |
| BlockRoutes.Without | backend/routes/blockRoutes.js:182-187 | The user is gone from the list, and every other user occurs as often as before. |
| BlockRoutes.Toggled | backend/routes/blockRoutes.js:179-193 | The user is in likes iff the action is "like" and they were not liking, and in dislikes iff the action is "dislike" and they were not disliking (at most once each). Other users' counts are unchanged. |
| BlockRoutes.ToggleKeepsExclusive | backend/routes/blockRoutes.js:179-193 | The toggle preserves "every user is at most once in at most one list". |
| BlockRoutes.ToggleKeepsOthersInOrder | backend/routes/blockRoutes.js:182-193 | Apart from the user, both lists keep their entries in their original order. |
| BlockRoutes.ToggleFollowsStance | backend/routes/blockRoutes.js:179-193 | On an exclusive post the user's stance moves along the like/dislike state machine. |
| BlockRoutes.LikeTwiceRestores | backend/routes/blockRoutes.js:179-193 | Starting from no reaction, liking twice gives back the original lists. |
| BlockRoutes.HandleLikeDislike | backend/routes/blockRoutes.js:168-206 | An unknown caller gives 500 and an unknown post 404, both changing nothing. Otherwise the post gets the toggled lists, and 200 carries both new lengths. |
| BlockRoutes.HandleReview | backend/routes/blockRoutes.js:207-240 | An unknown caller gives 404 and changes nothing. Otherwise exactly one comment by the caller is appended and 201 is answered. |
| BlockRoutes.FetchReview | backend/routes/blockRoutes.js:242-263 | No id gives 400. Otherwise 200 with exactly the comments for that post, in collection order. |
| BlockRoutes.ReviewThenFetch | backend/routes/blockRoutes.js:219-257 | A stored review is returned by the next fetch for its post, after the earlier ones. |
| BlockRoutes.CreateBlog | backend/routes/blockRoutes.js:12-63 | A failed walk or an unknown caller gives 500 and stores nothing. Otherwise 201: a new post under a fresh id, owned by the caller, with the resolved content and empty reaction lists. |
| AdminRoutes.Scoped | backend/routes/adminRoutes.js:33-47 | A post matches the scoped condition iff it matches the original and belongs to the owner. |
| AdminRoutes.CallerId | backend/routes/adminRoutes.js:14 | The caller's id exists iff some user has the caller's email, and it is that user's id. |
| AdminRoutes.AdminBlogs | backend/routes/adminRoutes.js:13-20 | For a known caller: a post is listed iff the caller owns it, newest first. An unknown caller gets no answer. |
| AdminRoutes.AdminSearch | backend/routes/adminRoutes.js:22-39 | A post matches iff it matches the public search and the caller owns it, newest first. |
| AdminRoutes.AdminFilterQuery | backend/routes/adminRoutes.js:41-93 | An unknown caller gives 500. Otherwise the public filter rules apply, plus ownership by the caller. |
| AdminRoutes.AdminFilterIsOwnerScoped | backend/routes/adminRoutes.js:47 | Every post the admin filter selects belongs to the caller. |
| AdminRoutes.OwnerEmail | backend/routes/adminRoutes.js:101-103 | There is an owner email iff the reference resolves to a user, and it is that user's email. |
| AdminRoutes.DeleteBlog | backend/routes/adminRoutes.js:95-124 | Missing post 404, unresolvable owner 500, another owner's post 403, all changing nothing. Otherwise the post and exactly its comments are deleted, other posts keep all their comments, and 200 is answered. |
| AdminRoutes.PreviewKeys | backend/routes/adminRoutes.js:139-144 | The previews have an entry for an id iff some image item with that id has a value. |
| AdminRoutes.PreviewValues | backend/routes/adminRoutes.js:139-144 | The preview of an id is the value of the last image item with that id that has one. |
| AdminRoutes.StoredPreviews | backend/routes/adminRoutes.js:139-144 | Every stored image block with a URL is its own preview. |
| AdminRoutes.FetchBlogById | backend/routes/adminRoutes.js:126-152 | A missing post gives 404. Otherwise 200 with the type (or ""), the content and the previews the loop builds, which are `PreviewsOf` the content. |
| AdminRoutes.UpdateBlog | backend/routes/adminRoutes.js:154-210 | A failed walk gives 500 and changes nothing. A missing post gives 201 with null and changes nothing. Otherwise type, content and owner are replaced wholesale, reactions and creation time are kept, and 201 is answered with the new post. |
| AdminRoutes.UpdateKeepsResolvedImages | backend/routes/adminRoutes.js:171-189 | On success, an image block that already had a URL keeps it. |
| AuthRoutes.OtpCode | backend/routes/authRoutes.js:36 | The code is six decimal digits reading as 100000 + r. |
| AuthRoutes.OtpCodeRange | backend/routes/authRoutes.js:36 | Every code lies in [100000, 999999], and different draws give different codes. |
| AuthRoutes.PendingByName | backend/routes/authRoutes.js:46 | Finds a pending record with the name, or there is none. |
| AuthRoutes.PendingById | backend/routes/authRoutes.js:82 | Finds a pending record with the id, or there is none. |
| AuthRoutes.Upserted | backend/routes/authRoutes.js:46-67 | The record with the username is overwritten in place, keeping its id, or a new record is appended. Every other record is kept. |
| AuthRoutes.UpsertKeepsNamesUnique | backend/routes/authRoutes.js:46-67 | The upsert keeps usernames unique, and the lookup by name then finds the new code and expiry. |
| AuthRoutes.RequestOtp | backend/routes/authRoutes.js:24-77 | A missing field or a registered email gives 400, and a mail failure 500; none of these stores anything. Otherwise the code is mailed, the record is upserted expiring in ten minutes, and 200 carries its id. |
| AuthRoutes.FreshCodeAccepted | backend/routes/authRoutes.js:90 | A fresh record accepts its own code exactly until ten minutes have passed, and never another draw's code. |
| AuthRoutes.VerifyOtp | backend/routes/authRoutes.js:79-110 | An unknown pending id gives 404. With the code equal and unexpired, a user is created from the record, the record is deleted, and 200 is answered. Otherwise 400, keeping the record. |
| AuthRoutes.SignIn | backend/routes/authRoutes.js:112-139 | An unknown email gives 400 and a user without a password hash 500. Otherwise 200 with the email iff the password matches, else 400. |
| AuthRoutes.ClerkAuth | backend/routes/authRoutes.js:141-179 | A missing field gives 400. For an existing email, clerkId and name are updated with 200; otherwise a new user without a password is created with 201. Unique emails stay unique. |
| BlogDetails.FormatCount | frontend/src/pages/BlogDetails.jsx:20-24 | Below 1000, the decimal digits of the number itself. From 1000, floor(n/1000) with "K"; from 1,000,000, floor(n/1000000) with "M". There is never a leading zero. |
| BlogDetails.AfterLike | frontend/src/pages/BlogDetails.jsx:145-164 | A second like withdraws it, clamped at 0. Otherwise likes go up and a dislike is withdrawn, clamped at 0. Counts never go negative. |
| BlogDetails.AfterDislike | frontend/src/pages/BlogDetails.jsx:166-185 | The reaction toggles to or from "dislike", and counts never go negative. |
| BlogDetails.DislikeMirrorsLike | frontend/src/pages/BlogDetails.jsx:145-185 | Disliking is exactly liking with the two counters and reactions swapped. |
| BlogDetails.ReactionsStayKnown | frontend/src/pages/BlogDetails.jsx:145-185 | The reaction is always "", "like" or "dislike", and the same action twice from no reaction restores the view. |
| BlogDetails.ToggledLengths | backend/routes/blockRoutes.js:179-201 | The list lengths after a toggle, given exclusive lists. |
| BlogDetails.OptimisticUpdateAgrees | frontend/src/pages/BlogDetails.jsx:145-185 | A page that agrees with the server's lists still agrees after the server's toggle. |
| BlogDetails.DetailsPage.constructor | frontend/src/pages/BlogDetails.jsx:117-133 | Counters are the list lengths, the reaction is the remembered one (or ""), and the review form is empty. |
| BlogDetails.DetailsPage.HandleLike | frontend/src/pages/BlogDetails.jsx:145-164 | The view becomes `AfterLike` of the old view; the review form is untouched. |
| BlogDetails.DetailsPage.HandleDislike | frontend/src/pages/BlogDetails.jsx:166-185 | The view becomes `AfterDislike` of the old view; the review form is untouched. |
| BlogDetails.DetailsPage.SubmitReview | frontend/src/pages/BlogDetails.jsx:187-198 | Sends the current rating and comment, then clears both whatever the server answers; the counters are untouched. |
| BlogDetails.SubmitEnabledIff | frontend/src/pages/BlogDetails.jsx:362 | The button is enabled iff nothing is in flight and the comment has a non-blank character or the rating is not 0. |
| Validators.Utf16Length | frontend/src/pages/Signup_Login_Pages/signup.jsx:93 | The JavaScript length lies between the number of characters and twice that. |
| Validators.EmailShapeIsRegex | frontend/src/pages/Signup_Login_Pages/signup.jsx:102 | The executable shape check holds iff `\S+@\S+\.\S+` matches somewhere in the input. |
| Validators.EmailExamples | frontend/src/pages/Signup_Login_Pages/signin.jsx:133 | The match need not cover the whole input. A missing name, domain or dot fails. |
| Validators.ValidateSignup | frontend/src/pages/Signup_Login_Pages/signup.jsx:87-121 | All three checks run and each sets its own field's state. The form is valid iff all three pass. |
| Validators.ValidateSignin | frontend/src/pages/Signup_Login_Pages/signin.jsx:128-154 | Both checks run. The form is valid iff both pass, and a passing field's message is cleared. |
| Validators.SignupSubmit | frontend/src/pages/Signup_Login_Pages/signup.jsx:63-72 | A request is sent iff the form is valid, and it carries exactly username, email and password. |
| Validators.SigninSubmit | frontend/src/pages/Signup_Login_Pages/signin.jsx:104-112 | A sign-in call is made iff the form is valid, and it carries exactly email and password. |

## Where the code and the design description differ

The model follows the code in each of these cases:

- **Create.** The description says only image blocks lacking a value take a file. The create route's walk (backend/routes/blockRoutes.js:29) takes a file for every image block. Only update (backend/routes/adminRoutes.js:172) skips blocks that already have a value. See `ResolvedImageNeedsFileOnlyOnCreate`.
- **Update.** The description requires ownership. The route makes no ownership check, and it overwrites the owner with the caller's user record, which is null for an unknown caller. `Post.uploadedBy` is therefore optional. Create still answers 500 for an unknown caller, because the schema requires the field.
- **Update on a missing post.** The route answers 201 with null data (backend/routes/adminRoutes.js:194-204), not 404.
- **Review form.** It is cleared whatever the server answers. The store's review call catches every failure (frontend/src/store/useBlogStore.js.js:150-165), so the page's success branch always runs.
- **Sign-in.** A user created through the identity provider has no password hash. Comparing against it throws, so the route answers 500 rather than 400.
- **Admin listing and search.** These have no error handling. For a caller with no user record they fail before answering, which is modelled as no query. The admin filter catches the failure and answers 500.
- **Delete.** If the owner reference resolves to no user, reading its email throws, which the handler turns into 500.
- **Public search.** The route is registered as `getscarchResult` while the store requests `getSearchResult`. The model states the route's query and does not model the mismatch.

## Left out

- Media host, mailer, hashing, cookies and tokens. Uploads, the mailer's outcome, the password hash and its comparison are parameters. Cookies, JWT signing and the `isSignin` middleware (which rejects a caller who is already signed in) are not modelled.
- Query evaluation. Regular-expression matching, `populate`, and the order that sorting produces are left out. Regular-expression matching is an abstract predicate, and a query is modelled by what it selects and its sort key. No claim is made about ordering by likes.
- Clock and time zone. `now` and local `midnight` are parameters. "7 days ago" is now − 7·86 400 000 ms, ignoring daylight-saving shifts.
- Randomness. The code draw is a parameter `r < 900000`. `Date.now()` and `crypto.randomUUID()` ids are parameters.
- Concurrency and async ordering between requests, including the toggle's read-modify-write race.
- localStorage persistence of the reaction, toasts, navigation, loading flags and timers.
- Malformed input the route would crash on. This covers an unparsable `content` JSON, an id that is not a valid ObjectId, and a missing `type` field on create or update, where the blog type is taken to be a present string.
- The `loadFromLiveView` branch of BlogForm.jsx (193-202), which restores a draft from the live preview. Only the load of an existing post is modelled.
- The read routes `fetchBlogs` and `getPeosonalDetails`, which apply no rule beyond a lookup. The sign-out and login-check routes are left out too.
- `Object.entries` order. It is a parameter: any duplicate-free listing of the keys of `images`.
- The User and pending-signup schemas are not part of this model. Their records carry exactly the fields the routes read and write, and the ids come from one counter.
- BlogDetails.DetailsPage.SubmitReview: it requires the button to be enabled, since the handler is only reachable through the button. The request's outcome is not a parameter, because the page clears the form either way.
- BlogDetails.FormatCount: below 1000 the source returns the number itself. The model returns its decimal text, which is what gets rendered.
- Models.Post: `blockType` is free text, not the fixed category enumeration, because the schema does not restrict it.
