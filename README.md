# Post lifecycle of a REST feed controller, modelled in Dafny

This project models the post controller of a small REST backend
(`controllers/feed.js`). The controller works on two document collections:

- the **post collection**: each post document holds an id, title, content,
  image URL and creator, and the collection has a natural order that paging
  slices;
- the **user collection**: each user document holds a name and a `post`
  array, the ordered ids of that user's posts.

The controller has five request handlers. `getPosts` returns a page of at
most two posts plus the total count. `getPost` returns one post, or 404.
`createPost` validates the request, saves the post and pushes its id onto the
creator's array. `updatePost` validates the request and resolves the image
URL, then checks that the post exists and that the caller owns it. It clears
the old image when the URL changes and overwrites title, content and image
URL. `deletePost` checks existence and ownership, clears the image, deletes
the post and pulls its id from the creator's array. A failure carries 422,
404, 403 or 500, and an error with no status code of its own becomes 500.

Layout:

- `documents.dfy`, module `Documents`, holds the collections as values (`Db`).
  - `Valid` is what the store guarantees.
  - `Consistent` is the cross-collection bookkeeping: every post is listed by
    its existing creator, and every listed id is a post created by that user.
  - Each store step is a function: `SavePost`, `ReplacePost`, `RemovePost`,
    `PushPost`, and `PullPost` with its helper `Pull`.
  - Lemmas say which sequences of steps keep the store valid and consistent.
- `feed.dfy`, module `FeedController`, holds the rest.
  - Error classification: `Catch`.
  - Paging: `ListPosts` and its lemmas.
  - Lookup: `FindPost`.
  - Image URL resolution: `ReplaceFirst` and `ResolveImageUrl`.
  - Class `Feed`: its fields are the two collections, and its ghost `cleared`
    log records the paths handed to `clearImage`. Each handler is one
    sequential method whose contract ties the new state to the store-step
    functions.

The model follows the code at these points:

- `updatePost` replaces only the first backslash of an uploaded path, because
  `String.prototype.replace` with a string pattern stops at the first match.
  Later backslashes stay (`OnlyFirstBackslashReplaced`).
- `createPost` stores the uploaded path as given, with no backslash
  replacement. So on a Windows host, re-uploading the same file through
  `updatePost` yields a different URL and clears the old image.
- A page given as a non-numeric string is not treated as page 1. The code
  computes `NaN` from it. The model therefore takes the page as an optional
  number of at least 1. An empty page value, by contrast, is page 1.
- When the user document is missing, `createPost` and `deletePost` fail with
  500 from the TypeError raised by reading `post` of `null`. By then,
  `createPost` has already saved the post, which stays as an orphan.
  `deletePost` has already cleared the image and deleted the post. Even when
  the user exists, the deletion and the pull are two separate writes, and in
  between the user's array lists a post that is gone
  (`RemoveLeavesDangling`).

## Model

| member | source | states |
|---|---|---|
| `FeedController.Catch` | controllers/feed.js:29-33 | an error whose status code is missing or falsy (0) leaves the handler as 500; any other code is kept; the answer never carries 0; the message is kept |
| `FeedController.ListPosts` | controllers/feed.js:8-18 | the page holds at most 2 posts, exactly min(2, count - skip) of them (none past the end). They are the posts at natural-order positions skip, skip+1 with skip = (page-1)*2, and an absent page counts as page 1. totalItems is the number of stored posts |
| `FeedController.AbsentPageIsFirst` | controllers/feed.js:9 | listing with no page number equals listing page 1 |
| `FeedController.ListedOnItsPage` | controllers/feed.js:16-18 | the post at position i is listed on page i/2+1 in slot i%2 |
| `FeedController.ListedOnlyOnItsPage` | controllers/feed.js:16-18 | a post listed on page p in slot j sits at position (p-1)*2+j: no post appears on two pages |
| `FeedController.FindPost` | controllers/feed.js:84-93 | the lookup succeeds exactly when the id is stored and then returns the stored post unchanged; otherwise it fails with 404 "Could not find post" |
| `FeedController.ReplaceFirst` | controllers/feed.js:116 | same length; the first occurrence of the pattern character is replaced and every other character is kept; no occurrence means no change |
| `FeedController.ResolveImageUrl` | controllers/feed.js:113-122 | an uploaded file's path (first backslash made '/') overrides body.image. The result is never empty. It is missing exactly when the chosen value is missing or empty |
| `FeedController.OnlyFirstBackslashReplaced` | controllers/feed.js:116 | on `images\a\b.png` the first separator becomes '/' and the second stays a backslash |
| `FeedController.Feed.ClearImage` | controllers/feed.js:190-193 | clearing an image appends its path to the log and never fails |
| `FeedController.Feed.GetPosts` | controllers/feed.js:8-27 | the handler answers `ListPosts` of the current collections and changes nothing |
| `FeedController.Feed.GetPost` | controllers/feed.js:84-101 | the handler answers `FindPost` of the current collections and changes nothing |
| `FeedController.Feed.CreatePost` | controllers/feed.js:37-82 | validation errors give 422 first, then a missing file gives 422, and both leave everything unchanged. Otherwise the post (creator = caller, imageUrl = file path) is saved and appended to the order. If the caller's user exists, the id is pushed onto its array and the answer holds the post and the creator's id and name. If not, the answer is 500, the post stays, and the store is left inconsistent. Consistency is kept on success, and nothing is cleared |
| `FeedController.Feed.UpdatePost` | controllers/feed.js:103-153 | checks fire in order: validation 422, empty image URL 422, missing post 404, non-creator 403. Any failure leaves posts and the image log unchanged. Success happens exactly when all checks pass: only title, content and imageUrl change (id and creator stay), and the old image is cleared exactly when the new URL differs. Order, users and consistency are preserved |
| `FeedController.Feed.DeletePost` | controllers/feed.js:155-188 | a missing post gives 404, then a non-creator gives 403, and both change nothing. For the creator, the image is cleared, the post removed (a later lookup gives 404) and its id pulled from the user's array. If the user document is missing the answer is 500 after the post is gone. In a consistent store, success happens exactly for the creator, and consistency is kept |
| `Documents.Pull` | controllers/feed.js:176 | the result contains exactly the ids of the input other than the pulled one; an absent id leaves the array as it was |
| `Documents.PullCounts` | controllers/feed.js:176 | pulling drops every copy of the id and keeps every copy of every other id |
| `Documents.PullDistributes` | controllers/feed.js:176 | pulling distributes over concatenation, so the kept ids keep their relative order |
| `Documents.PullKeepsNoDup` | controllers/feed.js:170 | removing a post from a duplicate-free natural order leaves it duplicate-free |
| `Documents.SaveKeepsValid` | controllers/feed.js:59-60 | saving a post under a fresh id keeps the post collection valid |
| `Documents.ReplaceKeepsValid` | controllers/feed.js:139-142 | saving an existing post back keeps the post collection valid |
| `Documents.RemoveKeepsValid` | controllers/feed.js:170 | deleting a post keeps the post collection valid |
| `Documents.CountMatchesOrder` | controllers/feed.js:12-15 | in a valid collection the document count equals the length of the natural order that paging slices |
| `Documents.CreateKeepsConsistent` | controllers/feed.js:59-67 | saving a post and pushing its id onto its existing creator's array keeps the collections consistent |
| `Documents.OrphanBreaksConsistency` | controllers/feed.js:59-68 | saving a post whose creator has no user document leaves the collections inconsistent |
| `Documents.RemoveLeavesDangling` | controllers/feed.js:170-176 | deleting a post from a consistent store before its id is pulled from the creator's array leaves that array listing a missing post: the collections are inconsistent until the pull |
| `Documents.UpdateKeepsConsistent` | controllers/feed.js:136-142 | overwriting title, content and image URL keeps the collections consistent |
| `Documents.DeleteKeepsConsistent` | controllers/feed.js:169-177 | in a consistent store the creator's user document exists. Deleting the post and pulling its id from that array keeps the collections consistent |

## Left out

- `routes/auth.js` is not part of this model. It wires routes to a controller
  that is not shown. Its validation rules belong to an external library, and
  its e-mail uniqueness check starts a query whose promise it never returns.
- Request validation is an input, `fieldErrors`. The model does not restate
  the validator's rules for title and content.
- The file-system side of `clearImage` (`path.join`, `fs.unlink`, logging its
  errors) is not modelled. The model only records the path and never fails.
  Storing uploads is external too: the upload arrives as an optional path.
- Document-store semantics are abstracted as map and sequence operations.
  That covers `countDocuments`, `skip`/`limit`, `findById`,
  `findByIdAndDelete`, `save`, `push` and `pull`. Natural order is taken to be
  insertion order. Timestamps are left out.
- Id generation is left out. `CreatePost` receives the new id and requires
  that it is not already stored. Ids are compared by value, so they are
  numbers in the model.
- Store failures are left out, so the 500 answer they would cause is not
  modelled. The only error without a status code in the model is the
  null-user TypeError.
- Not every page value is modelled. An empty value (`?page=`) is falsy, so
  `req.query.page || 1` makes it page 1, which is the model's absent page
  (`AbsentPageIsFirst`). A non-numeric value gives `NaN`, and zero or a
  negative number gives a negative skip. A fractional value such as `1.5`
  gives an odd skip (1), which no page of the model starts at. The model
  takes the page as an optional integer of at least 1, so these cases are
  left out.
- The HTTP side is left out: response shapes, the 200/201 success codes,
  success messages, `next()`, and the asynchronous promise chains. Each
  handler is one sequential method.
- Concurrency between requests is left out, so the last-write-wins
  interleavings are not modelled.
