/** The post controller: listing, reading, creating, updating and deleting
    posts over the two document collections of module Documents. Each
    request handler is one sequential method of class Feed; the read-only
    queries are also given as functions of the store value. */
module FeedController {
  import opened Documents

  datatype Option<T> = None | Some(value: T)

  /** An error as a handler throws it: a message and, where the handler set
      one, a status code. */
  datatype Thrown = Thrown(message: string, statusCode: Option<int>)

  /** An error as it leaves the handler. */
  datatype Failure = Failure(statusCode: int, message: string)

  datatype Result<T> = Ok(value: T) | Err(error: Failure)

  const VALIDATION_FAILED := Thrown("Validation failed, entered data is incorrect.", Some(422))
  const NO_IMAGE_PROVIDED := Thrown("No image provided.", Some(422))
  const NO_FILE_PICKED := Thrown("No file picked", Some(422))
  const POST_NOT_FOUND := Thrown("Could not find post", Some(404))
  const NOT_AUTHENTICATED := Thrown("Not Authenticated", Some(403))
  /** What reading `post` of the null that a failed user lookup yields
      throws: a TypeError, with no status code of its own. */
  const NULL_USER := Thrown("Cannot read properties of null (reading 'post')", None)

  /** The handlers' `catch`: an error whose status code is missing or falsy
      (`!err.statusCode`, so also a code of 0) becomes a 500; any other code
      is kept; the message is passed on. */
  function Catch(e: Thrown): (f: Failure)
    ensures f.message == e.message
    ensures f.statusCode != 0
    ensures e.statusCode.None? ==> f.statusCode == 500
    ensures e.statusCode == Some(0) ==> f.statusCode == 500
    ensures e.statusCode.Some? && e.statusCode.value != 0 ==> f.statusCode == e.statusCode.value
  {
    match e.statusCode
    case None => Failure(500, e.message)
    case Some(code) => Failure(if code == 0 then 500 else code, e.message)
  }

  // ---------------------------------------------------------------------
  // Listing

  const PER_PAGE := 2

  /** Pages are numbered from 1. */
  type PageNumber = p: int | p >= 1 witness 1

  /** `req.query.page || 1`. */
  function CurrentPage(page: Option<PageNumber>): PageNumber
  {
    if page.Some? then page.value else 1
  }

  /** The number of posts skipped before page `p`. */
  function Skip(p: PageNumber): nat
  {
    (p - 1) * PER_PAGE
  }

  function Min(a: int, b: int): int
  {
    if a < b then a else b
  }

  /** A page of posts and the number of documents in the collection. */
  datatype Listing = Listing(posts: seq<Post>, totalItems: nat)

  /** getPosts: the count of all posts, then at most PER_PAGE posts taken in
      natural order after skipping the pages before the requested one. */
  function ListPosts(db: Db, page: Option<PageNumber>): (r: Listing)
    requires Valid(db)
    ensures r.totalItems == |db.posts|
    ensures |r.posts| <= PER_PAGE
    ensures var skip := Skip(CurrentPage(page));
            && |r.posts| == (if skip < |db.order| then Min(PER_PAGE, |db.order| - skip) else 0)
            && forall i :: 0 <= i < |r.posts| ==> r.posts[i] == db.posts[db.order[skip + i]]
  {
    CountMatchesOrder(db);
    var count := |db.order|;
    var skip := Skip(CurrentPage(page));
    var ids := db.order[Min(skip, count)..Min(skip + PER_PAGE, count)];
    Listing(seq(|ids|, i requires 0 <= i < |ids| => db.posts[ids[i]]), count)
  }

  /** An absent page number lists the first page. */
  lemma AbsentPageIsFirst(db: Db)
    requires Valid(db)
    ensures ListPosts(db, None) == ListPosts(db, Some(1))
  {
  }

  /** The post at position `i` of the natural order is listed on page
      i / PER_PAGE + 1, in slot i % PER_PAGE. */
  lemma ListedOnItsPage(db: Db, i: nat)
    requires Valid(db) && i < |db.order|
    ensures var listing := ListPosts(db, Some(i / PER_PAGE + 1));
            i % PER_PAGE < |listing.posts| && listing.posts[i % PER_PAGE] == db.posts[db.order[i]]
  {
  }

  /** ... and on no other page, in no other slot: paging partitions the
      collection. */
  lemma ListedOnlyOnItsPage(db: Db, i: nat, p: PageNumber, j: nat)
    requires Valid(db) && i < |db.order|
    requires j < |ListPosts(db, Some(p)).posts|
    requires ListPosts(db, Some(p)).posts[j] == db.posts[db.order[i]]
    ensures p == i / PER_PAGE + 1 && j == i % PER_PAGE
  {
  }

  // ---------------------------------------------------------------------
  // Reading one post

  /** getPost: the stored post, or 404 when there is none. */
  function FindPost(db: Db, id: PostId): (r: Result<Post>)
    ensures r.Ok? <==> id in db.posts
    ensures r.Ok? ==> r.value == db.posts[id]
    ensures r.Err? ==> r.error == Failure(404, "Could not find post")
  {
    if id in db.posts then Ok(db.posts[id]) else Err(Catch(POST_NOT_FOUND))
  }

  // ---------------------------------------------------------------------
  // The image URL of an update

  /** `s.replace(from, to)` with a one-character string pattern: only the
      FIRST occurrence of `from` is replaced. */
  function ReplaceFirst(s: string, from: char, to: char): (r: string)
    ensures |r| == |s|
    ensures forall i :: 0 <= i < |s| ==>
              r[i] == if s[i] == from && from !in s[..i] then to else s[i]
    ensures from !in s ==> r == s
  {
    if s == [] then []
    else if s[0] == from then [to] + s[1..]
    else [s[0]] + ReplaceFirst(s[1..], from, to)
  }

  /** updatePost's image URL: the uploaded file's path, with its first
      backslash turned into a slash, overrides `body.image`; `None` when the
      chosen value is missing or empty (falsy). */
  function ResolveImageUrl(bodyImage: Option<string>, file: Option<string>): (r: Option<string>)
    ensures r.Some? ==> r.value != ""
    ensures file.Some? ==> (r.Some? <==> file.value != "")
    ensures file.Some? && r.Some? ==> r.value == ReplaceFirst(file.value, '\\', '/')
    ensures file.None? ==> r == (if bodyImage.Some? && bodyImage.value != "" then bodyImage else None)
  {
    var imageUrl := if file.Some? then Some(ReplaceFirst(file.value, '\\', '/')) else bodyImage;
    if imageUrl.Some? && imageUrl.value != "" then imageUrl else None
  }

  /** A Windows upload path with two separators keeps the second one. */
  lemma OnlyFirstBackslashReplaced()
    ensures var r := ReplaceFirst("images\\a\\b.png", '\\', '/');
            |r| == 14 && r[6] == '/' && r[8] == '\\'
  {
    var s := "images\\a\\b.png";
    assert s[6] == '\\' && '\\' !in s[..6];
    assert s[8] == '\\' && s[..8][6] == '\\';
  }

  // ---------------------------------------------------------------------
  // The controller

  /** What createPost answers with: the post and its creator's id and name. */
  datatype Created = Created(post: Post, creatorId: UserId, creatorName: string)

  class Feed {
    var posts: map<PostId, Post>
    var order: seq<PostId>
    var users: map<UserId, User>
    /** The image paths handed to clearImage, oldest first. */
    ghost var cleared: seq<string>

    function State(): Db
      reads this
    {
      Db(posts, order, users)
    }

    ghost predicate Valid()
      reads this
    {
      Documents.Valid(State())
    }

    constructor (users: map<UserId, User>)
      ensures Valid() && State() == Db(map[], [], users) && cleared == []
    {
      posts, order, this.users := map[], [], users;
      cleared := [];
    }

    /** clearImage: removing the file is best effort and never fails the
        request; only the path is recorded. */
    method ClearImage(filePath: string)
      modifies this`cleared
      ensures cleared == old(cleared) + [filePath]
    {
      cleared := cleared + [filePath];
    }

    /** getPosts. */
    method GetPosts(page: Option<PageNumber>) returns (r: Listing)
      requires Valid()
      ensures r == ListPosts(State(), page)
    {
      r := ListPosts(State(), page);
    }

    /** getPost. */
    method GetPost(postId: PostId) returns (r: Result<Post>)
      ensures r == FindPost(State(), postId)
    {
      r := FindPost(State(), postId);
    }

    /** createPost: validation, then the image check, then the post is saved,
        then its creator is looked up and the post's id pushed onto the
        creator's array. The two writes are not atomic: when the creator
        has no user document the saved post stays behind as an orphan and
        the request fails with 500. `newId` is the id the store assigns. */
    method CreatePost(userId: UserId, fieldErrors: seq<string>, title: string, content: string,
                      file: Option<string>, newId: PostId) returns (r: Result<Created>)
      requires Valid()
      requires newId !in posts
      modifies this
      ensures Valid() && cleared == old(cleared)
      ensures fieldErrors != [] ==> r == Err(Catch(VALIDATION_FAILED)) && State() == old(State())
      ensures fieldErrors == [] && file.None? ==>
                r == Err(Catch(NO_IMAGE_PROVIDED)) && State() == old(State())
      ensures fieldErrors == [] && file.Some? ==>
                var post := Post(newId, title, content, file.value, userId);
                if userId in old(users) then
                  && r == Ok(Created(post, userId, old(users)[userId].name))
                  && State() == PushPost(SavePost(old(State()), post), userId, newId)
                else
                  && r == Err(Catch(NULL_USER))
                  && State() == SavePost(old(State()), post)
                  && !Consistent(State())
      ensures Consistent(old(State())) && r.Ok? ==> Consistent(State())
    {
      if fieldErrors != [] {
        r := Err(Catch(VALIDATION_FAILED));
        return;
      }
      if file.None? {
        r := Err(Catch(NO_IMAGE_PROVIDED));
        return;
      }
      var post := Post(newId, title, content, file.value, userId);
      ghost var before := State();
      SaveKeepsValid(before, post);
      // post.save()
      posts := posts[newId := post];
      order := order + [newId];
      // User.findById(req.userId), then user.post.push(post)
      if userId !in users {
        OrphanBreaksConsistency(before, post);
        r := Err(Catch(NULL_USER));
        return;
      }
      var user := users[userId];
      users := users[userId := user.(posts := user.posts + [newId])];
      CreateKeepsConsistent(before, post);
      r := Ok(Created(post, userId, user.name));
    }

    /** updatePost: validation, then the image URL, then existence, then
        ownership; the old image is cleared exactly when the URL changes,
        and only title, content and imageUrl are overwritten. */
    method UpdatePost(userId: UserId, postId: PostId, fieldErrors: seq<string>, title: string,
                      content: string, bodyImage: Option<string>, file: Option<string>)
      returns (r: Result<Post>)
      requires Valid()
      modifies this
      ensures Valid() && order == old(order) && users == old(users)
      ensures fieldErrors != [] ==> r == Err(Catch(VALIDATION_FAILED))
      ensures fieldErrors == [] && ResolveImageUrl(bodyImage, file).None? ==>
                r == Err(Catch(NO_FILE_PICKED))
      ensures fieldErrors == [] && ResolveImageUrl(bodyImage, file).Some? && postId !in old(posts) ==>
                r == Err(Catch(POST_NOT_FOUND))
      ensures fieldErrors == [] && ResolveImageUrl(bodyImage, file).Some? && postId in old(posts)
                && old(posts)[postId].creator != userId ==>
                r == Err(Catch(NOT_AUTHENTICATED))
      ensures r.Err? ==> posts == old(posts) && cleared == old(cleared)
      ensures r.Ok? <==> && fieldErrors == [] && ResolveImageUrl(bodyImage, file).Some?
                         && postId in old(posts) && old(posts)[postId].creator == userId
      ensures r.Ok? ==>
                var before := old(posts)[postId];
                var imageUrl := ResolveImageUrl(bodyImage, file).value;
                && r.value == before.(title := title, content := content, imageUrl := imageUrl)
                && r.value.id == postId && r.value.creator == userId
                && State() == ReplacePost(old(State()), r.value)
                && cleared == old(cleared) + (if imageUrl != before.imageUrl then [before.imageUrl] else [])
      ensures Consistent(old(State())) ==> Consistent(State())
    {
      if fieldErrors != [] {
        r := Err(Catch(VALIDATION_FAILED));
        return;
      }
      var imageUrl := ResolveImageUrl(bodyImage, file);
      if imageUrl.None? {
        r := Err(Catch(NO_FILE_PICKED));
        return;
      }
      // Post.findById(postId)
      if postId !in posts {
        r := Err(Catch(POST_NOT_FOUND));
        return;
      }
      var post := posts[postId];
      if post.creator != userId {
        r := Err(Catch(NOT_AUTHENTICATED));
        return;
      }
      if imageUrl.value != post.imageUrl {
        ClearImage(post.imageUrl);
      }
      var updated := post.(title := title, content := content, imageUrl := imageUrl.value);
      ghost var before := State();
      ReplaceKeepsValid(before, updated);
      UpdateKeepsConsistent(before, postId, title, content, imageUrl.value);
      // post.save()
      posts := posts[postId := updated];
      r := Ok(updated);
    }

    /** deletePost: existence, then ownership; then the image is cleared,
        the post deleted, its creator looked up and the id pulled from the
        creator's array. The writes are not atomic: when the user document
        is missing the post is already gone and the request fails with 500. */
    method DeletePost(userId: UserId, postId: PostId) returns (r: Result<()>)
      requires Valid()
      modifies this
      ensures Valid()
      ensures postId !in old(posts) ==> r == Err(Catch(POST_NOT_FOUND))
      ensures postId in old(posts) && old(posts)[postId].creator != userId ==>
                r == Err(Catch(NOT_AUTHENTICATED))
      ensures postId !in old(posts) || old(posts)[postId].creator != userId ==>
                State() == old(State()) && cleared == old(cleared)
      ensures postId in old(posts) && old(posts)[postId].creator == userId ==>
                && cleared == old(cleared) + [old(posts)[postId].imageUrl]
                && FindPost(State(), postId) == Err(Catch(POST_NOT_FOUND))
                && if userId in old(users) then
                     r == Ok(()) && State() == PullPost(RemovePost(old(State()), postId), userId, postId)
                   else
                     r == Err(Catch(NULL_USER)) && State() == RemovePost(old(State()), postId)
      ensures Consistent(old(State())) ==>
                && Consistent(State())
                && (r.Ok? <==> postId in old(posts) && old(posts)[postId].creator == userId)
    {
      // Post.findById(postId)
      if postId !in posts {
        r := Err(Catch(POST_NOT_FOUND));
        return;
      }
      var post := posts[postId];
      if post.creator != userId {
        r := Err(Catch(NOT_AUTHENTICATED));
        return;
      }
      ClearImage(post.imageUrl);
      ghost var before := State();
      RemoveKeepsValid(before, postId);
      DeleteKeepsConsistent(before, postId);
      // Post.findByIdAndDelete(postId)
      posts := posts - {postId};
      order := Pull(order, postId);
      // User.findById(req.userId), then user.post.pull(postId)
      if userId !in users {
        r := Err(Catch(NULL_USER));
        return;
      }
      var user := users[userId];
      users := users[userId := user.(posts := Pull(user.posts, postId))];
      r := Ok(());
    }
  }
}
