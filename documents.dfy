/** The two document collections the post controller works on, as values:
    the post collection (a map from id to document plus the collection's
    natural order, which is what paging slices) and the user collection
    (a map from user id to the user document with its `post` array).
    `Valid` is what the store itself guarantees; `Consistent` is the
    cross-collection bookkeeping the controller is meant to maintain. */
module Documents {

  /** Document ids (ObjectIds) are compared by value only, so plain numbers
      stand for them; the creator check compares ids, which is what comparing
      their string forms amounts to. */
  type PostId = nat
  type UserId = nat

  /** A post document (timestamps left out). */
  datatype Post = Post(id: PostId, title: string, content: string, imageUrl: string, creator: UserId)

  /** A user document; `posts` is its ordered `post` array of post ids. */
  datatype User = User(name: string, posts: seq<PostId>)

  /** Both collections. `order` lists the post ids in natural (insertion) order. */
  datatype Db = Db(posts: map<PostId, Post>, order: seq<PostId>, users: map<UserId, User>)

  ghost predicate NoDup(s: seq<PostId>)
  {
    forall i, j :: 0 <= i < j < |s| ==> s[i] != s[j]
  }

  /** What the post store guarantees: each document is filed under its own id,
      and `order` enumerates the stored ids exactly once. */
  ghost predicate Valid(db: Db)
  {
    && NoDup(db.order)
    && (forall i :: 0 <= i < |db.order| ==> db.order[i] in db.posts)
    && (forall id :: id in db.posts ==> id in db.order)
    && (forall id :: id in db.posts ==> db.posts[id].id == id)
  }

  /** Post `id` is listed in the `post` array of user `u`. */
  ghost predicate Lists(db: Db, u: UserId, id: PostId)
  {
    u in db.users && id in db.users[u].posts
  }

  /** Every post is listed by its creator, who exists. */
  ghost predicate AllListed(db: Db)
  {
    forall id :: id in db.posts ==> Lists(db, db.posts[id].creator, id)
  }

  /** Every id a user lists is a stored post created by that user. */
  ghost predicate AllOwned(db: Db)
  {
    forall u, id :: u in db.users && id in db.users[u].posts ==>
      id in db.posts && db.posts[id].creator == u
  }

  /** The two collections agree, in both directions. */
  ghost predicate Consistent(db: Db)
  {
    AllListed(db) && AllOwned(db)
  }

  /** Removes every occurrence of `x` (the array `pull` of the document store). */
  function Pull(s: seq<PostId>, x: PostId): (r: seq<PostId>)
    ensures forall y :: y in r <==> y in s && y != x
    ensures x !in s ==> r == s
  {
    if s == [] then []
    else if s[0] == x then Pull(s[1..], x)
    else [s[0]] + Pull(s[1..], x)
  }

  /** Pulling drops every copy of `x` and keeps every copy of everything else. */
  lemma {:induction false} PullCounts(s: seq<PostId>, x: PostId)
    ensures multiset(Pull(s, x)) == multiset(s)[x := 0]
  {
    if s != [] {
      assert s == [s[0]] + s[1..];
      PullCounts(s[1..], x);
    }
  }

  /** Pulling distributes over concatenation, so what stays keeps its
      relative order. */
  lemma {:induction false} PullDistributes(s: seq<PostId>, t: seq<PostId>, x: PostId)
    ensures Pull(s + t, x) == Pull(s, x) + Pull(t, x)
  {
    if s == [] {
      assert s + t == t;
    } else {
      assert (s + t)[0] == s[0] && (s + t)[1..] == s[1..] + t;
      PullDistributes(s[1..], t, x);
    }
  }

  /** Pulling from a duplicate-free list leaves a duplicate-free list. */
  lemma {:induction false} PullKeepsNoDup(s: seq<PostId>, x: PostId)
    requires NoDup(s)
    ensures NoDup(Pull(s, x))
  {
    if s != [] {
      assert NoDup(s[1..]) by {
        forall i, j | 0 <= i < j < |s[1..]| ensures s[1..][i] != s[1..][j] {
          assert s[1..][i] == s[i + 1] && s[1..][j] == s[j + 1];
        }
      }
      PullKeepsNoDup(s[1..], x);
      if s[0] != x {
        var t := Pull(s[1..], x);
        assert s[0] !in s[1..] by {
          forall k | 0 <= k < |s[1..]| ensures s[1..][k] != s[0] {
            assert s[1..][k] == s[k + 1];
          }
        }
        assert s[0] !in t;
        var r := [s[0]] + t;
        forall i, j | 0 <= i < j < |r| ensures r[i] != r[j] {
          if i == 0 {
            assert r[j] == t[j - 1] && r[j] in t;
          } else {
            assert r[i] == t[i - 1] && r[j] == t[j - 1];
          }
        }
      }
    }
  }

  // The store steps the controller performs, each as a change of value.

  /** `post.save()` of a new document: filed under its id, appended to the
      natural order. */
  function SavePost(db: Db, p: Post): Db
  {
    db.(posts := db.posts[p.id := p], order := db.order + [p.id])
  }

  /** `post.save()` of an existing document: replaced in place. */
  function ReplacePost(db: Db, p: Post): Db
  {
    db.(posts := db.posts[p.id := p])
  }

  /** `findByIdAndDelete(id)`. */
  function RemovePost(db: Db, id: PostId): Db
  {
    db.(posts := db.posts - {id}, order := Pull(db.order, id))
  }

  /** `user.post.push(id)` followed by `user.save()`. */
  function PushPost(db: Db, u: UserId, id: PostId): Db
    requires u in db.users
  {
    db.(users := db.users[u := db.users[u].(posts := db.users[u].posts + [id])])
  }

  /** `user.post.pull(id)` followed by `user.save()`. */
  function PullPost(db: Db, u: UserId, id: PostId): Db
    requires u in db.users
  {
    db.(users := db.users[u := db.users[u].(posts := Pull(db.users[u].posts, id))])
  }

  /** The store's own guarantees survive each post step. */
  lemma SaveKeepsValid(db: Db, p: Post)
    requires Valid(db) && p.id !in db.posts
    ensures Valid(SavePost(db, p))
  {
  }

  lemma ReplaceKeepsValid(db: Db, p: Post)
    requires Valid(db) && p.id in db.posts
    ensures Valid(ReplacePost(db, p))
  {
  }

  lemma RemoveKeepsValid(db: Db, id: PostId)
    requires Valid(db)
    ensures Valid(RemovePost(db, id))
  {
    PullKeepsNoDup(db.order, id);
    var db' := RemovePost(db, id);
    forall i | 0 <= i < |db'.order| ensures db'.order[i] in db'.posts {
      assert db'.order[i] in db'.order;
    }
  }

  /** The set of ids a list mentions. */
  function Members(s: seq<PostId>): (r: set<PostId>)
    ensures forall x :: x in r <==> x in s
  {
    if s == [] then {} else {s[0]} + Members(s[1..])
  }

  /** A duplicate-free list has as many elements as it mentions ids. */
  lemma {:induction false} DistinctCount(s: seq<PostId>)
    requires NoDup(s)
    ensures |Members(s)| == |s|
  {
    if s != [] {
      var rest := s[1..];
      assert NoDup(rest) by {
        forall i, j | 0 <= i < j < |rest| ensures rest[i] != rest[j] {
          assert rest[i] == s[i + 1] && rest[j] == s[j + 1];
        }
      }
      DistinctCount(rest);
      assert s[0] !in rest by {
        forall k | 0 <= k < |rest| ensures rest[k] != s[0] {
          assert rest[k] == s[k + 1];
        }
      }
      assert s[0] !in Members(rest);
    }
  }

  /** In a valid store, counting the documents and counting the natural order
      agree. */
  lemma CountMatchesOrder(db: Db)
    requires Valid(db)
    ensures |db.posts| == |db.order|
  {
    assert db.posts.Keys == Members(db.order);
    DistinctCount(db.order);
  }

  /** Saving a new post and pushing its id onto its creator's array, when that
      user exists (createPost when every step succeeds), keeps the
      collections consistent. */
  lemma CreateKeepsConsistent(db: Db, p: Post)
    requires p.id !in db.posts && p.creator in db.users
    ensures Consistent(db) ==> Consistent(PushPost(SavePost(db, p), p.creator, p.id))
  {
    if Consistent(db) {
      var db' := PushPost(SavePost(db, p), p.creator, p.id);
      forall id | id in db'.posts ensures Lists(db', db'.posts[id].creator, id) {
        if id != p.id {
          assert Lists(db, db.posts[id].creator, id);
        }
      }
      forall v, id | v in db'.users && id in db'.users[v].posts
        ensures id in db'.posts && db'.posts[id].creator == v
      {
        CreatedIsOwned(db, p, v, id);
      }
    }
  }

  lemma CreatedIsOwned(db: Db, p: Post, v: UserId, id: PostId)
    requires AllOwned(db) && p.id !in db.posts && p.creator in db.users
    requires v in db.users
    requires id in (if v == p.creator then db.users[v].posts + [p.id] else db.users[v].posts)
    ensures id in db.posts[p.id := p] && db.posts[p.id := p][id].creator == v
  {
  }

  /** Saving a post whose creator has no user document (createPost when the
      user lookup fails after the post was saved) leaves an orphan: the
      collections are no longer consistent, whatever they were before. */
  lemma OrphanBreaksConsistency(db: Db, p: Post)
    requires p.creator !in db.users
    ensures !Consistent(SavePost(db, p))
  {
    var db' := SavePost(db, p);
    assert p.id in db'.posts && !Lists(db', db'.posts[p.id].creator, p.id);
  }

  /** Deleting a post from a consistent store before its id is pulled from
      the creator's array (deletePost between the two writes, or when the
      pull never happens) leaves that array listing an id that is no longer
      stored: the collections are no longer consistent. */
  lemma RemoveLeavesDangling(db: Db, id: PostId)
    requires Consistent(db) && id in db.posts
    ensures !Consistent(RemovePost(db, id))
  {
  }

  /** Overwriting title, content and image of a stored post (updatePost)
      keeps the collections consistent, because id and creator stay. */
  lemma UpdateKeepsConsistent(db: Db, id: PostId, title: string, content: string, imageUrl: string)
    requires id in db.posts && db.posts[id].id == id
    ensures Consistent(db) ==> Consistent(ReplacePost(db, db.posts[id].(title := title, content := content, imageUrl := imageUrl)))
  {
  }

  /** Deleting a post and pulling its id from its creator's array (deletePost
      when every step succeeds) keeps the collections consistent; and in a
      consistent store the creator's user document is there to pull from. */
  lemma DeleteKeepsConsistent(db: Db, id: PostId)
    requires id in db.posts
    ensures Consistent(db) ==>
              && db.posts[id].creator in db.users
              && Consistent(PullPost(RemovePost(db, id), db.posts[id].creator, id))
  {
    if Consistent(db) {
      var c := db.posts[id].creator;
      assert Lists(db, c, id);
      var db' := PullPost(RemovePost(db, id), c, id);
      forall k | k in db'.posts ensures Lists(db', db'.posts[k].creator, k) {
        var w := db.posts[k].creator;
        assert Lists(db, w, k);
        if w == c {
          assert k in Pull(db.users[c].posts, id);
        }
      }
      forall v, k | v in db'.users && k in db'.users[v].posts
        ensures k in db'.posts && db'.posts[k].creator == v
      {
        OwnedAfterDelete(db, id, v, k);
      }
    }
  }

  lemma OwnedAfterDelete(db: Db, id: PostId, v: UserId, k: PostId)
    requires AllOwned(db) && id in db.posts && db.posts[id].creator in db.users
    requires v in db.users
    requires k in (if v == db.posts[id].creator then Pull(db.users[v].posts, id) else db.users[v].posts)
    ensures k in db.posts && k != id && db.posts[k].creator == v
  {
  }
}
