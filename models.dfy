/**
 * The persisted collections of the blogging backend: posts (Block.js, each
 * embedding its ordered content blocks and its two reaction lists), comments
 * (Comment.js), users and pending signups. The `Database` class holds the
 * collections that the route handlers read and update in place; the
 * document ids it hands out come from a counter.
 *
 * The User and pending-signup schemas are not part of this model's sources;
 * their records here carry exactly the fields the route handlers read and write.
 */
module Models {
  import opened Common

  /** A document id (MongoDB ObjectId). */
  type ObjectId = nat

  /** The content block types the editor offers; a block's type is free text to the schema. */
  const TitleKind := "title"
  const ImageKind := "image"

  /** The `{type, value}` pair of one content block, as Block.js declares it. */
  datatype BlockData = BlockData(kind: string, value: Option<string>)

  /** One stored content block, with the id the database gives each array element. */
  datatype ContentItem = ContentItem(id: ObjectId, kind: string, value: Option<string>)

  /** The array elements the database stores for `blocks`, numbered from `firstId`. */
  function Stored(blocks: seq<BlockData>, firstId: ObjectId): (r: seq<ContentItem>)
    ensures |r| == |blocks|
    ensures forall i :: 0 <= i < |r| ==> r[i] == ContentItem(firstId + i, blocks[i].kind, blocks[i].value)
  {
    seq(|blocks|, i requires 0 <= i < |blocks| => ContentItem(firstId + i, blocks[i].kind, blocks[i].value))
  }

  /** A post ("Block" in the source). `uploadedBy` is required when a post is created; an update can overwrite it with null. */
  datatype Post = Post(
    uploadedBy: Option<ObjectId>,
    blockType: Option<string>,
    content: seq<ContentItem>,
    likes: seq<ObjectId>,
    dislikes: seq<ObjectId>,
    createdAt: int,
    updatedAt: int)

  /** A review of a post. The rating is kept as the text the schema stores. */
  datatype Comment = Comment(commentBy: ObjectId, commentFor: ObjectId, comment: string, rating: string)

  /** A registered user: password-based (hash present) or signed in through the external identity provider (clerkId present). */
  datatype User = User(id: ObjectId, name: string, email: string, password: Option<string>, clerkId: Option<string>)

  /** A signup waiting for its one-time code. */
  datatype PendingSignup = PendingSignup(id: ObjectId, name: string, email: string, password: string, otp: string, otpExpires: int)

  /** `User.findOne({email})`: the position of the first user with that email. */
  function UserByEmail(users: seq<User>, email: string): (r: Option<nat>)
    ensures r.Some? ==> r.value < |users| && users[r.value].email == email
    ensures r.None? ==> forall j :: 0 <= j < |users| ==> users[j].email != email
  {
    FirstWhere(users, (u: User) => u.email == email)
  }

  /** The user a reference points to (what `populate` resolves). */
  function UserById(users: seq<User>, id: ObjectId): (r: Option<nat>)
    ensures r.Some? ==> r.value < |users| && users[r.value].id == id
    ensures r.None? ==> forall j :: 0 <= j < |users| ==> users[j].id != id
  {
    FirstWhere(users, (u: User) => u.id == id)
  }

  /** `Comment.find({comment_for: postId})`: the comments of one post, in collection order. */
  function CommentsFor(comments: seq<Comment>, postId: ObjectId): (r: seq<Comment>)
    ensures forall c :: c in r <==> c in comments && c.commentFor == postId
  {
    Filter(comments, (c: Comment) => c.commentFor == postId)
  }

  /** What `Comment.deleteMany({comment_for: postId})` leaves: every comment of every other post, in collection order. */
  function CommentsNotFor(comments: seq<Comment>, postId: ObjectId): (r: seq<Comment>)
    ensures forall c :: c in r <==> c in comments && c.commentFor != postId
  {
    Filter(comments, (c: Comment) => c.commentFor != postId)
  }

  /** The two selections split the collection: each comment lands in exactly one of them, as often as it occurs. */
  lemma CommentsPartition(comments: seq<Comment>, postId: ObjectId)
    ensures multiset(CommentsFor(comments, postId)) + multiset(CommentsNotFor(comments, postId)) == multiset(comments)
  {
    var a, b := multiset(CommentsFor(comments, postId)), multiset(CommentsNotFor(comments, postId));
    forall c ensures (a + b)[c] == multiset(comments)[c] {
    }
  }

  /** After the cascade, the deleted post has no comments left, and every other post keeps exactly its own, in order. */
  lemma {:induction false} CascadeIsolation(comments: seq<Comment>, deleted: ObjectId, other: ObjectId)
    ensures CommentsFor(CommentsNotFor(comments, deleted), deleted) == []
    ensures other != deleted ==> CommentsFor(CommentsNotFor(comments, deleted), other) == CommentsFor(comments, other)
  {
    if comments != [] {
      CascadeIsolation(comments[1..], deleted, other);
      assert comments == [comments[0]] + comments[1..];
      FilterConcat([comments[0]], comments[1..], (c: Comment) => c.commentFor != deleted);
      FilterConcat([comments[0]], comments[1..], (c: Comment) => c.commentFor == other);
      var kept := CommentsNotFor(comments[1..], deleted);
      if comments[0].commentFor != deleted {
        FilterConcat([comments[0]], kept, (c: Comment) => c.commentFor == deleted);
        FilterConcat([comments[0]], kept, (c: Comment) => c.commentFor == other);
      }
    }
  }

  /** Every user appears at most once over the two reaction lists of a post. */
  ghost predicate ReactionsExclusive(likes: seq<ObjectId>, dislikes: seq<ObjectId>) {
    forall u :: Occurrences(likes, u) + Occurrences(dislikes, u) <= 1
  }

  class Database {
    var users: seq<User>
    var posts: map<ObjectId, Post>
    var comments: seq<Comment>
    var pending: seq<PendingSignup>
    /** The next fresh document id. */
    var nextId: ObjectId

    /** Every id in use is below the counter, and no post has a user twice over its reaction lists. */
    ghost predicate Valid()
      reads this
    {
      && (forall id :: id in posts ==> id < nextId)
      && (forall i :: 0 <= i < |users| ==> users[i].id < nextId)
      && (forall i :: 0 <= i < |pending| ==> pending[i].id < nextId)
      && (forall id :: id in posts ==> ReactionsExclusive(posts[id].likes, posts[id].dislikes))
    }

    constructor ()
      ensures Valid()
      ensures users == [] && posts == map[] && comments == [] && pending == []
    {
      users, posts, comments, pending := [], map[], [], [];
      nextId := 0;
    }

    /** `Block.findByIdAndDelete(postId)` followed by the schema's post-delete hook, which removes the post's comments only when a document was deleted. */
    method FindByIdAndDelete(postId: ObjectId) returns (doc: Option<Post>)
      requires Valid()
      modifies this
      ensures Valid()
      ensures doc == if postId in old(posts) then Some(old(posts)[postId]) else None
      ensures posts == old(posts) - {postId}
      ensures comments == if doc.Some? then CommentsNotFor(old(comments), postId) else old(comments)
      ensures users == old(users) && pending == old(pending) && nextId == old(nextId)
    {
      if postId in posts {
        doc := Some(posts[postId]);
        posts := posts - {postId};
      } else {
        doc := None;
      }
      // the post("findOneAndDelete") hook
      if doc.Some? {
        comments := CommentsNotFor(comments, postId);
      }
    }
  }
}
