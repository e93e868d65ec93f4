/**
 * The admin routes: the caller's own posts (listing, search, filter), the
 * owner-checked delete with its comment cascade, the "fetch by id" answer
 * that seeds the editor, and the update that replaces a post's type,
 * content and owner wholesale.
 *
 * The listing and search handlers have no error handling: for a caller
 * with no user record they fail without answering, modelled as no query.
 */
module AdminRoutes {
  import opened Common
  import opened Models
  import opened Wire
  import opened BlockRoutes

  // ---------------------------------------------------------------------
  // Owner-scoped queries

  /** A condition narrowed to the posts of one owner. */
  function Scoped(c: Criteria, owner: ObjectId): (s: Criteria)
    ensures c.uploadedBy.None? ==>
      forall p: Post, regex: (string, string) -> bool {:trigger Matches(p, s, regex)} ::
        Matches(p, s, regex) <==> Matches(p, c, regex) && p.uploadedBy == Some(owner)
  {
    c.(uploadedBy := Some(owner))
  }

  /** The id of the caller's user record, if there is one (`User.findOne({email}).select("_id")`). */
  function CallerId(users: seq<User>, caller: string): (id: Option<ObjectId>)
    ensures id.Some? <==> UserByEmail(users, caller).Some?
    ensures id.Some? ==> exists i :: 0 <= i < |users| && users[i].email == caller && users[i].id == id.value
  {
    match UserByEmail(users, caller)
    case None => None
    case Some(i) => Some(users[i].id)
  }

  /** `adminBlogs`: every post of the caller, newest first. */
  method AdminBlogs(db: Database, caller: string) returns (q: Option<Query>)
    ensures q.Some? <==> CallerId(db.users, caller).Some?
    ensures q.Some? ==>
      && q.value.sort == CreatedAtDesc
      && forall p: Post, regex: (string, string) -> bool {:trigger Matches(p, q.value.criteria, regex)} ::
           Matches(p, q.value.criteria, regex) <==> p.uploadedBy == CallerId(db.users, caller)
  {
    var user := CallerId(db.users, caller);
    if user.None? {
      return None;
    }
    q := Some(Query(Scoped(Criteria(None, None, None, None), user.value), CreatedAtDesc));
  }

  /** `adminscarchResult`: the public search, restricted to the caller's posts, newest first. */
  method AdminSearch(db: Database, caller: string, value: string) returns (q: Option<Query>)
    ensures q.Some? <==> CallerId(db.users, caller).Some?
    ensures q.Some? ==>
      && q.value.sort == CreatedAtDesc
      && forall p: Post, regex: (string, string) -> bool {:trigger Matches(p, q.value.criteria, regex)} ::
           Matches(p, q.value.criteria, regex) <==>
             Matches(p, SearchQuery(value).criteria, regex) && p.uploadedBy == CallerId(db.users, caller)
  {
    var user := CallerId(db.users, caller);
    if user.None? {
      return None;
    }
    q := Some(Query(Scoped(SearchQuery(value).criteria, user.value), CreatedAtDesc));
  }

  /** The admin `onFilterChange`: the public filter's rules plus the owner equality; a caller without a user record answers 500. */
  method AdminFilterQuery(db: Database, caller: string, kind: Option<string>, sort: Option<string>, time: Option<string>, now: int, midnight: int)
    returns (status: nat, q: Option<Query>)
    ensures CallerId(db.users, caller).None? ==> status == 500 && q.None?
    ensures CallerId(db.users, caller).Some? ==>
      && status == 200 && q.Some?
      && FilterRules(q.value, kind, sort, time, now, midnight)
      && q.value.criteria.uploadedBy == CallerId(db.users, caller)
  {
    var user := CallerId(db.users, caller);
    if user.None? {
      return 500, None;
    }
    var base := BuildFilterQuery(kind, sort, time, now, midnight);
    q := Some(Query(Scoped(base.criteria, user.value), base.sort));
    status := 200;
  }

  /** Whatever the type, time and sort, every post the admin filter selects belongs to the caller. */
  lemma AdminFilterIsOwnerScoped(q: Query, owner: ObjectId, p: Post, regex: (string, string) -> bool)
    requires q.criteria.uploadedBy == Some(owner)
    ensures Matches(p, q.criteria, regex) ==> p.uploadedBy == Some(owner)
  {
  }

  // ---------------------------------------------------------------------
  // Delete

  /** The email of a post's owner, as `populate("uploadedBy", "email")` resolves it; none when the reference is null or dangling. */
  function OwnerEmail(users: seq<User>, p: Post): (e: Option<string>)
    ensures e.Some? <==> p.uploadedBy.Some? && UserById(users, p.uploadedBy.value).Some?
    ensures e.Some? ==> exists i :: 0 <= i < |users| && users[i].id == p.uploadedBy.value && users[i].email == e.value
  {
    if p.uploadedBy.None? then None
    else match UserById(users, p.uploadedBy.value)
      case None => None
      case Some(i) => Some(users[i].email)
  }

  /**
   * `deleteBlog`: 404 for a missing post, 500 when its owner cannot be
   * resolved (reading `email` of null throws), 403 when the owner's email
   * is not the caller's; none of these changes anything. Otherwise the post
   * is deleted, its comments go with it, every other post keeps its
   * comments, and 200 is answered.
   */
  method DeleteBlog(db: Database, caller: string, blogId: ObjectId) returns (status: nat)
    requires db.Valid()
    modifies db
    ensures db.Valid()
    ensures blogId !in old(db.posts) ==> status == 404 && unchanged(db)
    ensures blogId in old(db.posts) && OwnerEmail(old(db.users), old(db.posts)[blogId]).None? ==> status == 500 && unchanged(db)
    ensures blogId in old(db.posts) && OwnerEmail(old(db.users), old(db.posts)[blogId]).Some? ==>
      if OwnerEmail(old(db.users), old(db.posts)[blogId]).value != caller then status == 403 && unchanged(db)
      else
        && status == 200
        && db.posts == old(db.posts) - {blogId}
        && db.comments == CommentsNotFor(old(db.comments), blogId)
        && CommentsFor(db.comments, blogId) == []
        && (forall other :: other != blogId ==> CommentsFor(db.comments, other) == CommentsFor(old(db.comments), other))
        && db.users == old(db.users) && db.pending == old(db.pending) && db.nextId == old(db.nextId)
  {
    if blogId !in db.posts {
      return 404;
    }
    var owner := OwnerEmail(db.users, db.posts[blogId]);
    if owner.None? {
      return 500;
    }
    if owner.value != caller {
      return 403;
    }
    ghost var before := db.comments;
    var _ := db.FindByIdAndDelete(blogId);
    forall other | other != blogId
      ensures CommentsFor(db.comments, other) == CommentsFor(before, other)
    {
      CascadeIsolation(before, blogId, other);
    }
    CascadeIsolation(before, blogId, blogId);
    return 200;
  }

  // ---------------------------------------------------------------------
  // Fetch by id

  /** An item that gets a preview: an image block with a non-empty value. */
  predicate HasPreview(item: ContentItem) {
    item.kind == ImageKind && Truthy(item.value)
  }

  /** The `previews` object after the `forEach` over `items`: later items overwrite earlier ones with the same id. */
  function PreviewsOf(items: seq<ContentItem>): map<ObjectId, string>
    decreases |items|
  {
    if items == [] then map[]
    else
      var p := PreviewsOf(items[..|items| - 1]);
      var last := items[|items| - 1];
      if HasPreview(last) then p[last.id := last.value.value] else p
  }

  /** Item `i` has a preview and no later item with the same id has one. */
  ghost predicate LastPreview(items: seq<ContentItem>, i: nat)
    requires i < |items|
  {
    HasPreview(items[i]) && forall j :: i < j < |items| && items[j].id == items[i].id ==> !HasPreview(items[j])
  }

  /** The keys of the previews are exactly the ids of the items with a preview. */
  lemma {:induction false} PreviewKeys(items: seq<ContentItem>)
    ensures forall id :: id in PreviewsOf(items) <==> exists i :: 0 <= i < |items| && items[i].id == id && HasPreview(items[i])
    decreases |items|
  {
    if items != [] {
      var init := items[..|items| - 1];
      PreviewKeys(init);
      forall id ensures id in PreviewsOf(items) <==> exists i :: 0 <= i < |items| && items[i].id == id && HasPreview(items[i]) {
        if id in PreviewsOf(init) {
          var i :| 0 <= i < |init| && init[i].id == id && HasPreview(init[i]);
          assert items[i] == init[i];
        }
        if exists i :: 0 <= i < |items| && items[i].id == id && HasPreview(items[i]) {
          var i :| 0 <= i < |items| && items[i].id == id && HasPreview(items[i]);
          if i < |init| {
            assert init[i] == items[i];
          }
        }
      }
    }
  }

  /** An item with a preview that no later item with the same id replaces gives its URL. */
  lemma {:induction false} PreviewValues(items: seq<ContentItem>)
    ensures forall i :: 0 <= i < |items| && LastPreview(items, i) ==>
      items[i].id in PreviewsOf(items) && PreviewsOf(items)[items[i].id] == items[i].value.value
    decreases |items|
  {
    if items != [] {
      var init := items[..|items| - 1];
      PreviewValues(init);
      forall i | 0 <= i < |items| && LastPreview(items, i)
        ensures items[i].id in PreviewsOf(items) && PreviewsOf(items)[items[i].id] == items[i].value.value
      {
        if i < |init| {
          assert init[i] == items[i];
          forall j | i < j < |init|
            ensures init[j].id == init[i].id ==> !HasPreview(init[j])
          {
            assert init[j] == items[j];
          }
          assert LastPreview(init, i);
        }
      }
    }
  }

  /** Stored blocks have distinct ids, so every image block with a URL is its own preview. */
  lemma StoredPreviews(blocks: seq<BlockData>, firstId: ObjectId, i: nat)
    requires i < |blocks| && blocks[i].kind == ImageKind && Truthy(blocks[i].value)
    ensures var items := Stored(blocks, firstId);
      firstId + i in PreviewsOf(items) && PreviewsOf(items)[firstId + i] == blocks[i].value.value
  {
    var items := Stored(blocks, firstId);
    PreviewValues(items);
    assert items[i] == ContentItem(firstId + i, blocks[i].kind, blocks[i].value);
    assert LastPreview(items, i);
  }

  /**
   * `fetchBlogById`: 404 for a missing post; otherwise its type (empty when
   * absent), its stored blocks and the previews map built by the loop.
   */
  method FetchBlogById(db: Database, blogId: ObjectId) returns (status: nat, view: Option<EditView>)
    ensures blogId !in db.posts ==> status == 404 && view.None?
    ensures blogId in db.posts ==>
      var post := db.posts[blogId];
      && status == 200
      && view == Some(EditView(if Truthy(post.blockType) then post.blockType.value else "", post.content, PreviewsOf(post.content)))
  {
    if blogId !in db.posts {
      return 404, None;
    }
    var block := db.posts[blogId];
    var content := block.content;
    var kind := if Truthy(block.blockType) then block.blockType.value else "";
    var previews: map<ObjectId, string> := map[];
    for i := 0 to |content|
      invariant previews == PreviewsOf(content[..i])
    {
      var item := content[i];
      if item.kind == ImageKind && Truthy(item.value) {
        previews := previews[item.id := item.value.value];
      }
      assert content[..i + 1][..i] == content[..i];
    }
    assert content[..|content|] == content;
    return 200, Some(EditView(kind, content, previews));
  }

  // ---------------------------------------------------------------------
  // Update

  /**
   * `updateBLogs`. The blocks are stripped and resolved with only the image
   * blocks without a value taking a file; a failed resolution answers 500
   * and stores nothing. No ownership check is made. For an existing post,
   * type, content and owner are replaced wholesale (the owner is the
   * caller's user record, null when there is none) while its reactions and
   * creation time stay; 201 is answered with the new post. For a missing
   * post nothing is stored and 201 is answered with null.
   */
  method UpdateBlog(db: Database, caller: string, blogId: ObjectId, blockType: string, raw: seq<WireBlock>, files: seq<FileRef>, upload: FileRef -> Option<string>, now: int)
    returns (status: nat, updated: Option<Post>)
    requires db.Valid()
    modifies db
    ensures db.Valid()
    ensures var resolved := Resolution(PendingImagesOnly, Stripped(raw), files, upload, 0);
      if resolved.None? then status == 500 && updated.None? && unchanged(db)
      else if blogId !in old(db.posts) then status == 201 && updated.None? && unchanged(db)
      else
        var post := old(db.posts)[blogId].(blockType := Some(blockType), content := Stored(resolved.value, old(db.nextId)),
                                           uploadedBy := CallerId(old(db.users), caller), updatedAt := now);
        && status == 201
        && updated == Some(post)
        && db.posts == old(db.posts)[blogId := post]
        && db.nextId == old(db.nextId) + |raw|
        && db.users == old(db.users) && db.comments == old(db.comments) && db.pending == old(db.pending)
  {
    var content := Stripped(raw);
    var resolved := ResolveImages(PendingImagesOnly, content, files, upload);
    if resolved.None? {
      return 500, None;
    }
    var uploadedBy := CallerId(db.users, caller);
    if blogId !in db.posts {
      return 201, None;
    }
    ResolutionContents(PendingImagesOnly, content, files, upload, 0);
    var post := db.posts[blogId].(blockType := Some(blockType), content := Stored(resolved.value, db.nextId),
                                  uploadedBy := uploadedBy, updatedAt := now);
    db.posts := db.posts[blogId := post];
    db.nextId := db.nextId + |raw|;
    return 201, Some(post);
  }

  /** An update keeps the URL of every image block that already has one, and the stored post's reactions. */
  lemma UpdateKeepsResolvedImages(raw: seq<WireBlock>, files: seq<FileRef>, upload: FileRef -> Option<string>, i: nat)
    requires i < |raw| && raw[i].kind == ImageKind && raw[i].value.Present? && raw[i].value.v.Some?
    ensures var r := Resolution(PendingImagesOnly, Stripped(raw), files, upload, 0);
      r.Some? ==> |r.value| == |raw| && r.value[i].value == raw[i].value.v
  {
    ResolutionContents(PendingImagesOnly, Stripped(raw), files, upload, 0);
    var r := Resolution(PendingImagesOnly, Stripped(raw), files, upload, 0);
    if r.Some? {
      assert ResolvedAt(PendingImagesOnly, Stripped(raw), files, upload, 0, r.value, i);
    }
  }
}
