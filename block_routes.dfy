/**
 * The public post routes of the backend: creating a post (with the image
 * resolution walk that trades each image block for an uploaded file's URL),
 * the filter query builder, the like/dislike toggle and the review routes.
 *
 * The media host is a parameter `upload` from a received file to its URL
 * (none when the upload fails); the caller's identity is the email the
 * authentication middleware put on the request.
 */
module BlockRoutes {
  import opened Common
  import opened Models
  import opened Wire

  /** Milliseconds in a day. */
  const DayMs := 24 * 60 * 60 * 1000

  // ---------------------------------------------------------------------
  // Stripping and image resolution (create, and update in AdminRoutes)

  /** `({ type, value }) => ({ type, value })`: the client id is dropped, an omitted value becomes absent. */
  function Strip(w: WireBlock): (b: BlockData)
    ensures b.kind == w.kind
    ensures w.value.Present? ==> b.value == w.value.v
    ensures w.value.Omitted? ==> b.value.None?
  {
    match w.value
    case Omitted => BlockData(w.kind, None)
    case Present(v) => BlockData(w.kind, v)
  }

  function Stripped(raw: seq<WireBlock>): (r: seq<BlockData>)
    ensures |r| == |raw|
    ensures forall i :: 0 <= i < |raw| ==> r[i] == Strip(raw[i])
  {
    seq(|raw|, i requires 0 <= i < |raw| => Strip(raw[i]))
  }

  /** Which image blocks take a file: every one (create), or only those without a value (update). */
  datatype ResolveMode = EveryImage | PendingImagesOnly

  predicate Consumes(mode: ResolveMode, b: BlockData) {
    b.kind == ImageKind && (mode == EveryImage || b.value.None?)
  }

  /** The number of blocks in `blocks` that take a file. */
  function Needed(mode: ResolveMode, blocks: seq<BlockData>): (n: nat)
    ensures n <= |blocks|
  {
    if blocks == [] then 0
    else (if Consumes(mode, blocks[0]) then 1 else 0) + Needed(mode, blocks[1..])
  }

  function Prepend(d: seq<BlockData>, r: Option<seq<BlockData>>): Option<seq<BlockData>> {
    match r
    case None => None
    case Some(s) => Some(d + s)
  }

  lemma PrependEmpty(r: Option<seq<BlockData>>)
    ensures Prepend([], r) == r
  {
    if r.Some? {
      assert [] + r.value == r.value;
    }
  }

  lemma PrependAssoc(a: seq<BlockData>, b: seq<BlockData>, r: Option<seq<BlockData>>)
    ensures Prepend(a, Prepend(b, r)) == Prepend(a + b, r)
  {
    if r.Some? {
      assert a + (b + r.value) == (a + b) + r.value;
    }
  }

  /**
   * The content after the resolution walk, the file cursor starting at `k`:
   * each consuming block takes the URL of the next file. None is the 500
   * answer: a file is missing (`files[fileIndex]` is undefined) or its upload fails.
   */
  function Resolution(mode: ResolveMode, blocks: seq<BlockData>, files: seq<FileRef>, upload: FileRef -> Option<string>, k: nat): Option<seq<BlockData>>
    decreases |blocks|
  {
    if blocks == [] then Some([])
    else if Consumes(mode, blocks[0]) then
      if k < |files| && upload(files[k]).Some? then
        Prepend([BlockData(blocks[0].kind, upload(files[k]))], Resolution(mode, blocks[1..], files, upload, k + 1))
      else None
    else Prepend([blocks[0]], Resolution(mode, blocks[1..], files, upload, k))
  }

  /** The walk succeeds exactly when there is a file for every consuming block and each of those uploads succeeds. */
  lemma {:induction false} ResolutionSucceeds(mode: ResolveMode, blocks: seq<BlockData>, files: seq<FileRef>, upload: FileRef -> Option<string>, k: nat)
    requires k <= |files|
    ensures Resolution(mode, blocks, files, upload, k).Some? <==>
      && k + Needed(mode, blocks) <= |files|
      && forall j :: k <= j < k + Needed(mode, blocks) ==> upload(files[j]).Some?
    decreases |blocks|
  {
    if blocks != [] {
      var n := Needed(mode, blocks);
      if Consumes(mode, blocks[0]) {
        if k < |files| {
          ResolutionSucceeds(mode, blocks[1..], files, upload, k + 1);
        }
        if k + n <= |files| && forall j :: k <= j < k + n ==> upload(files[j]).Some? {
          assert upload(files[k]).Some?;
        }
      } else {
        ResolutionSucceeds(mode, blocks[1..], files, upload, k);
      }
    }
  }

  /** The consuming blocks before position `i`. */
  lemma NeededPrefixStep(mode: ResolveMode, blocks: seq<BlockData>, i: nat)
    requires 0 < i <= |blocks|
    ensures Needed(mode, blocks[..i]) == (if Consumes(mode, blocks[0]) then 1 else 0) + Needed(mode, blocks[1..][..i - 1])
  {
    assert blocks[..i][0] == blocks[0];
    assert blocks[..i][1..] == blocks[1..][..i - 1];
  }

  /** What the walk leaves at one position, given that it succeeds. */
  ghost predicate ResolvedAt(mode: ResolveMode, blocks: seq<BlockData>, files: seq<FileRef>, upload: FileRef -> Option<string>, k: nat, r: seq<BlockData>, i: nat)
    requires i < |blocks| && i < |r|
  {
    && r[i].kind == blocks[i].kind
    && (!Consumes(mode, blocks[i]) ==> r[i].value == blocks[i].value)
    && (Consumes(mode, blocks[i]) ==>
          k + Needed(mode, blocks[..i]) < |files| && r[i].value == upload(files[k + Needed(mode, blocks[..i])]))
  }

  /**
   * On success the content keeps its length, order and types; the block at
   * position `i` takes the URL of file number `k + c`, where `c` counts the
   * consuming blocks before it, if it consumes one, and keeps its value otherwise.
   */
  lemma {:induction false} ResolutionContents(mode: ResolveMode, blocks: seq<BlockData>, files: seq<FileRef>, upload: FileRef -> Option<string>, k: nat)
    ensures var r := Resolution(mode, blocks, files, upload, k);
      r.Some? ==> |r.value| == |blocks| && forall i :: 0 <= i < |blocks| ==> ResolvedAt(mode, blocks, files, upload, k, r.value, i)
    decreases |blocks|
  {
    var r := Resolution(mode, blocks, files, upload, k);
    if blocks != [] && r.Some? {
      var k' := if Consumes(mode, blocks[0]) then k + 1 else k;
      ResolutionContents(mode, blocks[1..], files, upload, k');
      var rest := Resolution(mode, blocks[1..], files, upload, k');
      assert r.value == [r.value[0]] + rest.value;
      forall i | 0 <= i < |blocks|
        ensures ResolvedAt(mode, blocks, files, upload, k, r.value, i)
      {
        if i == 0 {
          assert blocks[..0] == [];
        } else {
          ResolvedAtStep(mode, blocks, files, upload, k, r.value, rest.value, i);
        }
      }
    }
  }

  lemma ResolvedAtStep(mode: ResolveMode, blocks: seq<BlockData>, files: seq<FileRef>, upload: FileRef -> Option<string>, k: nat, r: seq<BlockData>, rest: seq<BlockData>, i: nat)
    requires 0 < i < |blocks| && |r| == |blocks| && r[1..] == rest && |rest| == |blocks| - 1
    requires ResolvedAt(mode, blocks[1..], files, upload, if Consumes(mode, blocks[0]) then k + 1 else k, rest, i - 1)
    ensures ResolvedAt(mode, blocks, files, upload, k, r, i)
  {
    NeededPrefixStep(mode, blocks, i);
    assert r[i] == rest[i - 1];
    assert blocks[i] == blocks[1..][i - 1];
  }

  /**
   * The resolution loop of the create and update routes: `content[i].value`
   * is overwritten with the uploaded URL of `files[fileIndex]` for each
   * consuming block, in content order. None is the 500 answer.
   */
  method ResolveImages(mode: ResolveMode, blocks: seq<BlockData>, files: seq<FileRef>, upload: FileRef -> Option<string>)
    returns (resolved: Option<seq<BlockData>>)
    ensures resolved == Resolution(mode, blocks, files, upload, 0)
  {
    var content := blocks;
    var fileIndex := 0;
    var i := 0;
    assert blocks[0..] == blocks && content[..0] == [];
    PrependEmpty(Resolution(mode, blocks, files, upload, 0));
    while i < |content|
      invariant 0 <= i <= |blocks| == |content|
      invariant content[i..] == blocks[i..]
      invariant Resolution(mode, blocks, files, upload, 0) == Prepend(content[..i], Resolution(mode, blocks[i..], files, upload, fileIndex))
    {
      assert blocks[i..][0] == blocks[i] && blocks[i..][1..] == blocks[i + 1..];
      ghost var before := content;
      if Consumes(mode, content[i]) {
        if fileIndex >= |files| || upload(files[fileIndex]).None? {
          return None;
        }
        content := content[i := BlockData(content[i].kind, upload(files[fileIndex]))];
        fileIndex := fileIndex + 1;
      }
      assert content[..i + 1] == before[..i] + [content[i]];
      assert content[i + 1..] == before[i + 1..];
      PrependAssoc(before[..i], [content[i]], Resolution(mode, blocks[i + 1..], files, upload, fileIndex));
      i := i + 1;
    }
    assert content[..i] == content && content + [] == content;
    return Some(content);
  }

  /** Create's walk consumes a file for an image block that already carries a URL; update's does not. */
  lemma ResolvedImageNeedsFileOnlyOnCreate(url: string, upload: FileRef -> Option<string>)
    ensures var blocks := [BlockData(TitleKind, Some("t")), BlockData(ImageKind, Some(url))];
      && Resolution(EveryImage, blocks, [], upload, 0).None?
      && Resolution(PendingImagesOnly, blocks, [], upload, 0) == Some(blocks)
  {
    var blocks := [BlockData(TitleKind, Some("t")), BlockData(ImageKind, Some(url))];
    assert blocks[1..][1..] == [];
    assert blocks[1..][0] == blocks[1] && !Consumes(PendingImagesOnly, blocks[1]);
    assert Resolution(PendingImagesOnly, blocks[1..][1..], [], upload, 0) == Some([]);
    assert [blocks[1]] + [] == [blocks[1]];
    assert Resolution(PendingImagesOnly, blocks[1..], [], upload, 0) == Some([blocks[1]]);
    assert [blocks[0]] + [blocks[1]] == blocks;
  }

  // ---------------------------------------------------------------------
  // The filter query builder

  /** The sort option: none, `likes: -1`, `createdAt: -1` or `createdAt: 1`. */
  datatype SortKey = Unsorted | LikesDesc | CreatedAtDesc | CreatedAtAsc

  /** A `Block.find` condition: an owner equality, a text regex, a type equality and a lower bound on `createdAt`; absent parts are not constrained. */
  datatype Criteria = Criteria(uploadedBy: Option<ObjectId>, text: Option<string>, blockType: Option<string>, createdSince: Option<int>)

  datatype Query = Query(criteria: Criteria, sort: SortKey)

  /**
   * What a query selects. `regex(pattern, text)` is the case-insensitive
   * regular-expression match, taken as given; the text condition holds when
   * some content value or the post's type matches.
   */
  predicate Matches(p: Post, c: Criteria, regex: (string, string) -> bool) {
    && (c.uploadedBy.Some? ==> p.uploadedBy == c.uploadedBy)
    && (c.text.Some? ==>
          || (exists i :: 0 <= i < |p.content| && p.content[i].value.Some? && regex(c.text.value, p.content[i].value.value))
          || (p.blockType.Some? && regex(c.text.value, p.blockType.value)))
    && (c.blockType.Some? ==> p.blockType == c.blockType)
    && (c.createdSince.Some? ==> p.createdAt >= c.createdSince.value)
  }

  /** The `type`, `time` and `sort` rules of the filter routes; `now` is the clock and `midnight` the local start of today. */
  ghost predicate FilterRules(q: Query, kind: Option<string>, sort: Option<string>, time: Option<string>, now: int, midnight: int) {
    && q.criteria.text.None?
    && (q.criteria.blockType.Some? <==> Truthy(kind) && kind.value != "all")
    && (q.criteria.blockType.Some? ==> q.criteria.blockType == kind)
    && (time == Some("today") ==> q.criteria.createdSince == Some(midnight))
    && (time == Some("last7") ==> q.criteria.createdSince == Some(now - 7 * DayMs))
    && (time == Some("month") ==> q.criteria.createdSince == Some(now - 30 * DayMs))
    && (time != Some("today") && time != Some("last7") && time != Some("month") ==> q.criteria.createdSince.None?)
    && (q.sort == LikesDesc <==> sort == Some("topLikes"))
    && (q.sort == CreatedAtDesc <==> sort == Some("newest"))
    && (q.sort == CreatedAtAsc <==> sort == Some("oldest"))
  }

  /** The rules leave nothing open: two queries that follow them with the same owner part are equal. */
  lemma FilterRulesDetermine(q1: Query, q2: Query, kind: Option<string>, sort: Option<string>, time: Option<string>, now: int, midnight: int)
    requires FilterRules(q1, kind, sort, time, now, midnight) && FilterRules(q2, kind, sort, time, now, midnight)
    requires q1.criteria.uploadedBy == q2.criteria.uploadedBy
    ensures q1 == q2
  {
  }

  /** The query the time filter adds keeps only posts created at or after its bound. */
  lemma TimeFilterBound(p: Post, q: Query, kind: Option<string>, sort: Option<string>, time: Option<string>, now: int, midnight: int, regex: (string, string) -> bool)
    requires FilterRules(q, kind, sort, time, now, midnight) && Matches(p, q.criteria, regex)
    ensures time == Some("last7") ==> p.createdAt >= now - 7 * DayMs
    ensures time == Some("month") ==> p.createdAt >= now - 30 * DayMs
    ensures time == Some("today") ==> p.createdAt >= midnight
  {
  }

  /**
   * The public `onFilterChange` query. The parameters are the query-string
   * values (none when a key is missing; a null selection arrives as the text "null").
   */
  method BuildFilterQuery(kind: Option<string>, sort: Option<string>, time: Option<string>, now: int, midnight: int) returns (q: Query)
    ensures FilterRules(q, kind, sort, time, now, midnight)
    ensures q.criteria.uploadedBy.None?
  {
    var blockType: Option<string> := None;
    if Truthy(kind) && kind.value != "all" {
      blockType := kind;
    }
    var createdSince: Option<int> := None;
    if Truthy(time) {
      if time.value == "today" {
        createdSince := Some(midnight);
      } else if time.value == "last7" {
        createdSince := Some(now - 7 * DayMs);
      } else if time.value == "month" {
        createdSince := Some(now - 30 * DayMs);
      }
    }
    var sortOption := Unsorted;
    if sort == Some("topLikes") {
      sortOption := LikesDesc;
    } else if sort == Some("newest") {
      sortOption := CreatedAtDesc;
    } else if sort == Some("oldest") {
      sortOption := CreatedAtAsc;
    }
    q := Query(Criteria(None, None, blockType, createdSince), sortOption);
  }

  /** The public search (`getscarchResult`): content values or type matching the text, newest first. */
  function SearchQuery(value: string): (q: Query)
    ensures forall p: Post, regex: (string, string) -> bool {:trigger Matches(p, q.criteria, regex)} ::
      Matches(p, q.criteria, regex) <==>
        || (exists i :: 0 <= i < |p.content| && p.content[i].value.Some? && regex(value, p.content[i].value.value))
        || (p.blockType.Some? && regex(value, p.blockType.value))
    ensures q.sort == CreatedAtDesc
  {
    Query(Criteria(None, Some(value), None, None), CreatedAtDesc)
  }

  // ---------------------------------------------------------------------
  // The reaction toggle

  function NotUser(u: ObjectId): ObjectId -> bool {
    (x: ObjectId) => x != u
  }

  /** `list.filter(uid => uid.toString() !== userId.toString())` */
  function Without(s: seq<ObjectId>, u: ObjectId): (r: seq<ObjectId>)
    ensures Occurrences(r, u) == 0
    ensures forall v :: v != u ==> Occurrences(r, v) == Occurrences(s, v)
  {
    Filter(s, NotUser(u))
  }

  datatype Reactions = Reactions(likes: seq<ObjectId>, dislikes: seq<ObjectId>)

  /**
   * The toggle: `u` is removed from both lists, then re-added at the end of
   * likes when the action is "like" and `u` was not liking, or at the end of
   * dislikes when the action is "dislike" and `u` was not disliking.
   */
  function Toggled(r: Reactions, u: ObjectId, action: string): (t: Reactions)
    ensures Occurrences(t.likes, u) == if action == "like" && u !in r.likes then 1 else 0
    ensures Occurrences(t.dislikes, u) == if action == "dislike" && u !in r.dislikes then 1 else 0
    ensures forall v :: v != u ==> Occurrences(t.likes, v) == Occurrences(r.likes, v) && Occurrences(t.dislikes, v) == Occurrences(r.dislikes, v)
  {
    var likes := Without(r.likes, u);
    var dislikes := Without(r.dislikes, u);
    if action == "like" && u !in r.likes then Reactions(likes + [u], dislikes)
    else if action == "dislike" && u !in r.dislikes then Reactions(likes, dislikes + [u])
    else Reactions(likes, dislikes)
  }

  /** After the toggle the user is in at most one list, at most once; other users are as exclusive as before. */
  lemma ToggleKeepsExclusive(r: Reactions, u: ObjectId, action: string)
    requires ReactionsExclusive(r.likes, r.dislikes)
    ensures ReactionsExclusive(Toggled(r, u, action).likes, Toggled(r, u, action).dislikes)
  {
    var t := Toggled(r, u, action);
    forall v ensures Occurrences(t.likes, v) + Occurrences(t.dislikes, v) <= 1 {
      if v != u {
        assert Occurrences(r.likes, v) + Occurrences(r.dislikes, v) <= 1;
      }
    }
  }

  /** Apart from `u`, both lists keep their entries in their original order. */
  lemma {:induction false} ToggleKeepsOthersInOrder(r: Reactions, u: ObjectId, action: string)
    ensures Without(Toggled(r, u, action).likes, u) == Without(r.likes, u)
    ensures Without(Toggled(r, u, action).dislikes, u) == Without(r.dislikes, u)
  {
    var likes, dislikes := Without(r.likes, u), Without(r.dislikes, u);
    FilterAllKept(likes, NotUser(u));
    FilterAllKept(dislikes, NotUser(u));
    FilterConcat(likes, [u], NotUser(u));
    FilterConcat(dislikes, [u], NotUser(u));
    assert Filter([u], NotUser(u)) == [];
  }

  /** Where one user stands on a post. */
  datatype Stance = Neutral | Liking | Disliking

  function StanceOf(r: Reactions, u: ObjectId): Stance {
    if u in r.likes then Liking else if u in r.dislikes then Disliking else Neutral
  }

  /** The reaction state machine: an action toggles its own stance and replaces the other. */
  function NextStance(s: Stance, action: string): Stance {
    if action == "like" then (if s == Liking then Neutral else Liking)
    else if action == "dislike" then (if s == Disliking then Neutral else Disliking)
    else Neutral
  }

  /** On a post whose lists are exclusive, the toggle moves the user along the state machine. */
  lemma ToggleFollowsStance(r: Reactions, u: ObjectId, action: string)
    requires ReactionsExclusive(r.likes, r.dislikes)
    ensures StanceOf(Toggled(r, u, action), u) == NextStance(StanceOf(r, u), action)
  {
    var t := Toggled(r, u, action);
    assert Occurrences(r.likes, u) + Occurrences(r.dislikes, u) <= 1;
    assert u in t.likes <==> Occurrences(t.likes, u) > 0;
    assert u in t.dislikes <==> Occurrences(t.dislikes, u) > 0;
  }

  /** Liking twice, starting from no reaction, gives back exactly the lists one started with. */
  lemma LikeTwiceRestores(r: Reactions, u: ObjectId)
    requires u !in r.likes && u !in r.dislikes
    ensures Toggled(Toggled(r, u, "like"), u, "like") == r
  {
    FilterAllKept(r.likes, NotUser(u));
    FilterAllKept(r.dislikes, NotUser(u));
    assert Without(r.likes, u) == r.likes && Without(r.dislikes, u) == r.dislikes;
    var once := Reactions(r.likes + [u], r.dislikes);
    assert Toggled(r, u, "like") == once;
    FilterConcat(r.likes, [u], NotUser(u));
    assert Filter([u], NotUser(u)) == [];
    assert Without(once.likes, u) == r.likes;
    assert u in once.likes;
  }

  /**
   * `hendleLikeDislike`. An unknown caller makes the handler fail (500), an
   * unknown post answers 404; both change nothing. Otherwise the post's lists
   * become the toggled ones, the post is saved, and the answer carries both new lengths.
   */
  method HandleLikeDislike(db: Database, caller: string, postId: ObjectId, action: string, now: int)
    returns (status: nat, counts: Option<(nat, nat)>)
    requires db.Valid()
    modifies db
    ensures db.Valid()
    ensures UserByEmail(old(db.users), caller).None? ==> status == 500 && counts.None? && unchanged(db)
    ensures UserByEmail(old(db.users), caller).Some? && postId !in old(db.posts) ==> status == 404 && counts.None? && unchanged(db)
    ensures UserByEmail(old(db.users), caller).Some? && postId in old(db.posts) ==>
      var post := old(db.posts)[postId];
      var t := Toggled(Reactions(post.likes, post.dislikes), old(db.users)[UserByEmail(old(db.users), caller).value].id, action);
      && status == 200
      && counts == Some((|t.likes|, |t.dislikes|))
      && db.posts == old(db.posts)[postId := post.(likes := t.likes, dislikes := t.dislikes, updatedAt := now)]
      && db.users == old(db.users) && db.comments == old(db.comments) && db.pending == old(db.pending) && db.nextId == old(db.nextId)
  {
    var who := UserByEmail(db.users, caller);
    if who.None? {
      return 500, None;
    }
    var userId := db.users[who.value].id;
    if postId !in db.posts {
      return 404, None;
    }
    var blog := db.posts[postId];
    var alreadyLiked := userId in blog.likes;
    var alreadyDisliked := userId in blog.dislikes;
    var likes := Without(blog.likes, userId);
    var dislikes := Without(blog.dislikes, userId);
    if action == "like" && !alreadyLiked {
      likes := likes + [userId];
    } else if action == "dislike" && !alreadyDisliked {
      dislikes := dislikes + [userId];
    }
    ToggleKeepsExclusive(Reactions(blog.likes, blog.dislikes), userId, action);
    db.posts := db.posts[postId := blog.(likes := likes, dislikes := dislikes, updatedAt := now)];
    return 200, Some((|likes|, |dislikes|));
  }

  // ---------------------------------------------------------------------
  // Reviews

  /** `handleReview`: an unknown caller answers 404; otherwise the comment is stored (the post is not looked up) and 201 is answered. */
  method HandleReview(db: Database, caller: string, postId: ObjectId, rating: string, comment: string) returns (status: nat)
    requires db.Valid()
    modifies db
    ensures db.Valid()
    ensures UserByEmail(old(db.users), caller).None? ==> status == 404 && unchanged(db)
    ensures UserByEmail(old(db.users), caller).Some? ==>
      && status == 201
      && db.comments == old(db.comments) + [Comment(old(db.users)[UserByEmail(old(db.users), caller).value].id, postId, comment, rating)]
      && db.users == old(db.users) && db.posts == old(db.posts) && db.pending == old(db.pending) && db.nextId == old(db.nextId)
  {
    var who := UserByEmail(db.users, caller);
    if who.None? {
      return 404;
    }
    db.comments := db.comments + [Comment(db.users[who.value].id, postId, comment, rating)];
    return 201;
  }

  /** `fetchReview`: without an id, 400; otherwise 200 with exactly the comments for that post, in collection order. */
  method FetchReview(db: Database, id: Option<ObjectId>) returns (status: nat, reviews: seq<Comment>)
    ensures id.None? ==> status == 400 && reviews == []
    ensures id.Some? ==> status == 200 && (forall c :: c in reviews <==> c in db.comments && c.commentFor == id.value)
    ensures id.Some? ==> reviews == CommentsFor(db.comments, id.value)
  {
    if id.None? {
      return 400, [];
    }
    return 200, CommentsFor(db.comments, id.value);
  }

  /** A review stored by `handleReview` is among those `fetchReview` returns for its post. */
  lemma ReviewThenFetch(before: seq<Comment>, c: Comment)
    ensures c in CommentsFor(before + [c], c.commentFor)
    ensures CommentsFor(before + [c], c.commentFor) == CommentsFor(before, c.commentFor) + [c]
  {
    FilterConcat(before, [c], (x: Comment) => x.commentFor == c.commentFor);
  }

  // ---------------------------------------------------------------------
  // Create

  /**
   * `/create`. The blocks are stripped and resolved with every image block
   * taking a file; the owner is the user with the caller's email. A failed
   * resolution, or no such user (the required `uploadedBy` is then null),
   * answers 500 and stores nothing. Otherwise the post is stored under a
   * fresh id with empty reaction lists, its blocks numbered after it.
   */
  method CreateBlog(db: Database, caller: string, blockType: string, raw: seq<WireBlock>, files: seq<FileRef>, upload: FileRef -> Option<string>, now: int)
    returns (status: nat, created: Option<ObjectId>)
    requires db.Valid()
    modifies db
    ensures db.Valid()
    ensures var resolved := Resolution(EveryImage, Stripped(raw), files, upload, 0);
      var owner := UserByEmail(old(db.users), caller);
      if resolved.None? || owner.None? then status == 500 && created.None? && unchanged(db)
      else
        var id := old(db.nextId);
        && status == 201
        && created == Some(id)
        && id !in old(db.posts)
        && db.posts == old(db.posts)[id := Post(Some(old(db.users)[owner.value].id), Some(blockType), Stored(resolved.value, id + 1), [], [], now, now)]
        && db.nextId == id + 1 + |raw|
        && db.users == old(db.users) && db.comments == old(db.comments) && db.pending == old(db.pending)
  {
    var content := Stripped(raw);
    var resolved := ResolveImages(EveryImage, content, files, upload);
    if resolved.None? {
      return 500, None;
    }
    var owner := UserByEmail(db.users, caller);
    if owner.None? {
      return 500, None;
    }
    var id := db.nextId;
    ResolutionContents(EveryImage, content, files, upload, 0);
    db.posts := db.posts[id := Post(Some(db.users[owner.value].id), Some(blockType), Stored(resolved.value, id + 1), [], [], now, now)];
    db.nextId := id + 1 + |raw|;
    return 201, Some(id);
  }
}
