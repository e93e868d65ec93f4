/**
 * The post editor page (BlogForm): it turns the draft held by the store into
 * a submission, gates the block selector on the presence of a title, and
 * seeds the store from an existing post when editing one.
 */
module BlogForm {
  import opened Common
  import opened Models
  import opened Wire
  import opened BlogStore

  /** The entries of a JavaScript object, as `Object.entries` lists them: each key exactly once. */
  ghost predicate IsEnumeration(entries: seq<string>, keys: set<string>) {
    && (forall k :: 0 <= k < |entries| ==> entries[k] in keys)
    && (forall id :: id in keys ==> id in entries)
    && (forall j, k :: 0 <= j < k < |entries| ==> entries[j] != entries[k])
  }

  /**
   * The cleaned form of one draft block. An image block omits its value when
   * a file is pending for it or when it has no non-empty value; every other
   * block is sent with its id, type and value as they are.
   */
  function CleanBlock(item: DraftBlock, images: map<string, FileRef>): (w: WireBlock)
    ensures w.id == item.id && w.kind == item.kind
    ensures w.value.Omitted? <==> item.kind == ImageKind && (item.id in images || !Truthy(item.value))
    ensures w.value.Present? ==> w.value.v == item.value
  {
    if item.kind == ImageKind then
      if item.id in images then WireBlock(item.id, ImageKind, Omitted)
      else if Truthy(item.value) then WireBlock(item.id, ImageKind, Present(item.value))
      else WireBlock(item.id, ImageKind, Omitted)
    else
      WireBlock(item.id, item.kind, Present(item.value))
  }

  /** `cleanContent`: one cleaned block per draft block, in the same order. */
  function CleanContent(content: seq<DraftBlock>, images: map<string, FileRef>): (r: seq<WireBlock>)
    ensures |r| == |content|
    ensures forall i :: 0 <= i < |r| ==> r[i] == CleanBlock(content[i], images)
  {
    seq(|content|, i requires 0 <= i < |content| => CleanBlock(content[i], images))
  }

  /** The image parts of a submission: one per entry of `images`, in entry order, named by block id. */
  ghost predicate PartsFor(parts: seq<FilePart>, images: map<string, FileRef>, entries: seq<string>)
    requires forall k :: 0 <= k < |entries| ==> entries[k] in images
  {
    |parts| == |entries| && forall k :: 0 <= k < |parts| ==> parts[k] == FilePart(entries[k], images[entries[k]])
  }

  /** `Object.entries(images).forEach(([id, file]) => formData.append("images", file, id))` */
  method AppendImageParts(images: map<string, FileRef>, entries: seq<string>) returns (parts: seq<FilePart>)
    requires IsEnumeration(entries, images.Keys)
    ensures PartsFor(parts, images, entries)
    ensures forall id :: id in images <==> exists k :: 0 <= k < |parts| && parts[k].fileName == id
    ensures forall j, k :: 0 <= j < k < |parts| ==> parts[j].fileName != parts[k].fileName
  {
    parts := [];
    var k := 0;
    while k < |entries|
      invariant 0 <= k <= |entries|
      invariant |parts| == k
      invariant forall j :: 0 <= j < k ==> parts[j] == FilePart(entries[j], images[entries[j]])
    {
      var id := entries[k];
      parts := parts + [FilePart(id, images[id])];
      k := k + 1;
    }
    forall id | id in images
      ensures exists k :: 0 <= k < |parts| && parts[k].fileName == id
    {
      var k :| 0 <= k < |entries| && entries[k] == id;
      assert parts[k].fileName == id;
    }
  }

  /** Where a submission goes: a new post, or the update of the post being edited. */
  datatype Target = CreatePost | UpdatePost(blogId: string)

  datatype Request = Request(target: Target, body: Submission)

  /**
   * `handleSubmit`. `blogId` is the id of the post being edited, if any;
   * `entries` is the enumeration order of the store's `images`; `callSucceeds`
   * is the outcome of the create or update call. Without a blog type nothing
   * is sent and the type error is raised; otherwise the request is sent and
   * the form is reset only when the call succeeds.
   */
  method HandleSubmit(store: Store, blogId: Option<string>, entries: seq<string>, callSucceeds: bool) returns (sent: Option<Request>)
    requires IsEnumeration(entries, store.images.Keys)
    modifies store
    ensures old(store.formType) == "" ==>
      && sent.None?
      && store.typeError
      && unchanged(store`formType, store`content, store`images, store`previews, store`selectedBlock, store`allData, store`comments)
    ensures old(store.formType) != "" ==>
      && sent.Some?
      && sent.value.target == (if Truthy(blogId) then UpdatePost(blogId.value) else CreatePost)
      && sent.value.body.blockType == old(store.formType)
      && sent.value.body.content == CleanContent(old(store.content), old(store.images))
      && PartsFor(sent.value.body.images, old(store.images), entries)
    ensures old(store.formType) != "" && callSucceeds ==> store.IsEmptyDraft()
    ensures old(store.formType) != "" && !callSucceeds ==> unchanged(store)
    ensures unchanged(store`allData, store`comments)
  {
    if store.formType == "" {
      store.SetTypeError(true);
      return None;
    }
    var cleanContent := CleanContent(store.content, store.images);
    var parts := AppendImageParts(store.images, entries);
    var target := if Truthy(blogId) then UpdatePost(blogId.value) else CreatePost;
    sent := Some(Request(target, Submission(store.formType, cleanContent, parts)));
    if callSucceeds {
      store.ResetForm();
    }
  }

  /** `disabled={opt.type !== "title" && !hasTitle}` on the block selector's options. */
  predicate OptionDisabled(kind: string, content: seq<DraftBlock>) {
    kind != TitleKind && !HasTitle(content)
  }

  /** The selector disables exactly the options whose `addBlock` the store would ignore. */
  lemma DisabledIffAddIgnored(e: Editor, kind: string, id: string, value: string)
    ensures OptionDisabled(kind, e.content) <==> Added(e, AddOp(kind, id, value)).content == e.content
  {
    if !OptionDisabled(kind, e.content) {
      assert |Added(e, AddOp(kind, id, value)).content| == |e.content| + 1;
    }
  }

  /** `handleSelectChange`: an empty choice is ignored; otherwise the block is added (with `newId` for `Date.now()`) and the selector is cleared. */
  method HandleSelectChange(store: Store, kind: string, newId: string)
    modifies store
    ensures kind == "" ==> unchanged(store)
    ensures kind != "" ==>
      && store.EditorState() == Added(old(store.EditorState()), AddOp(kind, newId, ""))
      && store.selectedBlock == ""
    ensures unchanged(store`formType, store`images, store`typeError, store`allData, store`comments)
  {
    if kind == "" {
      return;
    }
    store.SetSelectedBlock(kind);
    store.AddBlock(kind, newId, "");
    store.SetSelectedBlock("");
  }

  /** The draft block a fetched item loads as: its stored id and type, and its value normalised as a new block's value is. */
  function LoadedBlock(item: ContentItem): DraftBlock {
    DraftBlock(NatToString(item.id), item.kind,
               if Truthy(item.value) then item.value else if item.kind == ImageKind then None else Some(""))
  }

  /**
   * The `addBlock(block.type, block._id, block.value || "")` call replayed for
   * one fetched block. The block that call creates carries the stored id and
   * type; a non-empty stored value is kept, and an empty or missing one
   * becomes null for an image and "" for any other block.
   */
  function ReplayOp(item: ContentItem): (op: AddOp)
    ensures DraftBlock(op.id, op.kind, InitialValue(op.kind, op.value)) == LoadedBlock(item)
  {
    AddOp(item.kind, NatToString(item.id), if Truthy(item.value) then item.value.value else "")
  }

  function ReplayOps(items: seq<ContentItem>): (ops: seq<AddOp>)
    ensures |ops| == |items|
    ensures forall i :: 0 <= i < |items| ==> ops[i] == ReplayOp(items[i])
  {
    seq(|items|, i requires 0 <= i < |items| => ReplayOp(items[i]))
  }

  /**
   * The effect that loads an existing post for editing. `response` is the
   * answer of `fetchBlogById` (none when the call fails, which changes
   * nothing in the store). Otherwise the store is reset, takes the post's
   * type, and replays `addBlock` for every fetched block in order.
   */
  method LoadExistingBlog(store: Store, response: Option<EditView>)
    modifies store
    ensures response.None? ==> unchanged(store)
    ensures response.Some? ==>
      && store.formType == response.value.blockType
      && store.EditorState() == AfterAdds(Editor([], map[]), ReplayOps(response.value.content))
      && store.images == map[] && store.selectedBlock == "" && !store.typeError
    ensures unchanged(store`allData, store`comments)
  {
    if response.None? {
      return;
    }
    var blocks := response.value.content;
    store.ResetForm();
    store.SetForm(response.value.blockType);
    store.SetSelectedBlock("");
    store.SetTypeError(false);
    ghost var ops := ReplayOps(blocks);
    for i := 0 to |blocks|
      invariant store.EditorState() == AfterAdds(Editor([], map[]), ops[..i])
      invariant store.formType == response.value.blockType
      invariant store.images == map[] && store.selectedBlock == "" && !store.typeError
      invariant unchanged(store`allData, store`comments)
    {
      var block := blocks[i];
      store.AddBlock(block.kind, NatToString(block.id), if Truthy(block.value) then block.value.value else "");
      assert ops[..i + 1][..i] == ops[..i];
    }
    assert ops[..|blocks|] == ops;
  }

  /**
   * A fetched post that opens with a title is replayed block for block: same
   * length, order, ids and types, and each block's stored value (null for an
   * image and "" otherwise when that value is empty or missing).
   */
  lemma ReplayOfTitledPost(items: seq<ContentItem>)
    requires items != [] && items[0].kind == TitleKind
    ensures var content := AfterAdds(Editor([], map[]), ReplayOps(items)).content;
      && |content| == |items|
      && forall i :: 0 <= i < |items| ==>
           && content[i].id == NatToString(items[i].id) && content[i].kind == items[i].kind
           && content[i].value == if Truthy(items[i].value) then items[i].value else if items[i].kind == ImageKind then None else Some("")
  {
    var ops := ReplayOps(items);
    AddsAfterTitleAppendAll(Editor([], map[]), ops);
    var content := AfterAdds(Editor([], map[]), ops).content;
    assert content == BlocksOf(ops);
    forall i | 0 <= i < |items|
      ensures content[i] == LoadedBlock(items[i])
    {
      assert ops[i] == ReplayOp(items[i]);
    }
  }

  /** A fetched post without any title block loads as an empty draft. */
  lemma ReplayOfUntitledPost(items: seq<ContentItem>)
    requires forall i :: 0 <= i < |items| ==> items[i].kind != TitleKind
    ensures AfterAdds(Editor([], map[]), ReplayOps(items)).content == []
  {
    AddsWithoutTitleChangeNothing(Editor([], map[]), ReplayOps(items));
  }
}
