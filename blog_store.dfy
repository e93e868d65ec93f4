/**
 * The draft editor's store (useBlogStore): an ordered list of content blocks,
 * the local files chosen for image blocks and their preview URLs, all keyed
 * by block id, plus the form's blog type and two UI flags. Each action
 * replaces some of these fields with values built from the old ones.
 *
 * The functions below give those new values; the `Store` class applies them
 * to its fields, one method per action.
 */
module BlogStore {
  import opened Common
  import opened Models
  import opened Wire

  /** A block of the draft. An image block's value is null until a file or URL is bound to it. */
  datatype DraftBlock = DraftBlock(id: string, kind: string, value: Option<string>)

  /** The part of the store that `addBlock` updates. */
  datatype Editor = Editor(content: seq<DraftBlock>, previews: map<string, string>)

  /** The arguments of one `addBlock(type, id, value)` call. */
  datatype AddOp = AddOp(kind: string, id: string, value: string)

  /** `content.some(item => item.type === "title")` */
  predicate HasTitle(content: seq<DraftBlock>) {
    exists i :: 0 <= i < |content| && content[i].kind == TitleKind
  }

  /** The draft is empty or opens with a title. */
  predicate TitleFirst(content: seq<DraftBlock>) {
    content == [] || content[0].kind == TitleKind
  }

  /** The single ordering rule: a non-title block needs a title already present. */
  predicate AddAccepted(content: seq<DraftBlock>, kind: string) {
    kind == TitleKind || HasTitle(content)
  }

  /** `value || (type === "image" ? null : "")` */
  function InitialValue(kind: string, value: string): (v: Option<string>)
    ensures v.None? <==> kind == ImageKind && value == ""
    ensures v.Some? ==> v.value == value
  {
    if value != "" then Some(value) else if kind == ImageKind then None else Some("")
  }

  /**
   * `addBlock`: a rejected call leaves the editor as it was; an accepted one
   * appends exactly one block at the end and records a preview only for an
   * image block given a non-empty value, leaving every other preview alone.
   */
  function Added(e: Editor, op: AddOp): (r: Editor)
    ensures !AddAccepted(e.content, op.kind) ==> r == e
    ensures AddAccepted(e.content, op.kind) ==>
      && |r.content| == |e.content| + 1
      && r.content[..|e.content|] == e.content
      && r.content[|e.content|] == DraftBlock(op.id, op.kind, InitialValue(op.kind, op.value))
    ensures forall k :: k != op.id ==> (k in r.previews <==> k in e.previews)
    ensures forall k :: k != op.id && k in e.previews ==> r.previews[k] == e.previews[k]
    ensures op.id in r.previews <==>
      op.id in e.previews || (AddAccepted(e.content, op.kind) && op.kind == ImageKind && op.value != "")
    ensures op.id in r.previews ==>
      r.previews[op.id] == if AddAccepted(e.content, op.kind) && op.kind == ImageKind && op.value != "" then op.value else e.previews[op.id]
  {
    if !AddAccepted(e.content, op.kind) then e
    else
      var block := DraftBlock(op.id, op.kind, InitialValue(op.kind, op.value));
      var previews := if op.kind == ImageKind && op.value != "" then e.previews[op.id := op.value] else e.previews;
      Editor(e.content + [block], previews)
  }

  /** A sequence of `addBlock` calls, applied in order. */
  function AfterAdds(e: Editor, ops: seq<AddOp>): Editor
    decreases |ops|
  {
    if ops == [] then e else Added(AfterAdds(e, ops[..|ops| - 1]), ops[|ops| - 1])
  }

  /** Adding blocks never breaks "empty or title first". */
  lemma {:induction false} AddsKeepTitleFirst(e: Editor, ops: seq<AddOp>)
    requires TitleFirst(e.content)
    ensures TitleFirst(AfterAdds(e, ops).content)
    decreases |ops|
  {
    if ops != [] {
      AddsKeepTitleFirst(e, ops[..|ops| - 1]);
    }
  }

  /** From the empty draft, any sequence of `addBlock` calls yields content that is empty or opens with a title. */
  lemma AddsFromEmptyDraft(ops: seq<AddOp>)
    ensures TitleFirst(AfterAdds(Editor([], map[]), ops).content)
  {
    AddsKeepTitleFirst(Editor([], map[]), ops);
  }

  /** The blocks an accepted add of each op would append. */
  function BlocksOf(ops: seq<AddOp>): (r: seq<DraftBlock>)
    ensures |r| == |ops|
    ensures forall i :: 0 <= i < |ops| ==> r[i] == DraftBlock(ops[i].id, ops[i].kind, InitialValue(ops[i].kind, ops[i].value))
  {
    seq(|ops|, i requires 0 <= i < |ops| => DraftBlock(ops[i].id, ops[i].kind, InitialValue(ops[i].kind, ops[i].value)))
  }

  /** Once a title is present (or the first op adds one), every further add is accepted and appends its block in order. */
  lemma {:induction false} AddsAfterTitleAppendAll(e: Editor, ops: seq<AddOp>)
    requires HasTitle(e.content) || (ops != [] && ops[0].kind == TitleKind)
    ensures AfterAdds(e, ops).content == e.content + BlocksOf(ops)
    decreases |ops|
  {
    if ops == [] {
      assert e.content + BlocksOf(ops) == e.content;
    } else if |ops| == 1 {
      assert AfterAdds(e, ops[..0]) == e;
    } else {
      var init := ops[..|ops| - 1];
      AddsAfterTitleAppendAll(e, init);
      var before := AfterAdds(e, init).content;
      assert before == e.content + BlocksOf(init);
      if HasTitle(e.content) {
        var j :| 0 <= j < |e.content| && e.content[j].kind == TitleKind;
        assert before[j] == e.content[j];
      } else {
        assert before[|e.content|] == BlocksOf(init)[0];
      }
      assert HasTitle(before);
      assert BlocksOf(ops) == BlocksOf(init) + [BlocksOf(ops)[|ops| - 1]];
    }
  }

  /** Without any title, neither present nor added, every add is rejected. */
  lemma {:induction false} AddsWithoutTitleChangeNothing(e: Editor, ops: seq<AddOp>)
    requires !HasTitle(e.content)
    requires forall i :: 0 <= i < |ops| ==> ops[i].kind != TitleKind
    ensures AfterAdds(e, ops) == e
    decreases |ops|
  {
    if ops != [] {
      AddsWithoutTitleChangeNothing(e, ops[..|ops| - 1]);
    }
  }

  /**
   * `content.map(item => item.id === id ? {...item, value} : item)`, shared by
   * `updateValue` and `handleImage`: every block keeps its id and type and its
   * place; only the blocks carrying `id` get the new value.
   */
  function UpdatedContent(content: seq<DraftBlock>, id: string, value: Option<string>): (r: seq<DraftBlock>)
    ensures |r| == |content|
    ensures forall i :: 0 <= i < |r| ==> r[i].id == content[i].id && r[i].kind == content[i].kind
    ensures forall i :: 0 <= i < |r| ==> r[i].value == if content[i].id == id then value else content[i].value
  {
    seq(|content|, i requires 0 <= i < |content| =>
      if content[i].id == id then content[i].(value := value) else content[i])
  }

  /** Updating an id no block carries is a no-op; an update never changes whether the draft has a title or opens with one. */
  lemma UpdateKeepsStructure(content: seq<DraftBlock>, id: string, value: Option<string>)
    ensures (forall i :: 0 <= i < |content| ==> content[i].id != id) ==> UpdatedContent(content, id, value) == content
    ensures HasTitle(UpdatedContent(content, id, value)) == HasTitle(content)
    ensures TitleFirst(UpdatedContent(content, id, value)) == TitleFirst(content)
  {
    var r := UpdatedContent(content, id, value);
    if HasTitle(content) {
      var i :| 0 <= i < |content| && content[i].kind == TitleKind;
      assert r[i].kind == TitleKind;
    }
    if HasTitle(r) {
      var i :| 0 <= i < |r| && r[i].kind == TitleKind;
      assert content[i].kind == TitleKind;
    }
  }

  /** `content.filter(item => item.id !== id)`: no block with `id` is left, the others stay, in order. */
  function RemovedContent(content: seq<DraftBlock>, id: string): (r: seq<DraftBlock>)
    ensures forall i :: 0 <= i < |r| ==> r[i].id != id
    ensures forall b :: b in r <==> b in content && b.id != id
    ensures |r| <= |content|
  {
    Filter(content, (b: DraftBlock) => b.id != id)
  }

  /** Removing an id no block carries is a no-op. */
  lemma RemoveAbsentIsNoOp(content: seq<DraftBlock>, id: string)
    requires forall i :: 0 <= i < |content| ==> content[i].id != id
    ensures RemovedContent(content, id) == content
  {
    FilterAllKept(content, (b: DraftBlock) => b.id != id);
  }

  /** After `removeBlock(id)`, adding a block that reuses `id` finds no stale preview: the id has one only if this add records it, and then it is the given value. */
  lemma RemoveThenReuseId(content: seq<DraftBlock>, previews: map<string, string>, id: string, kind: string, value: string)
    ensures var r := Added(Editor(RemovedContent(content, id), previews - {id}), AddOp(kind, id, value));
      && (id in r.previews <==> (AddAccepted(RemovedContent(content, id), kind) && kind == ImageKind && value != ""))
      && (id in r.previews ==> r.previews[id] == value)
  {
  }

  class Store {
    /** `form.type`: the blog type chosen in the form. */
    var formType: string
    var content: seq<DraftBlock>
    /** Local files chosen for image blocks, by block id. */
    var images: map<string, FileRef>
    /** Preview URLs of image blocks, by block id. */
    var previews: map<string, string>
    var selectedBlock: string
    var typeError: bool
    var allData: Option<seq<Post>>
    var comments: Option<seq<Comment>>

    ghost function EditorState(): Editor
      reads this
    {
      Editor(content, previews)
    }

    /** The empty draft: the store's initial state and what `resetForm` restores. */
    ghost predicate IsEmptyDraft()
      reads this
    {
      formType == "" && content == [] && images == map[] && previews == map[] && selectedBlock == "" && !typeError
    }

    constructor ()
      ensures IsEmptyDraft() && allData == None && comments == None
    {
      formType, content, images, previews := "", [], map[], map[];
      selectedBlock, typeError := "", false;
      allData, comments := None, None;
    }

    method SetForm(blockType: string)
      modifies this
      ensures formType == blockType
      ensures unchanged(this`content, this`images, this`previews, this`selectedBlock, this`typeError, this`allData, this`comments)
    {
      formType := blockType;
    }

    method SetSelectedBlock(block: string)
      modifies this
      ensures selectedBlock == block
      ensures unchanged(this`formType, this`content, this`images, this`previews, this`typeError, this`allData, this`comments)
    {
      selectedBlock := block;
    }

    method SetTypeError(flag: bool)
      modifies this
      ensures typeError == flag
      ensures unchanged(this`formType, this`content, this`images, this`previews, this`selectedBlock, this`allData, this`comments)
    {
      typeError := flag;
    }

    method SetPreviews(p: map<string, string>)
      modifies this
      ensures previews == p
      ensures unchanged(this`formType, this`content, this`images, this`selectedBlock, this`typeError, this`allData, this`comments)
    {
      previews := p;
    }

    /** `addBlock(type, id, value)`; `id` stands for the caller's id or `Date.now()`. */
    method AddBlock(kind: string, id: string, value: string)
      modifies this
      ensures EditorState() == Added(old(EditorState()), AddOp(kind, id, value))
      ensures unchanged(this`formType, this`images, this`selectedBlock, this`typeError, this`allData, this`comments)
    {
      if kind != TitleKind && !HasTitle(content) {
        return;
      }
      var block := DraftBlock(id, kind, if value != "" then Some(value) else if kind == ImageKind then None else Some(""));
      var updatedPreviews := if kind == ImageKind && value != "" then previews[id := value] else previews;
      content := content + [block];
      previews := updatedPreviews;
    }

    /** `updateValue(id, value)` */
    method UpdateValue(id: string, value: string)
      modifies this
      ensures content == UpdatedContent(old(content), id, Some(value))
      ensures unchanged(this`formType, this`images, this`previews, this`selectedBlock, this`typeError, this`allData, this`comments)
    {
      content := UpdatedContent(content, id, Some(value));
    }

    /**
     * `handleImage(id, file)` with `url` the object URL created for the file.
     * With no file chosen (`files[0]` undefined) creating the URL throws
     * before the state is set, so nothing changes.
     */
    method HandleImage(id: string, file: Option<FileRef>, url: string)
      modifies this
      ensures file.None? ==> unchanged(this)
      ensures file.Some? ==>
        && images == old(images)[id := file.value]
        && previews == old(previews)[id := url]
        && content == UpdatedContent(old(content), id, Some(url))
      ensures unchanged(this`formType, this`selectedBlock, this`typeError, this`allData, this`comments)
    {
      if file.None? {
        return;
      }
      images := images[id := file.value];
      previews := previews[id := url];
      content := UpdatedContent(content, id, Some(url));
    }

    /** `removeBlock(id)` */
    method RemoveBlock(id: string)
      modifies this
      ensures content == RemovedContent(old(content), id)
      ensures images == old(images) - {id} && previews == old(previews) - {id}
      ensures unchanged(this`formType, this`selectedBlock, this`typeError, this`allData, this`comments)
    {
      images := images - {id};
      previews := previews - {id};
      content := RemovedContent(content, id);
    }

    /** `resetForm()`: back to the empty draft; the fetched posts and comments stay. */
    method ResetForm()
      modifies this
      ensures IsEmptyDraft()
      ensures unchanged(this`allData, this`comments)
    {
      formType, content, images, previews := "", [], map[], map[];
      selectedBlock, typeError := "", false;
    }
  }
}
