/**
 * The shapes that travel between the editor and the backend: the JSON
 * content array and image file parts of a post submission, and the
 * response of the admin "fetch blog by id" route that seeds the editor.
 */
module Wire {
  import opened Common
  import opened Models

  /** An opaque handle for a local file chosen in the editor; the same file arrives at the backend as an uploaded part. */
  type FileRef = nat

  /** The `value` key of one submitted block: left out of the JSON object, or present (with null allowed). */
  datatype WireValue = Omitted | Present(v: Option<string>)

  /** One element of the submitted `content` JSON array: `{id, type}` or `{id, type, value}`. */
  datatype WireBlock = WireBlock(id: string, kind: string, value: WireValue)

  /** `formData.append("images", file, id)`: one image part, named by its block id. */
  datatype FilePart = FilePart(fileName: string, file: FileRef)

  /** The multipart body of a create or update: the `type` field, the `content` field and the `images` parts, in order. */
  datatype Submission = Submission(blockType: string, content: seq<WireBlock>, images: seq<FilePart>)

  /** The JSON answer of `fetchBlogById`: the post's type, its stored blocks and a preview URL per image block id. */
  datatype EditView = EditView(blockType: string, content: seq<ContentItem>, previews: map<ObjectId, string>)

  /** The files the backend receives, in part order. */
  function PartFiles(parts: seq<FilePart>): (files: seq<FileRef>)
    ensures |files| == |parts|
    ensures forall k :: 0 <= k < |parts| ==> files[k] == parts[k].file
  {
    seq(|parts|, k requires 0 <= k < |parts| => parts[k].file)
  }
}
