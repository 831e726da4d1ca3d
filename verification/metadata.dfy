/**
 * The `resource` metadata of a Drive `files.create` request, as built by
 * `uploadFile` and `makeDir`: a name, a MIME type and, only when a parent
 * folder id is given, a one-element `parents` list.
 */
module Metadata {
  import opened Wrappers

  /** The MIME type Drive uses for folders. */
  const FolderMimeType: string := "application/vnd.google-apps.folder"

  /** JavaScript truthiness of an optional id: `undefined` and the empty string are falsy. */
  predicate Truthy(id: Option<string>) {
    id.Some? && id.value != ""
  }

  datatype ResourceMetadata = ResourceMetadata(name: string, mimeType: string, parents: Option<seq<string>>)

  /** The folder a resource is created in: the only entry of `parents`, or the Drive root (`None`). */
  function ParentOf(m: ResourceMetadata): Option<string> {
    if m.parents.Some? && |m.parents.value| == 1 then Some(m.parents.value[0]) else None
  }

  /** The shared rule: `parents` is attached exactly when the parent id is truthy. */
  function WithParent(name: string, mimeType: string, parentId: Option<string>): ResourceMetadata {
    var base := ResourceMetadata(name, mimeType, None);
    if Truthy(parentId) then base.(parents := Some([parentId.value])) else base
  }

  /** Metadata of a file upload. */
  function FileMetadata(fileName: string, mimeType: string, parentId: Option<string>): (m: ResourceMetadata)
    ensures m.name == fileName && m.mimeType == mimeType
    ensures m.parents.Some? <==> Truthy(parentId)
    ensures ParentOf(m) == if Truthy(parentId) then parentId else None
  {
    WithParent(fileName, mimeType, parentId)
  }

  /** Metadata of a folder creation: always the folder MIME type. */
  function FolderMetadata(name: string, parentId: Option<string>): (m: ResourceMetadata)
    ensures m.name == name && m.mimeType == FolderMimeType
    ensures m.parents.Some? <==> Truthy(parentId)
    ensures ParentOf(m) == if Truthy(parentId) then parentId else None
  {
    WithParent(name, FolderMimeType, parentId)
  }
}
