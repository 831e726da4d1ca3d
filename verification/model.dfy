/**
 * The entities of the `GDrive` uploader: upload tasks, emitted events,
 * requests issued to collaborators (Drive API, file system), and the
 * abstract state of one `GDrive` object.
 */
module DriveModel {
  import opened Wrappers
  import opened Metadata
  import opened Logs

  /** A readable stream over a local file (`fs.createReadStream`); opaque here. */
  type StreamHandle = nat
  /** An OAuth2 client; opaque here. */
  type Credential = nat

  /** An error value delivered by a collaborator; only its presence matters. */
  datatype ApiError = ApiError(message: string)

  /** What `lstat` reports about a directory entry. */
  datatype Stat = Stat(size: nat, isDirectory: bool)

  /** One element of the upload stack: the six arguments later passed to `uploadFile`. */
  datatype Task = Task(
    stream: StreamHandle,
    size: nat,
    mimeType: string,
    name: string,
    client: Credential,
    parentId: Option<string>)

  /** The events the object emits. */
  datatype Event =
    | Progress(name: string, uploaded: nat, size: nat)
    | FileUploaded(size: nat, name: string, error: Option<ApiError>)
    | Mkdir(name: string)
    | AddSize(size: nat)

  /**
   * Requests issued to collaborators whose answer arrives later as a callback.
   * `CreateFolder` keeps the local path its continuation recurses into;
   * `ReadDir` and `Lstat` keep what their callbacks close over.
   */
  datatype Request =
    | CreateFile(task: Task, metadata: ResourceMetadata)
    | CreateFolder(metadata: ResourceMetadata, client: Credential, localPath: string)
    | ReadDir(path: string, client: Credential, parentId: Option<string>)
    | Lstat(folderPath: string, item: string, client: Credential, parentId: Option<string>)

  /** The answer of Drive to a folder creation. */
  datatype FolderReply = Created(id: string) | Failed(error: ApiError)

  /**
   * The state of one `GDrive` object: the fields `stack` and `stackProcessing`,
   * the upload whose callback is still pending (`inFlight`), and the logs of
   * emitted events and issued requests.
   */
  datatype State = State(
    stack: seq<Task>,
    processing: bool,
    inFlight: Option<Task>,
    events: seq<Event>,
    requests: seq<Request>)

  /** `path.join` of a directory and an entry name (no normalisation is modelled). */
  function Join(dir: string, item: string): string {
    dir + "/" + item
  }

  function UploadedTask(r: Request): Option<Task> {
    if r.CreateFile? then Some(r.task) else None
  }

  /** The tasks whose upload has been started, in the order the uploads were issued. */
  function Sent(rs: seq<Request>): seq<Task> {
    Collect(rs, UploadedTask)
  }

  function FinishedName(e: Event): Option<string> {
    if e.FileUploaded? then Some(e.name) else None
  }

  /** The number of uploads whose completion callback has fired. */
  function Finished(es: seq<Event>): nat {
    |Collect(es, FinishedName)|
  }

  function AnnouncedSize(e: Event): Option<nat> {
    if e.AddSize? then Some(e.size) else None
  }

  /** The sizes announced by `addSize` events, in order. */
  function Sizes(es: seq<Event>): seq<nat> {
    Collect(es, AnnouncedSize)
  }

  function FolderOf(r: Request): Option<ResourceMetadata> {
    if r.CreateFolder? then Some(r.metadata) else None
  }

  /** The metadata of every folder creation issued, in order. */
  function Folders(rs: seq<Request>): seq<ResourceMetadata> {
    Collect(rs, FolderOf)
  }

  function ListingOf(r: Request): Option<(string, Option<string>)> {
    if r.ReadDir? then Some((r.path, r.parentId)) else None
  }

  /** The directories listed by `uploadDir`, each with the parent id it was called with. */
  function Listings(rs: seq<Request>): seq<(string, Option<string>)> {
    Collect(rs, ListingOf)
  }

  /** Appending one request extends each request projection by what that request contributes. */
  lemma AppendRequest(rs: seq<Request>, x: Request)
    ensures Sent(rs + [x]) == Sent(rs) + Picked(x, UploadedTask)
    ensures Folders(rs + [x]) == Folders(rs) + Picked(x, FolderOf)
    ensures Listings(rs + [x]) == Listings(rs) + Picked(x, ListingOf)
  {
    CollectSnoc(rs, x, UploadedTask);
    CollectSnoc(rs, x, FolderOf);
    CollectSnoc(rs, x, ListingOf);
  }

  /** Appending one event extends each event projection by what that event contributes. */
  lemma AppendEvent(es: seq<Event>, e: Event)
    ensures Finished(es + [e]) == Finished(es) + |Picked(e, FinishedName)|
    ensures Sizes(es + [e]) == Sizes(es) + Picked(e, AnnouncedSize)
  {
    CollectSnoc(es, e, FinishedName);
    CollectSnoc(es, e, AnnouncedSize);
  }
}
