/**
 * The directory walker of `GDrive` (`uploadDir`, `makeDir` and their
 * callbacks), one callback at a time. Each function is one turn of the
 * event loop; the order in which pending callbacks fire is not modelled.
 */
module Walker {
  import opened Wrappers
  import opened Metadata
  import opened Logs
  import opened DriveModel
  import UploadQueue

  /** Nothing the upload queue depends on changes. */
  predicate QueueUnchanged(s: State, r: State) {
    && r.stack == s.stack && r.processing == s.processing && r.inFlight == s.inFlight
    && Sent(r.requests) == Sent(s.requests) && Finished(r.events) == Finished(s.events)
  }

  /** `uploadDir`: request the listing of `folderPath`, closing over the client and parent id. */
  function UploadDir(s: State, folderPath: string, client: Credential, parentId: Option<string>): (r: State)
    ensures QueueUnchanged(s, r) && r.events == s.events
    ensures Listings(r.requests) == Listings(s.requests) + [(folderPath, parentId)]
    ensures Folders(r.requests) == Folders(s.requests)
  {
    var listing := ReadDir(folderPath, client, parentId);
    AppendRequest(s.requests, listing);
    s.(requests := s.requests + [listing])
  }

  /** One `lstat` request per listed entry, in listing order. */
  function LstatRequests(folderPath: string, items: seq<string>, client: Credential, parentId: Option<string>): (rs: seq<Request>)
    ensures |rs| == |items|
    ensures forall k :: 0 <= k < |items| ==> rs[k] == Lstat(folderPath, items[k], client, parentId)
  {
    if items == [] then []
    else [Lstat(folderPath, items[0], client, parentId)] + LstatRequests(folderPath, items[1..], client, parentId)
  }

  /**
   * The `readdir` callback: on error nothing happens (the error is only
   * logged); otherwise one `lstat` is requested per entry.
   */
  function OnReaddir(s: State, folderPath: string, client: Credential, parentId: Option<string>,
                     listing: Option<seq<string>>): (r: State)
    ensures QueueUnchanged(s, r) && r.events == s.events
    ensures Listings(r.requests) == Listings(s.requests) && Folders(r.requests) == Folders(s.requests)
    ensures listing.None? ==> r == s
    ensures listing.Some? ==>
      && |r.requests| == |s.requests| + |listing.value|
      && r.requests[..|s.requests|] == s.requests
      && forall k :: 0 <= k < |listing.value| ==>
           r.requests[|s.requests| + k] == Lstat(folderPath, listing.value[k], client, parentId)
  {
    if listing.None? then s
    else
      var added := LstatRequests(folderPath, listing.value, client, parentId);
      CollectNothing(added, UploadedTask);
      CollectNothing(added, ListingOf);
      CollectNothing(added, FolderOf);
      CollectAppend(s.requests, added, UploadedTask);
      CollectAppend(s.requests, added, ListingOf);
      CollectAppend(s.requests, added, FolderOf);
      s.(requests := s.requests + added)
  }

  /** `makeDir`: emit `mkdir`, then request the folder under the given parent id. */
  function MakeDir(s: State, name: string, client: Credential, parentId: Option<string>, localPath: string): (r: State)
    ensures QueueUnchanged(s, r) && Sizes(r.events) == Sizes(s.events)
    ensures r.events == s.events + [Mkdir(name)]
    ensures Folders(r.requests) == Folders(s.requests) + [FolderMetadata(name, parentId)]
    ensures Listings(r.requests) == Listings(s.requests)
  {
    var announce := Mkdir(name);
    var create := CreateFolder(FolderMetadata(name, parentId), client, localPath);
    AppendEvent(s.events, announce);
    AppendRequest(s.requests, create);
    s.(events := s.events + [announce], requests := s.requests + [create])
  }

  /**
   * The `lstat` callback for one entry: emit `addSize` with the entry's size,
   * then create a folder for a directory or push an upload task for a file,
   * both under the parent id of the directory being walked. The `lstat`
   * error is never consulted.
   */
  function OnLstat(s: State, folderPath: string, item: string, client: Credential, parentId: Option<string>,
                   stat: Stat, stream: StreamHandle, mimeType: string): (r: State)
    requires UploadQueue.Valid(s)
    ensures UploadQueue.Valid(r)
    ensures |r.events| > |s.events| && r.events[..|s.events|] == s.events
    ensures r.events[|s.events|] == AddSize(stat.size)
    ensures Sizes(r.events) == Sizes(s.events) + [stat.size]
    ensures Listings(r.requests) == Listings(s.requests)
    ensures stat.isDirectory ==>
      && r.stack == s.stack && Sent(r.requests) == Sent(s.requests)
      && Folders(r.requests) == Folders(s.requests) + [FolderMetadata(item, parentId)]
    ensures !stat.isDirectory ==>
      && r.stack == s.stack + [Task(stream, stat.size, mimeType, item, client, parentId)]
      && Folders(r.requests) == Folders(s.requests)
  {
    var sized := AddSize(stat.size);
    AppendEvent(s.events, sized);
    var announced := s.(events := s.events + [sized]);
    if stat.isDirectory then
      MakeDir(announced, item, client, parentId, Join(folderPath, item))
    else
      var t := Task(stream, stat.size, mimeType, item, client, parentId);
      EnqueueKeepsWalkerLogs(announced, t);
      UploadQueue.Enqueue(announced, t)
  }

  /** A push, and the upload it may start, announce no size and request no folder or listing. */
  lemma EnqueueKeepsWalkerLogs(s: State, t: Task)
    requires UploadQueue.Valid(s)
    ensures var r := UploadQueue.Enqueue(s, t);
      Sizes(r.events) == Sizes(s.events) && Folders(r.requests) == Folders(s.requests)
      && Listings(r.requests) == Listings(s.requests)
  {
    if !s.processing {
      var progress := Progress(t.name, 0, t.size);
      var upload := CreateFile(t, FileMetadata(t.name, t.mimeType, t.parentId));
      AppendEvent(s.events, progress);
      AppendRequest(s.requests, upload);
    }
  }

  /**
   * The `makeDir` continuation: only when Drive returns a folder id is the
   * subdirectory walked, with that id as its parent; an error is only logged.
   */
  function OnFolderCreated(s: State, localPath: string, client: Credential, reply: FolderReply): (r: State)
    ensures QueueUnchanged(s, r) && r.events == s.events && Folders(r.requests) == Folders(s.requests)
    ensures reply.Failed? ==> r == s
    ensures reply.Created? ==> Listings(r.requests) == Listings(s.requests) + [(localPath, Some(reply.id))]
    ensures Listings(r.requests) != Listings(s.requests) <==> reply.Created?
  {
    match reply
    case Failed(_) => s
    case Created(id) => UploadDir(s, localPath, client, Some(id))
  }
}
