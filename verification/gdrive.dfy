/**
 * The `GDrive` object: its upload stack and the flag that keeps one drain
 * running, updated in place by the callbacks of the file system and of
 * Drive. Every method is proved to perform exactly the step that the
 * functions of UploadQueue and Walker describe.
 */
module Drive {
  import opened Wrappers
  import opened Metadata
  import opened Logs
  import opened DriveModel
  import UploadQueue
  import Walker

  class GDrive {
    /** The pending upload tasks, front first. */
    var stack: seq<Task>
    /** Set while a drain is running or stalled. */
    var stackProcessing: bool
    /** Everything emitted so far, in order. */
    var events: seq<Event>
    /** Everything requested from Drive and the file system so far, in order. */
    var requests: seq<Request>
    /** The task whose upload callback is still pending. */
    ghost var inFlight: Option<Task>

    ghost function Abs(): State
      reads this
    {
      State(stack, stackProcessing, inFlight, events, requests)
    }

    ghost predicate Valid()
      reads this
    {
      UploadQueue.Valid(Abs())
    }

    constructor ()
      ensures Valid() && Abs() == UploadQueue.Init
    {
      stack := [];
      stackProcessing := false;
      events := [];
      requests := [];
      inFlight := None;
    }

    /**
     * `uploadFile` for a queued task: emit the initial progress event and
     * issue the `files.create` request. The progress poller is not modelled.
     */
    method UploadFile(t: Task)
      modifies this`events, this`requests
      ensures events == old(events) + [Progress(t.name, 0, t.size)]
      ensures requests == old(requests) + [CreateFile(t, FileMetadata(t.name, t.mimeType, t.parentId))]
    {
      events := events + [Progress(t.name, 0, t.size)];
      var metadata := FileMetadata(t.name, t.mimeType, t.parentId);
      requests := requests + [CreateFile(t, metadata)];
    }

    /** `uploadStack`: start uploading the front task, or clear the flag when the stack is empty. */
    method UploadStack()
      requires UploadQueue.Quiet(Abs())
      modifies this
      ensures Abs() == UploadQueue.Drain(old(Abs()))
      ensures Valid()
    {
      if |stack| > 0 {
        stackProcessing := true;
        var params := stack[0];
        UploadFile(params);
        inFlight := Some(params);
      } else {
        stackProcessing := false;
      }
    }

    /**
     * The completion callback of the upload in flight: emit `fileUploaded`;
     * on success remove the front task and drain again, on error leave
     * everything as it is.
     */
    method OnUploadDone(error: Option<ApiError>)
      requires Valid() && inFlight.Some?
      modifies this
      ensures Valid()
      ensures Abs() == UploadQueue.Complete(old(Abs()), error)
      ensures error.Some? ==> stack == old(stack) && stackProcessing
    {
      var t := stack[0];
      AppendEvent(events, FileUploaded(t.size, t.name, error));
      events := events + [FileUploaded(t.size, t.name, error)];
      inFlight := None;
      if error.None? {
        stack := stack[1..];
        UploadStack();
      }
    }

    /** `uploadDir`: request the listing of a local directory. */
    method UploadDir(folderPath: string, client: Credential, parentId: Option<string>)
      modifies this`requests
      ensures Abs() == Walker.UploadDir(old(Abs()), folderPath, client, parentId)
    {
      requests := requests + [ReadDir(folderPath, client, parentId)];
    }

    /** The `readdir` callback: request an `lstat` of every entry, or only log the error. */
    method OnReaddir(folderPath: string, client: Credential, parentId: Option<string>, listing: Option<seq<string>>)
      modifies this`requests
      ensures Abs() == Walker.OnReaddir(old(Abs()), folderPath, client, parentId, listing)
    {
      if listing.Some? {
        var list := listing.value;
        var i := 0;
        while i < |list|
          invariant 0 <= i <= |list|
          invariant requests == old(requests) + Walker.LstatRequests(folderPath, list[..i], client, parentId)
        {
          var next := Lstat(folderPath, list[i], client, parentId);
          assert list[..i + 1] == list[..i] + [list[i]];
          LstatRequestsSnoc(folderPath, list[..i], list[i], client, parentId);
          ConcatAssoc(old(requests), Walker.LstatRequests(folderPath, list[..i], client, parentId), [next]);
          requests := requests + [next];
          i := i + 1;
        }
        assert list[..i] == list;
      }
    }

    /** `makeDir`: emit `mkdir` and request the folder; its continuation is `OnFolderCreated`. */
    method MakeDir(name: string, client: Credential, parentId: Option<string>, localPath: string)
      modifies this`events, this`requests
      ensures Abs() == Walker.MakeDir(old(Abs()), name, client, parentId, localPath)
    {
      events := events + [Mkdir(name)];
      var metadata := FolderMetadata(name, parentId);
      requests := requests + [CreateFolder(metadata, client, localPath)];
    }

    /** The `makeDir` continuation: walk the new folder only when Drive returned its id. */
    method OnFolderCreated(localPath: string, client: Credential, reply: FolderReply)
      modifies this`requests
      ensures Abs() == Walker.OnFolderCreated(old(Abs()), localPath, client, reply)
    {
      if reply.Created? {
        UploadDir(localPath, client, Some(reply.id));
      }
    }

    /**
     * The `lstat` callback of one entry: emit `addSize`, then create the
     * folder of a directory, or push the task of a file and drain when the
     * flag is clear.
     */
    method OnLstat(folderPath: string, item: string, client: Credential, parentId: Option<string>,
                   stat: Stat, stream: StreamHandle, mimeType: string)
      requires Valid()
      modifies this
      ensures Valid()
      ensures Abs() == Walker.OnLstat(old(Abs()), folderPath, item, client, parentId, stat, stream, mimeType)
    {
      AppendEvent(events, AddSize(stat.size));
      events := events + [AddSize(stat.size)];
      if stat.isDirectory {
        MakeDir(item, client, parentId, Join(folderPath, item));
      } else {
        stack := stack + [Task(stream, stat.size, mimeType, item, client, parentId)];
        if !stackProcessing {
          UploadStack();
        }
      }
    }
  }

  lemma LstatRequestsSnoc(folderPath: string, items: seq<string>, item: string, client: Credential, parentId: Option<string>)
    ensures Walker.LstatRequests(folderPath, items + [item], client, parentId)
         == Walker.LstatRequests(folderPath, items, client, parentId) + [Lstat(folderPath, item, client, parentId)]
  {
    var l := Walker.LstatRequests(folderPath, items + [item], client, parentId);
    var r := Walker.LstatRequests(folderPath, items, client, parentId) + [Lstat(folderPath, item, client, parentId)];
    assert |l| == |r|;
    forall k | 0 <= k < |l| ensures l[k] == r[k] {
      if k < |items| { assert (items + [item])[k] == items[k]; }
    }
  }
}
