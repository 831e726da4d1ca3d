# GDrive upload queue — a Dafny model

This project models the one piece of original control logic in the `GDrive`
uploader (`server/GDrive/GDrive.ts`): a FIFO stack of pending file uploads
guarded by a re-entrancy flag, and the directory walker that feeds it.

- **Upload queue.** `uploadDir`'s `lstat` callback pushes a file task and calls
  `uploadStack` only when `stackProcessing` is false. `uploadStack` starts the
  upload of the front task and sets the flag. When the stack is empty it clears
  the flag instead. The upload callback emits `fileUploaded`. On success it
  removes the front task and drains again. On error it does nothing more, so the
  queue stalls with the flag still set.
- **Walker.** `uploadDir` lists a directory and `lstat`s every entry. Each
  `lstat` callback emits `addSize` with the entry's size. A directory becomes a
  `makeDir` under the current parent id. A file becomes a pushed task with that
  same parent id. The subdirectory is walked only when folder creation returns
  an id.
- **Request metadata.** `parents: [parentId]` is attached only when the parent
  id is truthy in JavaScript's sense, so an empty string counts as absent.

Layout:

- `wrappers.dfy` holds `Option`.
- `logs.dfy` holds `Collect`, which projects an append-only log.
- `metadata.dfy` holds the metadata rule.
- `model.dfy` holds the entities (`Task`, `Event`, `Request`, `State`) and the log projections:
  - `Sent`: the tasks whose upload was started;
  - `Finished`: the number of upload callbacks that fired;
  - `Sizes`, `Folders`, `Listings`.
- `queue.dfy` holds the queue as pure transitions, with lemmas over runs of inputs.
- `walker.dfy` holds one function per walker callback.
- `gdrive.dfy` holds the class `GDrive`. Its fields are `stack` and `stackProcessing`, two logs of what it emitted and requested, and a ghost `inFlight`. Each method is proved to perform exactly the step its function describes (`ensures Abs() == UploadQueue.Drain(old(Abs()))`, …).

All I/O is abstract. Each call into Drive or the file system is appended to
`requests`. Its answer arrives later as a separate method call (`OnUploadDone`,
`OnReaddir`, `OnLstat`, `OnFolderCreated`). Streams, OAuth clients and MIME
types are opaque values passed in by the caller.

Three behaviours of the code that the model keeps as they are:

- The front task is removed only after a *successful* upload, not after any callback. On error the flag stays set with nothing in flight (`UploadQueue.Stalled`).
- The progress timer is not cleared by the upload callback. It stops only once `bytesWritten >= totalSize`. The timer itself is left out.
- An `lstat` failure is neither logged nor skipped. The guard at `server/GDrive/GDrive.ts` line 145 tests the `readdir` error `err`, which is always falsy inside that branch. The `lstat` error `e` is never consulted. The model's `OnLstat` therefore has no error input.

## Model

| member | source | states |
|---|---|---|
| Metadata.FileMetadata | server/GDrive/GDrive.ts:43-49 | name and MIME type are the file's; `parents` is present iff the parent id is truthy; the file is placed under that id, otherwise in the Drive root |
| Metadata.FolderMetadata | server/GDrive/GDrive.ts:96-102 | MIME type is the folder type; `parents` is present iff the parent id is truthy, and then names exactly that folder |
| UploadQueue.Drain | server/GDrive/GDrive.ts:116-131 | non-empty stack: flag set, exactly the front task put in flight and not removed, one `files.create` with its metadata and one `progress` event with uploaded = 0; empty stack: flag cleared, nothing issued or emitted; the queue invariant holds afterwards |
| UploadQueue.Enqueue | server/GDrive/GDrive.ts:154-158 | the task is appended at the tail with earlier tasks in place; when the flag was set nothing else changes; when it was clear, the new task's upload starts at once |
| UploadQueue.Complete | server/GDrive/GDrive.ts:120-127 | one `fileUploaded` event with the front task's size, name and error; on error, stack, flag (set) and requests are unchanged and nothing is in flight; on success exactly the front task is removed and the next one, if any, starts uploading, else the flag is cleared |
| UploadQueue.Step | server/GDrive/GDrive.ts:116-158 | each input (push or callback) keeps the queue invariant: flag set iff stack non-empty, in-flight task is the front, the front task is the last upload started, started uploads exceed finished ones by at most one |
| UploadQueue.Run | server/GDrive/GDrive.ts:116-158 | any sequence of inputs keeps the queue invariant, including that the front task is the last upload started |
| UploadQueue.UploadStartsOnlyFromDrain | server/GDrive/GDrive.ts:116-158 | an input starts at most one upload, and only a push onto an idle queue or a successful callback with tasks left starts one |
| UploadQueue.AtMostOneUploadInFlight | server/GDrive/GDrive.ts:116-158 | at every prefix of every run from a fresh object, started uploads minus fired callbacks is 0 or 1 |
| UploadQueue.StepKeepsTasks | server/GDrive/GDrive.ts:116-158 | one input keeps "started tasks followed by waiting tasks", extended only by the task it pushes |
| UploadQueue.RunKeepsTasks | server/GDrive/GDrive.ts:116-158 | the same over any sequence of inputs |
| UploadQueue.UploadsFollowPushOrder | server/GDrive/GDrive.ts:116-158 | FIFO: from a fresh object, the started uploads are a prefix of the pushed tasks in push order; while the flag is set the stack is exactly the pushed tasks from the last started one on, and when it is clear the stack is empty and every pushed task has been started |
| UploadQueue.StallIsPermanent | server/GDrive/GDrive.ts:120-158 | after a failed upload, any later inputs only append their tasks to the stack: no upload starts, the queue emits no further event, the flag stays set |
| UploadQueue.PushesWhileBusy | server/GDrive/GDrive.ts:154-158 | pushes onto a busy queue only grow the stack |
| UploadQueue.FirstPushStartsUpload | server/GDrive/GDrive.ts:154-158 | the first push onto a fresh object starts that task's upload immediately |
| UploadQueue.SuccessesDrainTheQueue | server/GDrive/GDrive.ts:116-131 | with the front task in flight, one success per task uploads every waiting task in order and leaves the stack empty and the flag clear |
| UploadQueue.StackIsUnfinishedTail | server/GDrive/GDrive.ts:116-158 | in any valid state the stack is the last started task followed by the tasks not yet started; with the flag clear it is empty |
| UploadQueue.RunNoStall | server/GDrive/GDrive.ts:116-158 | any interleaving of pushes and successful callbacks never leaves the flag set with nothing in flight |
| UploadQueue.AllSucceedAnySchedule | server/GDrive/GDrive.ts:116-158 | any interleaving of pushes and successful callbacks from a fresh object: as many callbacks as pushes iff the stack is empty, and then the flag is clear, nothing is in flight and every pushed task was uploaded exactly once in push order |
| UploadQueue.AllUploadsSucceed | server/GDrive/GDrive.ts:116-158 | N pushed tasks that all succeed: exactly those N uploads, in push order, N callbacks, stack empty and flag clear at the end |
| Walker.UploadDir | server/GDrive/GDrive.ts:137-138 | one listing request for the directory with the caller's parent id; queue and events untouched |
| Walker.LstatRequests | server/GDrive/GDrive.ts:140-141 | one `lstat` request per entry, in listing order |
| Walker.OnReaddir | server/GDrive/GDrive.ts:138-168 | on error nothing changes; otherwise exactly one `lstat` per listed entry, in order, closing over the same client and parent id; queue untouched |
| Walker.MakeDir | server/GDrive/GDrive.ts:90-105 | one `mkdir` event and one folder creation under the given parent id; queue untouched |
| Walker.OnLstat | server/GDrive/GDrive.ts:141-163 | exactly one `addSize` with the entry's size, emitted before anything else; a directory yields one folder creation under the current parent id and leaves the stack alone; a file yields one pushed task with that parent id and no folder creation; the queue invariant is kept |
| Walker.EnqueueKeepsWalkerLogs | server/GDrive/GDrive.ts:154-158 | a push, with the upload it may start, announces no size and creates no folder or listing |
| Walker.OnFolderCreated | server/GDrive/GDrive.ts:106-113 | the subdirectory is listed, with the returned id as parent, iff Drive returned an id; an error changes nothing |
| Drive.GDrive.constructor | server/GDrive/GDrive.ts:21-22 | a new object has an empty stack and a clear flag |
| Drive.GDrive.UploadFile | server/GDrive/GDrive.ts:32-64 | emits `progress` with uploaded = 0, then issues `files.create` with the task's metadata and stream |
| Drive.GDrive.UploadStack | server/GDrive/GDrive.ts:116-131 | performs exactly `UploadQueue.Drain` on the object's fields |
| Drive.GDrive.OnUploadDone | server/GDrive/GDrive.ts:120-127 | performs exactly `UploadQueue.Complete`; on error stack and flag are unchanged |
| Drive.GDrive.UploadDir | server/GDrive/GDrive.ts:137-138 | performs exactly `Walker.UploadDir` |
| Drive.GDrive.OnReaddir | server/GDrive/GDrive.ts:138-168 | the `forEach` loop performs exactly `Walker.OnReaddir` |
| Drive.GDrive.MakeDir | server/GDrive/GDrive.ts:90-105 | performs exactly `Walker.MakeDir` |
| Drive.GDrive.OnFolderCreated | server/GDrive/GDrive.ts:106-113 | performs exactly `Walker.OnFolderCreated` |
| Drive.GDrive.OnLstat | server/GDrive/GDrive.ts:141-163 | performs exactly `Walker.OnLstat`, including the drain only when the flag is clear |

## Left out

- OAuth client creation, the consent URL and the scope list (lines 8-14, 23-25, 78-84) are left out. They are foreign library calls.
- The `files.create` calls (lines 50-64, 103-113) are recorded as requests only. Their answers are method inputs.
- The periodic progress poller (lines 65-75) is left out, because it reads a transport-internal byte counter on a timer. Only the initial `progress` event with uploaded = 0 is modelled. The upload callback does not clear that interval, so after a failed upload the real object may go on emitting `progress` until `bytesWritten >= totalSize`. `UploadQueue.StallIsPermanent`'s "no further event" therefore covers the queue's own events only.
- `fs.readdir`, `fs.lstat`, `createReadStream` and `mime.lookup` are not modelled. The listing, the `Stat`, the stream handle and the MIME type are inputs. `path.join` is modelled as plain concatenation with `/`, with no normalisation.
- An `lstat` failure leaves `stat` undefined, so reading `stat.size` at line 143 throws a TypeError. `OnLstat` is defined only for a delivered `Stat`, so the model does not capture this crash.
- The interleaving of sibling `lstat` callbacks and subdirectory walks is event-loop nondeterminism. Each callback is one independent step. Whole-tree totals, such as D folder creations and F uploads for a tree, are therefore not stated.
- `uploadFile` called directly with no callback (line 63) is not modelled. Only the queue calls it.
- `debug` logging is not modelled, because it has no effect on state.
- `EventEmitter` listeners are not modelled. Emitted events are an append-only log.
