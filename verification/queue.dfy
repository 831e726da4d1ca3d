/**
 * The upload queue of `GDrive` as a state machine: `Enqueue` (the push in
 * `uploadDir`), `Drain` (`uploadStack`) and `Complete` (the callback that
 * `uploadStack` hands to `uploadFile`). The class in module Drive is proved
 * to follow these functions step by step.
 */
module UploadQueue {
  import opened Wrappers
  import opened Metadata
  import opened Logs
  import opened DriveModel

  /** A freshly constructed object: empty stack, flag clear, nothing logged. */
  const Init: State := State([], false, None, [], [])

  /**
   * The invariant of every state between two turns of the event loop:
   * the flag is set exactly when the stack is non-empty, an upload in flight
   * is always the front task, the front task is the last upload started (a
   * task leaves the stack only after its upload succeeded), and at most one
   * upload has been started without its callback having fired.
   */
  predicate Valid(s: State) {
    && s.processing == (|s.stack| > 0)
    && (s.inFlight.Some? ==> |s.stack| > 0 && s.inFlight.value == s.stack[0])
    && (|s.stack| > 0 ==> LastSent(s.requests) == Some(s.stack[0]))
    && |Sent(s.requests)| == Finished(s.events) + (if s.inFlight.Some? then 1 else 0)
  }

  /** The task of the most recent upload started, if any. */
  function LastSent(rs: seq<Request>): Option<Task> {
    var sent := Sent(rs);
    if sent == [] then None else Some(sent[|sent| - 1])
  }

  /** No upload is in flight: the precondition of a drain. */
  predicate Quiet(s: State) {
    s.inFlight.None? && |Sent(s.requests)| == Finished(s.events)
  }

  /** The front upload failed: the flag stays set and nothing is in flight. */
  predicate Stalled(s: State) {
    s.processing && s.inFlight.None?
  }

  /** The tasks whose upload has not been started yet. */
  function Waiting(s: State): seq<Task> {
    if s.processing && |s.stack| > 0 then s.stack[1..] else s.stack
  }

  /** Every task the queue has accepted: those already started, then those still waiting. */
  function Accepted(s: State): seq<Task> {
    Sent(s.requests) + Waiting(s)
  }

  /** `uploadStack`: start the upload of the front task, or clear the flag. */
  function Drain(s: State): (r: State)
    requires Quiet(s)
    ensures Valid(r)
    ensures r.stack == s.stack && Finished(r.events) == Finished(s.events)
    ensures r.processing == (|s.stack| > 0)
    ensures |s.stack| == 0 ==> r.inFlight.None? && r.events == s.events && r.requests == s.requests
    ensures |s.stack| > 0 ==> r.inFlight == Some(s.stack[0])
    ensures |s.stack| > 0 ==> Sent(r.requests) == Sent(s.requests) + [s.stack[0]]
    ensures |s.stack| > 0 ==>
      var t := s.stack[0];
      && r.events == s.events + [Progress(t.name, 0, t.size)]
      && r.requests == s.requests + [CreateFile(t, FileMetadata(t.name, t.mimeType, t.parentId))]
  {
    if |s.stack| > 0 then
      var t := s.stack[0];
      var progress := Progress(t.name, 0, t.size);
      var upload := CreateFile(t, FileMetadata(t.name, t.mimeType, t.parentId));
      AppendEvent(s.events, progress);
      AppendRequest(s.requests, upload);
      s.(processing := true, inFlight := Some(t),
         events := s.events + [progress], requests := s.requests + [upload])
    else
      s.(processing := false)
  }

  /** The push in `uploadDir`, followed by a drain only when the flag is clear. */
  function Enqueue(s: State, t: Task): (r: State)
    requires Valid(s)
    ensures Valid(r)
    ensures r.stack == s.stack + [t] && r.processing
    ensures s.processing ==> r == s.(stack := s.stack + [t])
    ensures !s.processing ==> r.inFlight == Some(t) && Sent(r.requests) == Sent(s.requests) + [t]
  {
    var pushed := s.(stack := s.stack + [t]);
    if s.processing then pushed else Drain(pushed)
  }

  /**
   * The completion of the upload in flight: emit `fileUploaded`, then on
   * success remove the front task and drain again; on error do nothing more.
   */
  function Complete(s: State, error: Option<ApiError>): (r: State)
    requires Valid(s) && s.inFlight.Some?
    ensures Valid(r)
    ensures Finished(r.events) == Finished(s.events) + 1
    ensures |r.events| > |s.events| && r.events[..|s.events|] == s.events
    ensures r.events[|s.events|] == FileUploaded(s.stack[0].size, s.stack[0].name, error)
    ensures error.Some? ==> Stalled(r) && r.stack == s.stack && r.requests == s.requests
    ensures error.None? ==> r.stack == s.stack[1..] && r.processing == (|s.stack| > 1)
    ensures error.None? && |s.stack| > 1 ==>
      r.inFlight == Some(s.stack[1]) && Sent(r.requests) == Sent(s.requests) + [s.stack[1]]
    ensures error.None? && |s.stack| == 1 ==> r.inFlight.None? && r.requests == s.requests
  {
    var t := s.inFlight.value;
    var done := FileUploaded(t.size, t.name, error);
    AppendEvent(s.events, done);
    var notified := s.(inFlight := None, events := s.events + [done]);
    if error.Some? then notified
    else Drain(notified.(stack := s.stack[1..]))
  }

  /** An event the queue reacts to: a push, or the callback of the upload in flight. */
  datatype Input = Push(task: Task) | Finish(error: Option<ApiError>)

  /** One input; a callback with no upload in flight cannot occur and changes nothing. */
  function Step(s: State, i: Input): (r: State)
    requires Valid(s)
    ensures Valid(r)
  {
    match i
    case Push(t) => Enqueue(s, t)
    case Finish(e) => if s.inFlight.Some? then Complete(s, e) else s
  }

  /** A sequence of inputs, one per turn of the event loop. */
  function Run(s: State, ins: seq<Input>): (r: State)
    requires Valid(s)
    ensures Valid(r)
    decreases |ins|
  {
    if ins == [] then s else Run(Step(s, ins[0]), ins[1..])
  }

  function PushedTask(i: Input): Option<Task> {
    if i.Push? then Some(i.task) else None
  }

  /** The tasks pushed by a sequence of inputs, in order. */
  function Pushed(ins: seq<Input>): seq<Task> {
    Collect(ins, PushedTask)
  }

  function Pushes(ts: seq<Task>): seq<Input> {
    if ts == [] then [] else [Push(ts[0])] + Pushes(ts[1..])
  }

  function Successes(n: nat): seq<Input> {
    if n == 0 then [] else [Finish(None)] + Successes(n - 1)
  }

  /** Running a concatenation runs its parts one after the other. */
  lemma {:induction false} RunAppend(s: State, a: seq<Input>, b: seq<Input>)
    requires Valid(s)
    ensures Run(s, a + b) == Run(Run(s, a), b)
    decreases |a|
  {
    if a == [] {
      assert a + b == b;
    } else {
      assert (a + b)[0] == a[0];
      assert (a + b)[1..] == a[1..] + b;
      RunAppend(Step(s, a[0]), a[1..], b);
    }
  }

  /**
   * A new upload starts only from a drain, and a drain starts an upload only
   * after a push onto an idle queue or from a successful callback; each
   * input starts at most one upload.
   */
  lemma UploadStartsOnlyFromDrain(s: State, i: Input)
    requires Valid(s)
    ensures var r := Step(s, i);
      && |Sent(r.requests)| <= |Sent(s.requests)| + 1
      && (|Sent(r.requests)| > |Sent(s.requests)| ==>
            (s.inFlight.None? && i.Push? && !s.processing)
            || (s.inFlight.Some? && i.Finish? && i.error.None? && |s.stack| > 1))
  {
  }

  /** At every moment of every run from a fresh object, at most one upload is in flight. */
  lemma AtMostOneUploadInFlight(ins: seq<Input>)
    ensures forall k :: 0 <= k <= |ins| ==>
      Finished(Run(Init, ins[..k]).events) <= |Sent(Run(Init, ins[..k]).requests)| <= Finished(Run(Init, ins[..k]).events) + 1
  {
  }

  /** A push keeps the started tasks followed by the waiting ones, plus the pushed task. */
  lemma PushKeepsTasks(s: State, t: Task)
    requires Valid(s)
    ensures Accepted(Enqueue(s, t)) == Accepted(s) + [t]
  {
    var r := Enqueue(s, t);
    if s.processing {
      assert r.stack[1..] == s.stack[1..] + [t];
    } else {
      assert Waiting(r) == [];
    }
  }

  /** A callback keeps the started tasks followed by the waiting ones. */
  lemma CompleteKeepsTasks(s: State, e: Option<ApiError>)
    requires Valid(s) && s.inFlight.Some?
    ensures Accepted(Complete(s, e)) == Accepted(s)
  {
    if e.None? && |s.stack| > 1 {
      var r := Complete(s, e);
      assert Sent(r.requests) == Sent(s.requests) + [s.stack[1]];
      assert s.stack[1..] == [s.stack[1]] + r.stack[1..];
    }
  }

  /** One input keeps the started tasks followed by the waiting ones, plus what it pushes. */
  lemma StepKeepsTasks(s: State, i: Input)
    requires Valid(s)
    ensures Accepted(Step(s, i)) == Accepted(s) + Picked(i, PushedTask)
  {
    match i
    case Push(t) => PushKeepsTasks(s, t);
    case Finish(e) => if s.inFlight.Some? { CompleteKeepsTasks(s, e); }
  }

  /** A run keeps the started tasks followed by the waiting ones, plus what it pushes. */
  lemma {:induction false} RunKeepsTasks(s: State, ins: seq<Input>)
    requires Valid(s)
    ensures Accepted(Run(s, ins)) == Accepted(s) + Pushed(ins)
    decreases |ins|
  {
    if ins != [] {
      var p := Picked(ins[0], PushedTask);
      StepKeepsTasks(s, ins[0]);
      RunKeepsTasks(Step(s, ins[0]), ins[1..]);
      ConcatAssoc(Accepted(s), p, Pushed(ins[1..]));
    }
  }

  /**
   * FIFO: from a fresh object, uploads start in exactly the order the tasks
   * were pushed, none skipped or repeated, and the stack holds the rest:
   * the task of the last upload started, then every task not started yet.
   */
  lemma UploadsFollowPushOrder(ins: seq<Input>)
    ensures var r := Run(Init, ins);
      && Accepted(r) == Pushed(ins)
      && Sent(r.requests) <= Pushed(ins)
      && (r.processing ==> |Sent(r.requests)| > 0 && r.stack == Pushed(ins)[|Sent(r.requests)| - 1..])
      && (!r.processing ==> r.stack == [] && Sent(r.requests) == Pushed(ins))
  {
    RunKeepsTasks(Init, ins);
    assert Accepted(Init) == [];
    StackIsUnfinishedTail(Run(Init, ins));
  }

  /** In a valid state the stack is the last started task followed by the waiting ones. */
  lemma StackIsUnfinishedTail(s: State)
    requires Valid(s)
    ensures s.processing ==> |Sent(s.requests)| > 0 && s.stack == Accepted(s)[|Sent(s.requests)| - 1..]
    ensures !s.processing ==> s.stack == [] && Accepted(s) == Sent(s.requests)
  {
    var sent := Sent(s.requests);
    if s.processing {
      assert Accepted(s)[|sent| - 1..] == [sent[|sent| - 1]] + s.stack[1..];
      assert s.stack == [s.stack[0]] + s.stack[1..];
    } else {
      assert sent + [] == sent;
    }
  }

  /** A stalled queue reacts to one input only by appending what it pushes. */
  lemma StalledStep(s: State, i: Input)
    requires Valid(s) && Stalled(s)
    ensures Step(s, i) == s.(stack := s.stack + Picked(i, PushedTask))
  {
  }

  /**
   * Stall: after a failed upload, the queue never starts another upload and
   * emits no further event of its own (the progress poller is not modelled);
   * pushes only grow the stack behind the failed task.
   */
  lemma {:induction false} StallIsPermanent(s: State, ins: seq<Input>)
    requires Valid(s) && Stalled(s)
    ensures Run(s, ins) == s.(stack := s.stack + Pushed(ins))
    decreases |ins|
  {
    if ins == [] {
      assert s.stack + [] == s.stack;
    } else {
      var p := Picked(ins[0], PushedTask);
      StalledStep(s, ins[0]);
      StallIsPermanent(s.(stack := s.stack + p), ins[1..]);
      assert Pushed(ins) == p + Pushed(ins[1..]);
      assert s.stack + p + Pushed(ins[1..]) == s.stack + Pushed(ins);
    }
  }

  /** Pushes onto a busy queue only grow the stack. */
  lemma {:induction false} PushesWhileBusy(s: State, ts: seq<Task>)
    requires Valid(s) && s.processing
    ensures Run(s, Pushes(ts)) == s.(stack := s.stack + ts)
    decreases |ts|
  {
    if ts == [] {
      assert s.stack + [] == s.stack;
    } else {
      PushesWhileBusy(Enqueue(s, ts[0]), ts[1..]);
      assert s.stack + [ts[0]] + ts[1..] == s.stack + ts;
    }
  }

  /**
   * With the front task in flight, as many successful callbacks as there are
   * tasks upload every waiting task in order and leave the queue empty and idle.
   */
  lemma {:induction false} SuccessesDrainTheQueue(s: State)
    requires Valid(s) && s.inFlight.Some?
    ensures var r := Run(s, Successes(|s.stack|));
      && r.stack == [] && !r.processing && r.inFlight.None?
      && Sent(r.requests) == Sent(s.requests) + s.stack[1..]
      && Finished(r.events) == Finished(s.events) + |s.stack|
    decreases |s.stack|
  {
    var n := |s.stack|;
    var s1 := Complete(s, None);
    RunFirstSuccess(s);
    if n > 1 {
      SuccessStartsNext(s);
      SuccessesDrainTheQueue(s1);
    } else {
      assert Successes(0) == [];
      assert s.stack[1..] == [];
    }
  }

  /** A success with tasks left starts the next one: the tasks started or waiting stay the same. */
  lemma SuccessStartsNext(s: State)
    requires Valid(s) && s.inFlight.Some? && |s.stack| > 1
    ensures var r := Complete(s, None);
      && r.inFlight.Some? && |r.stack| == |s.stack| - 1
      && Sent(r.requests) + r.stack[1..] == Sent(s.requests) + s.stack[1..]
      && Finished(r.events) == Finished(s.events) + 1
  {
    var r := Complete(s, None);
    assert s.stack[1..] == [s.stack[1]] + r.stack[1..];
  }

  /** A run of successes begins with the callback of the upload in flight. */
  lemma RunFirstSuccess(s: State)
    requires Valid(s) && s.inFlight.Some?
    ensures Run(s, Successes(|s.stack|)) == Run(Complete(s, None), Successes(|s.stack| - 1))
  {
    var ins := Successes(|s.stack|);
    assert ins[0] == Finish(None) && ins[1..] == Successes(|s.stack| - 1);
  }

  /** The first push onto a fresh object starts its upload at once. */
  lemma FirstPushStartsUpload(t: Task)
    ensures var r := Enqueue(Init, t);
      && r.stack == [t] && r.processing && r.inFlight == Some(t)
      && Sent(r.requests) == [t] && Finished(r.events) == 0
  {
    assert Sent([]) == [];
  }

  /** Pushing several tasks onto a fresh object starts the first and queues the rest behind it. */
  lemma {:induction false} PushesOntoFresh(ts: seq<Task>)
    requires ts != []
    ensures var r := Run(Init, Pushes(ts));
      && r.stack == ts && r.inFlight == Some(ts[0])
      && Sent(r.requests) == [ts[0]] && Finished(r.events) == 0
  {
    FirstPushStartsUpload(ts[0]);
    var busy := Enqueue(Init, ts[0]);
    var ins := Pushes(ts);
    assert ins[0] == Push(ts[0]) && ins[1..] == Pushes(ts[1..]);
    assert Run(Init, ins) == Run(busy, Pushes(ts[1..]));
    PushesWhileBusy(busy, ts[1..]);
    assert [ts[0]] + ts[1..] == ts;
  }

  /** No callback of the inputs reports an error. */
  predicate NoFailure(ins: seq<Input>) {
    forall k :: 0 <= k < |ins| ==> !(ins[k].Finish? && ins[k].error.Some?)
  }

  /** An input other than a failed callback never stalls a queue that is not stalled. */
  lemma StepNoStall(s: State, i: Input)
    requires Valid(s) && !Stalled(s) && !(i.Finish? && i.error.Some?)
    ensures !Stalled(Step(s, i))
  {
  }

  /** A run without failed callbacks never stalls a queue that is not stalled. */
  lemma {:induction false} RunNoStall(s: State, ins: seq<Input>)
    requires Valid(s) && !Stalled(s) && NoFailure(ins)
    ensures !Stalled(Run(s, ins))
    decreases |ins|
  {
    if ins != [] {
      assert !(ins[0].Finish? && ins[0].error.Some?);
      StepNoStall(s, ins[0]);
      assert NoFailure(ins[1..]) by {
        forall k | 0 <= k < |ins[1..]|
          ensures !(ins[1..][k].Finish? && ins[1..][k].error.Some?)
        {
          assert ins[1..][k] == ins[k + 1];
        }
      }
      RunNoStall(Step(s, ins[0]), ins[1..]);
    }
  }

  /**
   * Any interleaving of pushes and successful callbacks from a fresh object:
   * once as many callbacks have fired as tasks were pushed, and only then,
   * the queue is empty and idle and every pushed task was uploaded once, in
   * push order.
   */
  lemma AllSucceedAnySchedule(ins: seq<Input>)
    requires NoFailure(ins)
    ensures var r := Run(Init, ins);
      && (Finished(r.events) == |Pushed(ins)| <==> r.stack == [])
      && (Finished(r.events) == |Pushed(ins)| ==>
            !r.processing && r.inFlight.None? && Sent(r.requests) == Pushed(ins))
  {
    var r := Run(Init, ins);
    RunNoStall(Init, ins);
    UploadsFollowPushOrder(ins);
    StackIsUnfinishedTail(r);
  }

  /**
   * N pushed tasks whose uploads all succeed: exactly those N uploads run,
   * in push order, and the queue ends empty with the flag clear.
   */
  lemma {:induction false} AllUploadsSucceed(ts: seq<Task>)
    ensures var r := Run(Init, Pushes(ts) + Successes(|ts|));
      && r.stack == [] && !r.processing
      && Sent(r.requests) == ts
      && Finished(r.events) == |ts|
  {
    if ts == [] {
      assert Pushes(ts) + Successes(0) == [];
    } else {
      RunAppend(Init, Pushes(ts), Successes(|ts|));
      PushesOntoFresh(ts);
      var full := Run(Init, Pushes(ts));
      SuccessesDrainTheQueue(full);
      assert [ts[0]] + ts[1..] == ts;
    }
  }
}
