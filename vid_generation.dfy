/** Video generation in manager/tools/vid_generation.py: `vid_generation` starts one
    generation, waits for the long-running operation to report done, and takes the name of the
    first generated video; `batch_vid_generation` does the same for each prompt in turn.

    The service is an oracle that answers each prompt with a `GenerationTrace`: what
    `generate_videos` returned (or raised), then what each `operations.get` returned. The same
    prompt always gets the same trace. The source waits with no deadline; a trace that runs out
    before the operation is done means the source would still be waiting. */
module VidGeneration {
  import opened Base

  /** One entry of `operation.result.generated_videos`: its `video` file, reduced to the
      file's `name`, or None. */
  datatype GeneratedVideo = GeneratedVideo(video: Option<string>)

  /** `operation.result`: its `generated_videos` list, or None. */
  datatype OperationResult = OperationResult(generatedVideos: Option<seq<GeneratedVideo>>)

  /** A long-running operation: `done`, and `result` when there is one. */
  datatype Operation = Operation(done: bool, result: Option<OperationResult>)

  /** What the service does with one prompt. */
  datatype GenerationTrace = GenerationTrace(start: Result<Operation>, polls: seq<Result<Operation>>)

  /** How the wait on an operation ends. */
  datatype Waited = Finished(op: Operation) | PollRaised(error: string) | NotDone

  /** What one generation gives. */
  datatype Generated = FileRef(name: string) | GenerationRaised(error: string) | StillGenerating

  /** What `batch_vid_generation` gives: all the references, or the position of the first prompt
      without one and what happened to it (the source raises there, or is still waiting). */
  datatype Batch = Refs(refs: seq<string>) | Stopped(at: nat, reason: Generated)

  const NoResultError: string := "'NoneType' object has no attribute 'generated_videos'"
  const NoListError: string := "'NoneType' object is not subscriptable"
  const NoVideoError: string := "list index out of range"
  const NoFileError: string := "'NoneType' object has no attribute 'name'"

  /** `operation.result.generated_videos[0].video.name`, and the error each of its four steps
      raises on None or an empty list. */
  function FileReference(op: Operation): (r: Result<string>)
    ensures r.Ok? <==>
      && op.result.Some? && op.result.value.generatedVideos.Some?
      && op.result.value.generatedVideos.value != []
      && op.result.value.generatedVideos.value[0].video.Some?
    ensures r.Ok? ==> r.value == op.result.value.generatedVideos.value[0].video.value
    ensures op.result.None? ==> r == Raised(NoResultError)
    ensures op.result.Some? && op.result.value.generatedVideos.None? ==> r == Raised(NoListError)
    ensures op.result.Some? && op.result.value.generatedVideos == Some([]) ==> r == Raised(NoVideoError)
    ensures (op.result.Some? && op.result.value.generatedVideos.Some? && op.result.value.generatedVideos.value != []
             && op.result.value.generatedVideos.value[0].video.None?) ==> r == Raised(NoFileError)
  {
    match op.result
    case None => Raised(NoResultError)
    case Some(res) =>
      match res.generatedVideos
      case None => Raised(NoListError)
      case Some(videos) =>
        if videos == [] then Raised(NoVideoError)
        else match videos[0].video
          case None => Raised(NoFileError)
          case Some(name) => Ok(name)
  }

  /** What the loop holds after `j` refreshes: the first operation when `j` is 0, else the
      `j`-th refresh. */
  function Seen(first: Operation, polls: seq<Result<Operation>>, j: nat): Result<Operation>
    requires j <= |polls|
  {
    if j == 0 then Ok(first) else polls[j - 1]
  }

  /** The `while not operation.done` loop as a function of the trace. */
  function Await(op: Operation, polls: seq<Result<Operation>>): (w: Waited)
    ensures w.Finished? ==> w.op.done
    decreases |polls|
  {
    if op.done then Finished(op)
    else if polls == [] then NotDone
    else match polls[0]
      case Raised(e) => PollRaised(e)
      case Ok(next) => Await(next, polls[1..])
  }

  /** A refresh that keeps the loop going: it answered, with an operation not yet done. */
  predicate Pending(r: Result<Operation>)
  {
    r.Ok? && !r.value.done
  }

  /** The wait ends on an operation exactly when that operation is the first one seen that is
      done. */
  lemma {:induction false} AwaitFindsFirstDone(first: Operation, polls: seq<Result<Operation>>, op: Operation)
    ensures Await(first, polls) == Finished(op) ==>
      exists k :: 0 <= k <= |polls| && Seen(first, polls, k) == Ok(op) && op.done
                  && forall j :: 0 <= j < k ==> Pending(Seen(first, polls, j))
    ensures (exists k :: 0 <= k <= |polls| && Seen(first, polls, k) == Ok(op) && op.done
                         && forall j :: 0 <= j < k ==> Pending(Seen(first, polls, j))) ==>
      Await(first, polls) == Finished(op)
    decreases |polls|
  {
    if !first.done && polls != [] && polls[0].Ok? {
      var rest := polls[1..];
      var next := polls[0].value;
      AwaitFindsFirstDone(next, rest, op);
      if Await(first, polls) == Finished(op) {
        var k :| 0 <= k <= |rest| && Seen(next, rest, k) == Ok(op) && op.done
                 && forall j :: 0 <= j < k ==> Pending(Seen(next, rest, j));
        assert Seen(first, polls, k + 1) == Seen(next, rest, k);
        assert forall j :: 0 <= j < k + 1 ==> Pending(Seen(first, polls, j)) by {
          forall j | 0 <= j < k + 1 ensures Pending(Seen(first, polls, j)) {
            if j > 0 {
              assert Seen(first, polls, j) == Seen(next, rest, j - 1);
            }
          }
        }
      }
      if exists k :: 0 <= k <= |polls| && Seen(first, polls, k) == Ok(op) && op.done
                     && forall j :: 0 <= j < k ==> Pending(Seen(first, polls, j)) {
        var k :| 0 <= k <= |polls| && Seen(first, polls, k) == Ok(op) && op.done
                 && forall j :: 0 <= j < k ==> Pending(Seen(first, polls, j));
        assert k > 0;
        assert Seen(next, rest, k - 1) == Seen(first, polls, k);
        assert forall j :: 0 <= j < k - 1 ==> Pending(Seen(next, rest, j)) by {
          forall j | 0 <= j < k - 1 ensures Pending(Seen(next, rest, j)) {
            assert Seen(next, rest, j) == Seen(first, polls, j + 1);
          }
        }
      }
    } else if !first.done && polls != [] {
      assert Await(first, polls) == PollRaised(polls[0].error);
      forall k | 0 <= k <= |polls|
        ensures !(Seen(first, polls, k) == Ok(op) && op.done && forall j :: 0 <= j < k ==> Pending(Seen(first, polls, j)))
      {
        assert Seen(first, polls, 1) == polls[0];
        assert Seen(first, polls, 0) == Ok(first);
        if k >= 2 {
          assert !Pending(Seen(first, polls, 1));
        }
      }
    } else {
      assert Seen(first, polls, 0) == Ok(first);

    }
  }

  /** The wait loop: `refreshed` is the number of `operations.get` calls made. */
  method AwaitOperation(first: Operation, polls: seq<Result<Operation>>) returns (w: Waited, refreshed: nat)
    ensures w == Await(first, polls)
    ensures refreshed <= |polls|
    ensures forall j :: 0 <= j < refreshed ==> Pending(Seen(first, polls, j))
    ensures w.Finished? ==> Seen(first, polls, refreshed) == Ok(w.op)
  {
    var op := first;
    var i := 0;
    while !op.done && i < |polls|
      invariant 0 <= i <= |polls|
      invariant Seen(first, polls, i) == Ok(op)
      invariant forall j :: 0 <= j < i ==> Pending(Seen(first, polls, j))
      invariant Await(first, polls) == Await(op, polls[i..])
    {
      assert polls[i..][1..] == polls[i + 1..];
      match polls[i]
      case Raised(e) =>
        return PollRaised(e), i + 1;
      case Ok(next) =>
        op := next;
      i := i + 1;
    }
    refreshed := i;
    if op.done {
      w := Finished(op);
    } else {
      w := NotDone;
    }
  }

  /** What one generation gives for its trace. */
  function Generation(g: GenerationTrace): Generated
  {
    match g.start
    case Raised(e) => GenerationRaised(e)
    case Ok(op) =>
      match Await(op, g.polls)
      case PollRaised(e) => GenerationRaised(e)
      case NotDone => StillGenerating
      case Finished(last) =>
        match FileReference(last)
        case Raised(e) => GenerationRaised(e)
        case Ok(name) => FileRef(name)
  }

  /** A reference comes only from an operation that reported done, and it is the name of its
      first generated video. */
  lemma GenerationOnlyWhenDone(g: GenerationTrace, name: string)
    requires Generation(g) == FileRef(name)
    ensures g.start.Ok?
    ensures exists k :: 0 <= k <= |g.polls| && Seen(g.start.value, g.polls, k).Ok? &&
                        Seen(g.start.value, g.polls, k).value.done &&
                        FileReference(Seen(g.start.value, g.polls, k).value) == Ok(name)
  {
    var last := Await(g.start.value, g.polls).op;
    AwaitFindsFirstDone(g.start.value, g.polls, last);
  }

  /** `vid_generation(prompt)`. */
  method VidGenerationOf(prompt: string, service: string -> GenerationTrace) returns (g: Generated)
    ensures g == Generation(service(prompt))
  {
    var trace := service(prompt);
    match trace.start
    case Raised(e) =>
      g := GenerationRaised(e);
    case Ok(op) =>
      var w, refreshed := AwaitOperation(op, trace.polls);
      match w
      case PollRaised(e) =>
        g := GenerationRaised(e);
      case NotDone =>
        g := StillGenerating;
      case Finished(last) =>
        match FileReference(last)
        case Raised(e) =>
          g := GenerationRaised(e);
        case Ok(name) =>
          g := FileRef(name);
  }

  /** `batch_vid_generation(prompts)`: the prompts in order, one at a time. With references for
      all, element i is the reference `vid_generation(prompts[i])` gives; otherwise the batch
      stops at the first prompt without one. */
  method BatchVidGeneration(prompts: seq<string>, service: string -> GenerationTrace) returns (b: Batch)
    ensures b.Refs? ==> |b.refs| == |prompts|
    ensures b.Refs? ==> forall i :: 0 <= i < |prompts| ==> Generation(service(prompts[i])) == FileRef(b.refs[i])
    ensures b.Stopped? ==> b.at < |prompts| && b.reason == Generation(service(prompts[b.at]))
    ensures b.Stopped? ==> !b.reason.FileRef? && forall i :: 0 <= i < b.at ==> Generation(service(prompts[i])).FileRef?
    ensures (forall i :: 0 <= i < |prompts| ==> Generation(service(prompts[i])).FileRef?) <==> b.Refs?
    ensures prompts == [] ==> b == Refs([])
  {
    var refs: seq<string> := [];
    for i := 0 to |prompts|
      invariant |refs| == i
      invariant forall j :: 0 <= j < i ==> Generation(service(prompts[j])) == FileRef(refs[j])
    {
      var g := VidGenerationOf(prompts[i], service);
      if !g.FileRef? {
        return Stopped(i, g);
      }
      refs := refs + [g.name];
    }
    b := Refs(refs);
  }
}
