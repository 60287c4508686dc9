/** The concatenation job of manager/tools/combine_video.py (`combine_videos`): one Transcoder
    input per link, one edit atom per input in link order, a fixed H.264/AAC MP4 output, and a
    poll loop on the job's state.

    The Transcoder service is an oracle: `createJob` answers the submitted job with its name or
    raises, and the poll loop reads a finite trace of what `get_job` returned. The source polls
    with no deadline; a trace that runs out with the job still in progress means the source
    would still be polling. */
module CombineVideo {
  import opened Base
  import opened Text

  /** `video.Input(uri=...)` */
  datatype Input = Input(uri: string)

  /** `video.EditAtom(key=..., inputs=[...])` */
  datatype EditAtom = EditAtom(key: string, inputs: seq<string>)

  /** `video.ElementaryStream` holding a video or an audio stream. */
  datatype ElementaryStream = VideoStream(key: string, codec: string) | AudioStream(key: string, codec: string)

  /** `video.MuxStream` */
  datatype MuxStream = MuxStream(key: string, container: string, elementaryStreams: seq<string>)

  /** `video.JobConfig` */
  datatype JobConfig = JobConfig(
    inputs: map<string, Input>,
    editList: seq<EditAtom>,
    elementaryStreams: seq<ElementaryStream>,
    muxStreams: seq<MuxStream>)

  /** `video.Job` */
  datatype Job = Job(parent: string, outputUri: string, config: JobConfig)

  /** `video.Job.ProcessingState` */
  datatype ProcessingState = Unspecified | Pending | Running | Succeeded | Failed

  /** How `combine_videos` ends. */
  datatype Combined =
    | Combined(path: string)      // the job succeeded: the GCS path of the result
    | JobFailed(error: string)    // the RuntimeError raised on FAILED
    | CallRaised(error: string)   // `create_job` or `get_job` raised
    | StillPolling                // the trace ran out while the job was in progress

  const OutputFile: string := "final_combined.mp4"
  const DefaultLocation: string := "us-central1"
  const JobFailedMessage: string := "❌ Transcoding job failed."

  /** `f"input{i}"` */
  function InputKey(i: nat): string
  {
    "input" + NatToString(i)
  }

  /** `f"atom{i}"` */
  function AtomKey(i: nat): string
  {
    "atom" + NatToString(i)
  }

  /** Different positions get different input keys, so no link overwrites another. */
  lemma InputKeysDistinct(i: nat, j: nat)
    requires i != j
    ensures InputKey(i) != InputKey(j)
  {
    if InputKey(i) == InputKey(j) {
      assert NatToString(i) == InputKey(i)[5..];
      assert NatToString(j) == InputKey(j)[5..];
      NatToStringInjective(i, j);
    }
  }

  /** `f"projects/{project_id}/locations/{location}"` */
  function Parent(projectId: string, location: string): string
  {
    "projects/" + projectId + "/locations/" + location
  }

  /** `f"gs://{bucket_name}/{user_id}/"` */
  function OutputUri(bucket: string, userId: string): string
  {
    "gs://" + bucket + "/" + userId + "/"
  }

  /** The fixed streams of the job: H.264 video and AAC audio, muxed into one MP4. */
  const Streams: seq<ElementaryStream> :=
    [VideoStream("video_stream", "h264"), AudioStream("audio_stream", "aac")]
  const Mux: seq<MuxStream> := [MuxStream("combined", "mp4", ["video_stream", "audio_stream"])]

  /** The inputs after the first `n` links: link i under "input{i}". */
  ghost predicate InputsFor(links: seq<string>, n: nat, inputs: map<string, Input>)
    requires n <= |links|
  {
    && |inputs| == n
    && inputs.Keys == (set i | 0 <= i < n :: InputKey(i))
    && (forall i :: 0 <= i < n ==> inputs[InputKey(i)] == Input(links[i]))
  }

  /** The edit list after the first `n` links: atom i is "atom{i}" and uses input i alone. */
  ghost predicate EditListFor(n: nat, editList: seq<EditAtom>)
  {
    |editList| == n && forall i :: 0 <= i < n ==> editList[i] == EditAtom(AtomKey(i), [InputKey(i)])
  }

  /** The job configuration built for `links`: input i is link i under "input{i}", atom i is
      "atom{i}" and uses input i alone. */
  ghost predicate ConfigFor(links: seq<string>, c: JobConfig)
  {
    && InputsFor(links, |links|, c.inputs)
    && |c.editList| == |links|
    && EditListFor(|links|, c.editList)
    && c.elementaryStreams == Streams
    && c.muxStreams == Mux
  }

  /** Adding the next link under a fresh key. */
  lemma InputsStep(links: seq<string>, n: nat, inputs: map<string, Input>)
    requires n < |links| && InputsFor(links, n, inputs)
    ensures InputsFor(links, n + 1, inputs[InputKey(n) := Input(links[n])])
  {
    InputsStepSize(links, n, inputs);
    InputsStepValues(links, n, inputs);
  }

  /** The step adds one key, the next one. */
  lemma InputsStepSize(links: seq<string>, n: nat, inputs: map<string, Input>)
    requires n < |links| && InputsFor(links, n, inputs)
    ensures |inputs[InputKey(n) := Input(links[n])]| == n + 1
    ensures inputs[InputKey(n) := Input(links[n])].Keys == (set i | 0 <= i < n + 1 :: InputKey(i))
  {
    InputKeyFresh(links, n, inputs);
    KeysUpTo(n);
  }

  /** The step keeps the earlier links and adds the next one. */
  lemma InputsStepValues(links: seq<string>, n: nat, inputs: map<string, Input>)
    requires n < |links| && InputsFor(links, n, inputs)
    ensures forall i :: 0 <= i < n + 1 ==> InputKey(i) in inputs[InputKey(n) := Input(links[n])]
    ensures forall i :: 0 <= i < n + 1 ==> inputs[InputKey(n) := Input(links[n])][InputKey(i)] == Input(links[i])
  {
    forall i | 0 <= i < n
      ensures InputKey(i) != InputKey(n)
    {
      InputKeysDistinct(i, n);
    }
  }

  /** The key of the next link is not yet taken. */
  lemma InputKeyFresh(links: seq<string>, n: nat, inputs: map<string, Input>)
    requires n < |links| && InputsFor(links, n, inputs)
    ensures InputKey(n) !in inputs
  {
    forall j | 0 <= j < n
      ensures InputKey(j) != InputKey(n)
    {
      InputKeysDistinct(j, n);
    }
  }

  /** The keys of the first `n + 1` links are those of the first `n` and one more. */
  lemma KeysUpTo(n: nat)
    ensures (set j | 0 <= j < n + 1 :: InputKey(j)) == (set j | 0 <= j < n :: InputKey(j)) + {InputKey(n)}
  {
  }

  /** The loop of `combine_videos` that fills `inputs` and `edit_list`, and the config built
      from them. */
  method BuildJobConfig(links: seq<string>) returns (config: JobConfig)
    ensures ConfigFor(links, config)
  {
    var inputs: map<string, Input> := map[];
    var editList: seq<EditAtom> := [];
    for i := 0 to |links|
      invariant InputsFor(links, i, inputs)
      invariant EditListFor(i, editList)
    {
      var key := InputKey(i);
      InputsStep(links, i, inputs);
      inputs := inputs[key := Input(links[i])];
      editList := editList + [EditAtom(AtomKey(i), [key])];
    }
    config := JobConfig(inputs, editList, Streams, Mux);
  }

  /** Following the edit list through its input keys gives back the links in their order:
      every atom names an input that exists, and the result keeps the order of the links. */
  lemma {:induction false} EditListFollowsLinks(links: seq<string>, c: JobConfig)
    requires ConfigFor(links, c)
    ensures forall i :: 0 <= i < |c.editList| ==> |c.editList[i].inputs| == 1 && c.editList[i].inputs[0] in c.inputs
    ensures seq(|c.editList|, i requires 0 <= i < |c.editList| && |c.editList[i].inputs| == 1
                                          && c.editList[i].inputs[0] in c.inputs
                  => c.inputs[c.editList[i].inputs[0]].uri) == links
  {
    forall i | 0 <= i < |c.editList|
      ensures |c.editList[i].inputs| == 1 && c.editList[i].inputs[0] in c.inputs
    {
      assert c.editList[i].inputs[0] == InputKey(i);
    }
  }

  /** How the poll loop ends on a trace of `get_job` answers: at the first SUCCEEDED or
      FAILED, or the first call that raises. */
  function JobOutcome(polls: seq<Result<ProcessingState>>, path: string): (r: Combined)
  {
    if polls == [] then StillPolling
    else match polls[0]
      case Raised(e) => CallRaised(e)
      case Ok(s) =>
        if s == Succeeded then Combined(path)
        else if s == Failed then JobFailed(JobFailedMessage)
        else JobOutcome(polls[1..], path)
  }

  /** A poll that asks again: the call answered, with a state that is neither SUCCEEDED nor
      FAILED. */
  predicate InProgress(poll: Result<ProcessingState>)
  {
    poll.Ok? && poll.value != Succeeded && poll.value != Failed
  }

  /** The loop returns the path exactly when some poll reports SUCCEEDED and every poll before
      it reported a state still in progress. */
  lemma {:induction false} JobOutcomeSucceeds(polls: seq<Result<ProcessingState>>, path: string)
    ensures JobOutcome(polls, path) == Combined(path) <==>
      exists k :: 0 <= k < |polls| && polls[k] == Ok(Succeeded) && forall j :: 0 <= j < k ==> InProgress(polls[j])
  {
    if polls != [] && InProgress(polls[0]) {
      JobOutcomeSucceeds(polls[1..], path);
      if JobOutcome(polls, path) == Combined(path) {
        var k :| 0 <= k < |polls[1..]| && polls[1..][k] == Ok(Succeeded)
                 && forall j :: 0 <= j < k ==> InProgress(polls[1..][j]);
        assert polls[k + 1] == Ok(Succeeded);
        assert forall j :: 0 <= j < k + 1 ==> InProgress(polls[j]) by {
          forall j | 0 <= j < k + 1 ensures InProgress(polls[j]) {
            if j > 0 {
              assert polls[j] == polls[1..][j - 1];
            }
          }
        }
      }
      if exists k :: 0 <= k < |polls| && polls[k] == Ok(Succeeded) && forall j :: 0 <= j < k ==> InProgress(polls[j]) {
        var k :| 0 <= k < |polls| && polls[k] == Ok(Succeeded) && forall j :: 0 <= j < k ==> InProgress(polls[j]);
        assert k > 0;
        assert polls[1..][k - 1] == Ok(Succeeded);
        assert forall j :: 0 <= j < k - 1 ==> InProgress(polls[1..][j]) by {
          forall j | 0 <= j < k - 1 ensures InProgress(polls[1..][j]) {
            assert polls[1..][j] == polls[j + 1];
          }
        }
      }
    }
  }

  /** The loop raises the job failure exactly when some poll reports FAILED and every poll
      before it reported a state still in progress. */
  lemma {:induction false} JobOutcomeFails(polls: seq<Result<ProcessingState>>, path: string)
    ensures JobOutcome(polls, path).JobFailed? <==>
      exists k :: 0 <= k < |polls| && polls[k] == Ok(Failed) && forall j :: 0 <= j < k ==> InProgress(polls[j])
  {
    if polls != [] && InProgress(polls[0]) {
      JobOutcomeFails(polls[1..], path);
      if JobOutcome(polls, path).JobFailed? {
        var k :| 0 <= k < |polls[1..]| && polls[1..][k] == Ok(Failed)
                 && forall j :: 0 <= j < k ==> InProgress(polls[1..][j]);
        assert polls[k + 1] == Ok(Failed);
        assert forall j :: 0 <= j < k + 1 ==> InProgress(polls[j]) by {
          forall j | 0 <= j < k + 1 ensures InProgress(polls[j]) {
            if j > 0 {
              assert polls[j] == polls[1..][j - 1];
            }
          }
        }
      }
      if exists k :: 0 <= k < |polls| && polls[k] == Ok(Failed) && forall j :: 0 <= j < k ==> InProgress(polls[j]) {
        var k :| 0 <= k < |polls| && polls[k] == Ok(Failed) && forall j :: 0 <= j < k ==> InProgress(polls[j]);
        assert k > 0;
        assert polls[1..][k - 1] == Ok(Failed);
        assert forall j :: 0 <= j < k - 1 ==> InProgress(polls[1..][j]) by {
          forall j | 0 <= j < k - 1 ensures InProgress(polls[1..][j]) {
            assert polls[1..][j] == polls[j + 1];
          }
        }
      }
    }
  }

  /** The `while True` loop on `get_job`: `polled` is the number of calls made; every call
      before the last reported a state still in progress. */
  method PollJob(polls: seq<Result<ProcessingState>>, path: string) returns (outcome: Combined, polled: nat)
    ensures outcome == JobOutcome(polls, path)
    ensures polled <= |polls|
    ensures forall j :: 0 <= j < polled - 1 ==> InProgress(polls[j])
    ensures outcome.StillPolling? ==> polled == |polls| && forall j :: 0 <= j < |polls| ==> InProgress(polls[j])
    ensures !outcome.StillPolling? ==> polled >= 1 && !InProgress(polls[polled - 1])
  {
    var i := 0;
    while i < |polls|
      invariant 0 <= i <= |polls|
      invariant forall j :: 0 <= j < i ==> InProgress(polls[j])
      invariant JobOutcome(polls, path) == JobOutcome(polls[i..], path)
    {
      assert polls[i..][1..] == polls[i + 1..];
      match polls[i]
      case Raised(e) =>
        return CallRaised(e), i + 1;
      case Ok(s) =>
        if s == Succeeded {
          return Combined(path), i + 1;
        } else if s == Failed {
          return JobFailed(JobFailedMessage), i + 1;
        }
      i := i + 1;
    }
    outcome, polled := StillPolling, i;
  }

  /** `combine_videos`: build and submit the job, then poll it. `submitted` is the job handed
      to `create_job`; the region defaults to `DefaultLocation`. */
  method CombineVideos(projectId: string, bucket: string, userId: string, links: seq<string>,
                       createJob: Job -> Result<string>, polls: seq<Result<ProcessingState>>,
                       location: string := DefaultLocation)
    returns (outcome: Combined, submitted: Job)
    ensures submitted.parent == Parent(projectId, location)
    ensures submitted.outputUri == OutputUri(bucket, userId)
    ensures ConfigFor(links, submitted.config)
    ensures createJob(submitted).Raised? ==> outcome == CallRaised(createJob(submitted).error)
    ensures createJob(submitted).Ok? ==>
      outcome == JobOutcome(polls, "gs://" + bucket + "/" + userId + "/" + OutputFile)
  {
    var config := BuildJobConfig(links);
    var job := Job(Parent(projectId, location), OutputUri(bucket, userId), config);
    submitted := job;
    match createJob(job)
    case Raised(e) =>
      outcome := CallRaised(e);
    case Ok(_) =>
      assert OutputUri(bucket, userId) + OutputFile == "gs://" + bucket + "/" + userId + "/" + OutputFile;
      var polled;
      outcome, polled := PollJob(polls, OutputUri(bucket, userId) + OutputFile);
  }
}
