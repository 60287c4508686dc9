/** The wait for an uploaded file to leave the PROCESSING state. It is found in
    manager/tools/summ_down.py (`analyze_video`) and manager/tools/testing.py
    (`upload_bytes_to_gemini`). The loop re-reads the file's state with `genai.get_file` for as
    long as that state is PROCESSING.

    The service is a trace: the state the upload returned, then what each refresh returned. A
    refresh may raise. The source has no deadline. When the trace runs out while the file is
    still PROCESSING, the source would still be waiting, and the model says `StillProcessing`. */
module GeminiPolling {
  import opened Base

  /** `video_file.state.name` */
  datatype FileState = Processing | Active | Failed | Unspecified

  /** A state the wait can stop on. */
  type SettledState = s: FileState | s != Processing witness Active

  /** How the wait ends. */
  datatype Wait = Settled(state: SettledState) | RefreshRaised(error: string) | StillProcessing

  /** What the loop has seen after `j` refreshes: the upload's state when `j` is 0, else the
      `j`-th refresh. */
  function Seen(first: FileState, refreshes: seq<Result<FileState>>, j: nat): Result<FileState>
    requires j <= |refreshes|
  {
    if j == 0 then Ok(first) else refreshes[j - 1]
  }

  /** How the wait ends: at the first observation that is not PROCESSING. */
  function Settle(first: FileState, refreshes: seq<Result<FileState>>): (w: Wait)
    decreases |refreshes|
  {
    if first != Processing then Settled(first)
    else if refreshes == [] then StillProcessing
    else match refreshes[0]
      case Raised(e) => RefreshRaised(e)
      case Ok(s) => Settle(s, refreshes[1..])
  }

  /** The poll loop itself. `refreshed` is the number of `genai.get_file` calls it made. The
      result is the first observation that is not PROCESSING, after which nothing more is read. */
  method AwaitProcessing(first: FileState, refreshes: seq<Result<FileState>>)
    returns (wait: Wait, refreshed: nat)
    ensures wait == Settle(first, refreshes)
    ensures refreshed <= |refreshes|
    ensures forall j :: 0 <= j < refreshed ==> Seen(first, refreshes, j) == Ok(Processing)
    ensures wait.Settled? ==> Seen(first, refreshes, refreshed) == Ok(wait.state)
    ensures wait.RefreshRaised? ==> Seen(first, refreshes, refreshed) == Raised(wait.error)
    ensures wait.StillProcessing? ==>
      refreshed == |refreshes| && Seen(first, refreshes, refreshed) == Ok(Processing)
  {
    var current := first;
    var i := 0;
    while current == Processing && i < |refreshes|
      invariant 0 <= i <= |refreshes|
      invariant Seen(first, refreshes, i) == Ok(current)
      invariant forall j :: 0 <= j < i ==> Seen(first, refreshes, j) == Ok(Processing)
      invariant Settle(first, refreshes) == Settle(current, refreshes[i..])
    {
      assert refreshes[i..][1..] == refreshes[i + 1..];
      match refreshes[i]
      case Raised(e) =>
        return RefreshRaised(e), i + 1;
      case Ok(s) =>
        current := s;
      i := i + 1;
    }
    refreshed := i;
    if current == Processing {
      wait := StillProcessing;
    } else {
      wait := Settled(current);
    }
  }

  /** One file's life on the service, as `genai` reports it: the upload (which may raise), the
      refreshes, the generated text or the error raised while generating it, and the deletion. */
  datatype GeminiSession = GeminiSession(
    upload: Result<FileState>,
    refreshes: seq<Result<FileState>>,
    response: Result<string>,
    deletion: Outcome)
  {
    /** The session reaches a verdict: the upload raises, or the wait ends. */
    predicate Settles()
    {
      upload.Ok? ==> !Settle(upload.value, refreshes).StillProcessing?
    }
  }
}
