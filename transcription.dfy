/**
  Transcription by upload, job submission and polling (`transcribe`, main.py
  lines 123-140).

  The three kinds of HTTP call are replaced by what they give back: either the
  field of the JSON body that the source reads, or an exception (a connection
  error from `requests`, or a body `.json()` cannot parse). `transcribe` has no
  `try`, so an exception ends it at once and reaches its caller. The source
  polls forever; here the polls are a finite sequence, and running out of them
  before the loop ends is a result of its own.
*/
module Transcription {
  import opened Wrappers

  const UploadFailed: string := "Upload failed."
  const TranscriptionFailed: string := "Transcription failed."
  const Completed: string := "completed"
  const Failed: string := "failed"

  /** One HTTP call with its `.json()`: the value read from the body, or the exception raised. */
  datatype Call<T> = Answered(body: T) | Raised(error: string)

  /** The fields of one status poll's JSON body that the source reads. */
  datatype PollBody = PollBody(status: Option<string>, text: Option<string>)

  /**
    The remote service's answers to one transcription request: the upload's
    `upload_url`, the submission's `id`, and the successive status polls.
  */
  datatype Service = Service(upload: Call<Option<string>>, submission: Call<Option<string>>, polls: seq<Call<PollBody>>)

  /**
    How `transcribe` ends. `Returned` carries the returned value (the `text` of
    a completed job may be absent, hence an Option); `Propagated` is an
    exception leaving `transcribe`; both say whether the job submission was
    attempted and how many polls were made. `StillPolling` means no supplied
    poll ended the loop, so the source would still be waiting.
  */
  datatype Outcome =
    | Returned(value: Option<string>, submitted: bool, pollCount: nat)
    | Propagated(error: string, submitted: bool, pollCount: nat)
    | StillPolling(pollCount: nat)

  /** The upload gave a URL and the submission gave a job id, so polling starts. */
  predicate Accepted(s: Service) {
    s.upload.Answered? && Truthy(s.upload.body) && s.submission.Answered? && Truthy(s.submission.body)
  }

  /** A poll that leaves the loop: an exception, or status `completed` or `failed`. */
  predicate Ends(c: Call<PollBody>) {
    c.Raised? || c.body.status == Some(Completed) || c.body.status == Some(Failed)
  }

  /** What the polling loop yields when it is at poll `i`. */
  function PollFrom(polls: seq<Call<PollBody>>, i: nat): Outcome
    requires i <= |polls|
    decreases |polls| - i
  {
    if i == |polls| then StillPolling(i)
    else match polls[i]
      case Raised(e) => Propagated(e, true, i + 1)
      case Answered(body) =>
        if body.status == Some(Completed) then Returned(body.text, true, i + 1)
        else if body.status == Some(Failed) then Returned(Some(TranscriptionFailed), true, i + 1)
        else PollFrom(polls, i + 1)
  }

  /** The result of `transcribe` against the service's answers. */
  function TranscriptionOutcome(s: Service): Outcome {
    match s.upload
    case Raised(e) => Propagated(e, false, 0)
    case Answered(url) =>
      if !Truthy(url) then Returned(Some(UploadFailed), false, 0)
      else match s.submission
        case Raised(e) => Propagated(e, true, 0)
        case Answered(id) =>
          if !Truthy(id) then Returned(Some(TranscriptionFailed), true, 0)
          else PollFrom(s.polls, 0)
  }

  /** The source's upload, submit and `while True` polling loop. */
  method Transcribe(s: Service) returns (r: Outcome)
    ensures r == TranscriptionOutcome(s)
  {
    var up := s.upload;
    if up.Raised? {
      return Propagated(up.error, false, 0);
    }
    if !Truthy(up.body) {
      return Returned(Some(UploadFailed), false, 0);
    }
    var tr := s.submission;
    if tr.Raised? {
      return Propagated(tr.error, true, 0);
    }
    if !Truthy(tr.body) {
      return Returned(Some(TranscriptionFailed), true, 0);
    }
    var i := 0;
    while i < |s.polls|
      invariant 0 <= i <= |s.polls|
      invariant PollFrom(s.polls, i) == TranscriptionOutcome(s)
    {
      var stt := s.polls[i];
      if stt.Raised? {
        return Propagated(stt.error, true, i + 1);
      }
      if stt.body.status == Some(Completed) {
        return Returned(stt.body.text, true, i + 1);
      }
      if stt.body.status == Some(Failed) {
        return Returned(Some(TranscriptionFailed), true, i + 1);
      }
      i := i + 1;
    }
    return StillPolling(i);
  }

  /** The index of the first poll at or after `i` that ends the loop, or `|polls|` if none. */
  function FirstEnding(polls: seq<Call<PollBody>>, i: nat): (k: nat)
    requires i <= |polls|
    ensures i <= k <= |polls|
    ensures forall j :: i <= j < k ==> !Ends(polls[j])
    ensures k < |polls| ==> Ends(polls[k])
    decreases |polls| - i
  {
    if i == |polls| || Ends(polls[i]) then i else FirstEnding(polls, i + 1)
  }

  /** Helper: polls from `i` up to `k` that do not end the loop are passed over. */
  lemma {:induction false} PollFromSkipsNonEnding(polls: seq<Call<PollBody>>, i: nat, k: nat)
    requires i <= k <= |polls|
    requires forall j :: i <= j < k ==> !Ends(polls[j])
    ensures PollFrom(polls, i) == PollFrom(polls, k)
    decreases k - i
  {
    if i < k {
      PollFromSkipsNonEnding(polls, i + 1, k);
    }
  }

  /**
    With the upload and the job accepted, the first poll that ends the loop
    decides, after exactly `k + 1` polls: `completed` returns that poll's
    text, `failed` the fixed failure message, and an exception propagates
    without a further poll; every other status keeps polling.
  */
  lemma {:induction false} FirstEndingPollDecides(s: Service, k: nat)
    requires Accepted(s)
    requires k < |s.polls| && Ends(s.polls[k])
    requires forall j :: 0 <= j < k ==> !Ends(s.polls[j])
    ensures s.polls[k].Raised? ==> TranscriptionOutcome(s) == Propagated(s.polls[k].error, true, k + 1)
    ensures s.polls[k].Answered? && s.polls[k].body.status == Some(Completed) ==>
              TranscriptionOutcome(s) == Returned(s.polls[k].body.text, true, k + 1)
    ensures s.polls[k].Answered? && s.polls[k].body.status == Some(Failed) ==>
              TranscriptionOutcome(s) == Returned(Some(TranscriptionFailed), true, k + 1)
  {
    PollFromSkipsNonEnding(s.polls, 0, k);
  }

  /** The source stays in its loop exactly when no supplied poll ends it. */
  lemma {:induction false} StillPollingIffNoEnding(s: Service)
    requires Accepted(s)
    ensures TranscriptionOutcome(s).StillPolling? <==> forall j :: 0 <= j < |s.polls| ==> !Ends(s.polls[j])
    ensures TranscriptionOutcome(s).StillPolling? ==> TranscriptionOutcome(s).pollCount == |s.polls|
  {
    var k := FirstEnding(s.polls, 0);
    PollFromSkipsNonEnding(s.polls, 0, k);
  }

  /**
    The upload decides alone when it does not give a URL: an exception
    propagates, a missing or empty URL returns "Upload failed."; either way
    nothing is submitted and nothing polled.
  */
  lemma UploadFailureSkipsSubmit(s: Service)
    requires !(s.upload.Answered? && Truthy(s.upload.body))
    ensures s.upload.Raised? ==> TranscriptionOutcome(s) == Propagated(s.upload.error, false, 0)
    ensures s.upload.Answered? ==> TranscriptionOutcome(s) == Returned(Some(UploadFailed), false, 0)
  {
  }

  /**
    After a good upload, a submission that gives no job id ends without a
    poll: an exception propagates, a missing or empty id returns
    "Transcription failed.".
  */
  lemma MissingJobSkipsPolling(s: Service)
    requires s.upload.Answered? && Truthy(s.upload.body)
    requires !(s.submission.Answered? && Truthy(s.submission.body))
    ensures s.submission.Raised? ==> TranscriptionOutcome(s) == Propagated(s.submission.error, true, 0)
    ensures s.submission.Answered? ==> TranscriptionOutcome(s) == Returned(Some(TranscriptionFailed), true, 0)
  {
  }

  /** Two `processing` polls then a `completed` one: its text, after exactly three polls. */
  lemma TwoProcessingThenCompleted(url: string, id: string, t: string, rest: seq<Call<PollBody>>)
    requires url != "" && id != ""
    ensures TranscriptionOutcome(Service(Answered(Some(url)), Answered(Some(id)),
              [Answered(PollBody(Some("processing"), None)), Answered(PollBody(Some("processing"), None)),
               Answered(PollBody(Some(Completed), Some(t)))] + rest))
            == Returned(Some(t), true, 3)
  {
    var processing: Call<PollBody> := Answered(PollBody(Some("processing"), None));
    var s := Service(Answered(Some(url)), Answered(Some(id)),
                     [processing, processing, Answered(PollBody(Some(Completed), Some(t)))] + rest);
    assert !Ends(processing);
    FirstEndingPollDecides(s, 2);
  }
}
