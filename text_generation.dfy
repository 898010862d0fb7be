/**
  Bounded-retry text generation (`get_text_response`, main.py lines 23-38).

  Each call to the remote text model is replaced by an abstract outcome; the
  caller supplies the outcomes of successive calls as a sequence. The reply is
  always a displayable string, and the model also reports how many calls were
  made and how many two-second backoff waits happened.
*/
module TextGeneration {

  /** What one call to `text_model.generate_content(question)` produced. */
  datatype Attempt =
    | Generated(text: string)     // a response whose `text` attribute is present
    | NoText                      // a response without a `text` attribute
    | ServerError                 // InternalServerError raised
    | Deadline                    // DeadlineExceeded raised
    | InvalidValue                // ValueError raised by the library
    | OtherError(description: string)  // any other exception, by its str()

  /** The number of attempts of `for _ in range(3)`. */
  const MaxAttempts: nat := 3

  const SorryMessage: string := "Sorry, I can't answer that right now."
  const ExhaustedMessage: string := "Failed after multiple attempts."
  const ErrorPrefix: string := "Error: "

  /** The string returned, the calls to the remote made, the backoff sleeps done. */
  datatype Reply = Reply(text: string, attempts: nat, waits: nat)

  /** Errors the loop retries after a backoff. */
  predicate Transient(a: Attempt) {
    a.ServerError? || a.Deadline?
  }

  /**
    The string one non-transient outcome turns into. A response whose text is
    empty or missing raises ValueError inside the try, which is caught with the
    library's own ValueError.
  */
  function Settle(a: Attempt): string
    requires !Transient(a)
  {
    match a
    case Generated(t) => if t != "" then t else SorryMessage
    case NoText => SorryMessage
    case InvalidValue => SorryMessage
    case OtherError(d) => ErrorPrefix + d
  }

  /** The reply of the loop entered at iteration `i`, every earlier call having been transient. */
  function RespondFrom(outcomes: seq<Attempt>, i: nat): (r: Reply)
    requires i <= MaxAttempts <= |outcomes|
    ensures i < r.attempts <= MaxAttempts || (i == MaxAttempts && r == Reply(ExhaustedMessage, i, i))
    decreases MaxAttempts - i
  {
    if i == MaxAttempts then Reply(ExhaustedMessage, i, i)
    else if Transient(outcomes[i]) then RespondFrom(outcomes, i + 1)
    else Reply(Settle(outcomes[i]), i + 1, i)
  }

  /** The reply of `get_text_response` when successive remote calls produce `outcomes`. */
  function Respond(outcomes: seq<Attempt>): Reply
    requires MaxAttempts <= |outcomes|
  {
    RespondFrom(outcomes, 0)
  }

  /** The source's loop: up to three calls, early return on anything not transient. */
  method GetTextResponse(outcomes: seq<Attempt>) returns (r: Reply)
    requires MaxAttempts <= |outcomes|
    ensures r == Respond(outcomes)
  {
    var attempts, waits := 0, 0;
    for i := 0 to MaxAttempts
      invariant attempts == i && waits == i
      invariant RespondFrom(outcomes, i) == Respond(outcomes)
    {
      attempts := attempts + 1;
      match outcomes[i]
      case Generated(t) =>
        if t != "" {
          return Reply(t, attempts, waits);
        }
        return Reply(SorryMessage, attempts, waits);
      case NoText =>
        return Reply(SorryMessage, attempts, waits);
      case InvalidValue =>
        return Reply(SorryMessage, attempts, waits);
      case OtherError(d) =>
        return Reply(ErrorPrefix + d, attempts, waits);
      case ServerError =>
        waits := waits + 1;
      case Deadline =>
        waits := waits + 1;
    }
    return Reply(ExhaustedMessage, attempts, waits);
  }

  /**
    Independent description of the reply: if the first `k` calls were transient
    and the call after them (if any of the three remain) was not, then the reply
    is decided by that call alone, after `k + 1` calls and `k` waits; with three
    transient calls the loop gives up after three calls and three waits.
  */
  lemma {:induction false} RespondDecidedByFirstNonTransient(outcomes: seq<Attempt>, k: nat)
    requires MaxAttempts <= |outcomes| && k <= MaxAttempts
    requires forall j :: 0 <= j < k ==> Transient(outcomes[j])
    requires k < MaxAttempts ==> !Transient(outcomes[k])
    ensures k < MaxAttempts ==> Respond(outcomes) == Reply(Settle(outcomes[k]), k + 1, k)
    ensures k == MaxAttempts ==> Respond(outcomes) == Reply(ExhaustedMessage, MaxAttempts, MaxAttempts)
  {
    RespondFromSkipsTransients(outcomes, 0, k);
  }

  /** Helper: from iteration `i`, transient calls up to `k` are skipped. */
  lemma {:induction false} RespondFromSkipsTransients(outcomes: seq<Attempt>, i: nat, k: nat)
    requires MaxAttempts <= |outcomes| && i <= k <= MaxAttempts
    requires forall j :: i <= j < k ==> Transient(outcomes[j])
    ensures RespondFrom(outcomes, i) == RespondFrom(outcomes, k)
    decreases k - i
  {
    if i < k {
      RespondFromSkipsTransients(outcomes, i + 1, k);
    }
  }

  /**
    Every call made before the last one was transient; at most three calls are
    made; sleeps are one fewer than calls except when all three calls were
    transient, where the loop gives up after three sleeps.
  */
  lemma {:induction false} RespondAttemptsBounded(outcomes: seq<Attempt>)
    requires MaxAttempts <= |outcomes|
    ensures 1 <= Respond(outcomes).attempts <= MaxAttempts
    ensures forall j :: 0 <= j < Respond(outcomes).attempts - 1 ==> Transient(outcomes[j])
    ensures || Respond(outcomes).waits == Respond(outcomes).attempts - 1
            || (&& Respond(outcomes) == Reply(ExhaustedMessage, MaxAttempts, MaxAttempts)
                && forall j :: 0 <= j < MaxAttempts ==> Transient(outcomes[j]))
  {
    var k := FirstNonTransient(outcomes, 0);
    RespondDecidedByFirstNonTransient(outcomes, k);
  }

  /** The index of the first non-transient call at or after `i` among the three, or 3. */
  function FirstNonTransient(outcomes: seq<Attempt>, i: nat): (k: nat)
    requires i <= MaxAttempts <= |outcomes|
    ensures i <= k <= MaxAttempts
    ensures forall j :: i <= j < k ==> Transient(outcomes[j])
    ensures k < MaxAttempts ==> !Transient(outcomes[k])
    decreases MaxAttempts - i
  {
    if i == MaxAttempts || !Transient(outcomes[i]) then i
    else FirstNonTransient(outcomes, i + 1)
  }

  /** Only the calls actually made influence the reply: later outcomes are never looked at. */
  lemma RespondIgnoresUnusedOutcomes(outcomes: seq<Attempt>, others: seq<Attempt>)
    requires MaxAttempts <= |outcomes| && MaxAttempts <= |others|
    requires outcomes[..Respond(outcomes).attempts] == others[..Respond(outcomes).attempts]
    ensures Respond(others) == Respond(outcomes)
  {
    var k := FirstNonTransient(outcomes, 0);
    RespondDecidedByFirstNonTransient(outcomes, k);
    var n := Respond(outcomes).attempts;
    forall j | 0 <= j < n
      ensures others[j] == outcomes[j]
    {
      assert outcomes[..n][j] == others[..n][j];
    }
    RespondDecidedByFirstNonTransient(others, k);
  }

  /** A non-empty text on the first call is returned as is, after exactly one call. */
  lemma FirstAttemptSucceeds(outcomes: seq<Attempt>, t: string)
    requires MaxAttempts <= |outcomes| && outcomes[0] == Generated(t) && t != ""
    ensures Respond(outcomes) == Reply(t, 1, 0)
  {
    RespondDecidedByFirstNonTransient(outcomes, 0);
  }

  /** `k < 3` transient errors followed by a non-empty text: that text, after `k + 1` calls and `k` waits. */
  lemma TransientErrorsAreRetried(outcomes: seq<Attempt>, k: nat, t: string)
    requires MaxAttempts <= |outcomes| && k < MaxAttempts
    requires forall j :: 0 <= j < k ==> Transient(outcomes[j])
    requires outcomes[k] == Generated(t) && t != ""
    ensures Respond(outcomes) == Reply(t, k + 1, k)
  {
    RespondDecidedByFirstNonTransient(outcomes, k);
  }

  /** Three transient errors in a row: the fixed give-up message after three calls. */
  lemma ThreeTransientErrorsGiveUp(outcomes: seq<Attempt>)
    requires MaxAttempts <= |outcomes|
    requires Transient(outcomes[0]) && Transient(outcomes[1]) && Transient(outcomes[2])
    ensures Respond(outcomes) == Reply(ExhaustedMessage, 3, 3)
  {
    RespondDecidedByFirstNonTransient(outcomes, MaxAttempts);
  }

  /** An empty or missing text, or a ValueError, ends the loop at once with the fallback message. */
  lemma EmptyResponseFailsFast(outcomes: seq<Attempt>, k: nat)
    requires MaxAttempts <= |outcomes| && k < MaxAttempts
    requires forall j :: 0 <= j < k ==> Transient(outcomes[j])
    requires outcomes[k] == Generated("") || outcomes[k] == NoText || outcomes[k] == InvalidValue
    ensures Respond(outcomes) == Reply(SorryMessage, k + 1, k)
  {
    RespondDecidedByFirstNonTransient(outcomes, k);
  }

  /** Any other error ends the loop at once, its description after "Error: ". */
  lemma OtherErrorFailsFast(outcomes: seq<Attempt>, k: nat, d: string)
    requires MaxAttempts <= |outcomes| && k < MaxAttempts
    requires forall j :: 0 <= j < k ==> Transient(outcomes[j])
    requires outcomes[k] == OtherError(d)
    ensures Respond(outcomes) == Reply(ErrorPrefix + d, k + 1, k)
  {
    RespondDecidedByFirstNonTransient(outcomes, k);
  }
}
