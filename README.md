# Gemini chat front-end: retry, polling and conversation-log model

This project is a Dafny model of the decision logic inside a Streamlit chat
front-end for Google Gemini and AssemblyAI (`main.py`). Each remote call is
replaced by an abstract outcome. The caller supplies those outcomes as a
sequence, so every operation becomes deterministic and can be verified.

- `TextGeneration` (`text_generation.dfy`) models `get_text_response`. It makes
  up to three calls to the text model. Each call yields an `Attempt`: a
  response with a `text` field, a response with no text, `InternalServerError`,
  `DeadlineExceeded`, `ValueError`, or any other exception. The method
  `GetTextResponse` keeps the source's counted loop with early returns. It is
  proved equal to the function `Respond`, which gives the returned string, the
  number of calls made and the number of 2-second backoff sleeps. The lemmas
  state the retry policy in terms of the first non-transient outcome.
- `Transcription` (`transcription.dfy`) models the nested `transcribe` helper.
  Each HTTP call either gives the field the source reads from its JSON body or
  raises. `transcribe` has no `try`, so an exception from `requests` or from
  `.json()` leaves it at once; the model returns `Propagated` for that case.
  The upload URL and job id are optional strings, tested with Python
  truthiness. Polling walks a finite sequence of polls. The source's loop only
  ends at `completed`, `failed` or an exception; if no supplied poll ends it,
  the model returns `StillPolling`.
- `Conversation` (`conversation.dfy`) models the session state. `Session` is a
  class with the `chatHistory` and `inputText` fields, changed in place by
  `SubmitText` (`submit_text`) and `AddImageAnalysis` (the append at line 117).
  `ExportText` models `download_chat_history`. `RenderChat` models the loop in
  `render_chat` that reads the history two entries at a time, latest first.
- `Wrappers` (`wrappers.dfy`) holds `Option` and the truthiness test
  `if not x` applied to optional strings.

Details of main.py that the model keeps:

- The user's messages are labelled `"You"` (main.py:51, main.py:117).
- A missing or empty job id returns `"Transcription failed."` (main.py:131-132),
  the same message as a job whose status is `failed`.
- Giving up after three transient errors makes three 2-second sleeps, because
  main.py:32 also runs after the third failed call
  (`ThreeTransientErrorsGiveUp` states `waits == 3`).
- A response whose `text` is present but empty raises the ValueError of
  main.py:29, so it is handled like a missing text and like a `ValueError`
  raised by the library: all three return the "Sorry, ..." fallback.
- A completed job's `text` field may be absent (main.py:137), so `transcribe`
  can return `None`. `Outcome.Returned` carries an `Option<string>`.

## Model

| member | source | states |
|---|---|---|
| TextGeneration.GetTextResponse | main.py:23-38 | the three-iteration loop with early returns yields exactly the reply, call count and sleep count of `Respond` for the supplied outcomes |
| TextGeneration.RespondDecidedByFirstNonTransient | main.py:24-38 | if the first `k` calls are transient and call `k` is not, the reply is that call's string after `k+1` calls and `k` sleeps; if all three are transient, it is "Failed after multiple attempts." after 3 calls and 3 sleeps |
| TextGeneration.RespondAttemptsBounded | main.py:24-38 | between 1 and 3 calls are made; every call before the last one was transient; sleeps are one fewer than calls, except when all three calls were transient, where the reply is "Failed after multiple attempts." after 3 calls and 3 sleeps |
| TextGeneration.RespondIgnoresUnusedOutcomes | main.py:24-37 | the reply depends only on the outcomes of the calls actually made; no further call is consulted |
| TextGeneration.FirstAttemptSucceeds | main.py:24-28 | a non-empty text on the first call is returned unchanged after one call and no sleep |
| TextGeneration.TransientErrorsAreRetried | main.py:24-32 | `k < 3` server or deadline errors followed by a non-empty text return that text after `k+1` calls and `k` sleeps |
| TextGeneration.ThreeTransientErrorsGiveUp | main.py:30-38 | three transient errors return "Failed after multiple attempts." after exactly 3 calls |
| TextGeneration.EmptyResponseFailsFast | main.py:27-35 | an empty or missing text, or a ValueError, returns "Sorry, I can't answer that right now." immediately, with no retry |
| TextGeneration.OtherErrorFailsFast | main.py:36-37 | any other exception returns "Error: " followed by its description immediately, with no retry |
| Transcription.Transcribe | main.py:123-140 | the upload, submit and polling loop, with exceptions from any call propagating, returns exactly `TranscriptionOutcome` of the service's answers |
| Transcription.UploadFailureSkipsSubmit | main.py:125-128 | an upload that raises propagates its exception, and a missing or empty upload URL returns "Upload failed."; either way with no submission and no poll |
| Transcription.MissingJobSkipsPolling | main.py:129-132 | after a good upload, a submission that raises propagates its exception, and a missing or empty job id returns "Transcription failed."; either way with no poll |
| Transcription.FirstEndingPollDecides | main.py:133-140 | the first poll that ends the loop decides after exactly `k+1` polls: `completed` returns its `text`, `failed` returns "Transcription failed.", an exception propagates with no retry; any other status keeps polling |
| Transcription.StillPollingIffNoEnding | main.py:133-140 | the loop is still waiting after the supplied polls exactly when none of them raised or was `completed` or `failed`, and then it has made every supplied poll |
| Transcription.TwoProcessingThenCompleted | main.py:133-137 | two `processing` polls followed by `completed` return the transcript after exactly three polls |
| Conversation.Session.constructor | main.py:19-20 | a fresh session has an empty history, which alternates, and an empty input |
| Conversation.Session.SubmitText | main.py:46-57 | empty input changes nothing and returns nothing; non-empty input appends exactly `("You", input)` then `("Bot", reply)` with `reply` from `Respond`, clears the input and returns the reply; earlier entries are unchanged and alternation is preserved |
| Conversation.Session.AddImageAnalysis | main.py:117 | appends exactly `("You", file name)` then `("Bot", description)`; the input is unchanged and alternation is preserved |
| Conversation.AppendPairKeepsAlternating | main.py:51-54 | appending a You/Bot pair gives an even-length You, Bot, You, Bot, ... history if and only if the history before was one |
| Conversation.ExportText | main.py:60-61 | the export is the empty string exactly when the history is empty, since every entry's line contains ": " |
| Conversation.ExportAppend | main.py:61 | exporting a history extended by one entry adds one newline and that entry's `role: message` line at the end; a one-entry export is just its line |
| Conversation.ExportOneLinePerEntry | main.py:61 | when no label or message contains a newline, splitting the export at newlines gives back, in order, one `role: message` line per entry |
| Conversation.ExportTwoEntries | main.py:61 | `[("You","hi"),("Bot","hello")]` exports as `"You: hi\nBot: hello"` |
| Conversation.RenderOrderInBounds | main.py:95-97 | `range(len(history)-2, -1, -2)` has `len/2` indices, the `k`-th being `len-2-2k`, each with `0 <= i` and `i+1 < len` |
| Conversation.RenderChat | main.py:93-97 | the loop visits exactly the indices of `range(len(history)-2, -1, -2)` and shows `(history[i], history[i+1])` for each, in bounds: `len/2` pairs, the `k`-th being `(history[len-2-2k], history[len-1-2k])`, so the latest pair comes first |
| Conversation.RenderShowsQuestionThenAnswer | main.py:95-97 | on an alternating history, every displayed pair is a You entry followed by a Bot entry |

## Left out

- Streamlit presentation is not modelled: widgets, sidebar, CSS, the download button, the example-prompt picker and the markdown output of `render_chat`. `RenderChat` returns the pairs it would display.
- The calls to Gemini and AssemblyAI are not modelled. They are replaced by the `Attempt` sequence and the `Service` value. The question text and the audio bytes are therefore not parameters.
- `get_image_response` (main.py:41-43) is not modelled: it is a single library call with no local logic. `AddImageAnalysis` takes its result as a parameter.
- `time.sleep` and `st.warning` are not modelled as effects. Backoff sleeps are only counted, in `Reply.waits`.
- Loading API keys from the environment and decoding images with PIL are I/O and are not modelled.
- The glue at main.py:88-90 and main.py:141-148 is not modelled separately. It puts an example prompt or a transcript into `input_text` and then calls `submit_text`, which `SubmitText` models. A transcript of `None` cannot be stored in the string-typed `inputText`.
- TextGeneration.GetTextResponse: requires at least three outcomes, one for each call the loop may make. This says that the remote answers every call; it does not exclude any input of the source.
- Transcription.Transcribe: models the unbounded `while True` over a finite sequence of polls. Running out of polls gives `StillPolling` instead of waiting forever.
- JSON fields are modelled as optional strings only. A non-string `upload_url`, `id` or `status` is not represented. Exceptions are represented only by their description; their Python class is not.
- The glue after `transcribe` (main.py:141-148) does not catch exceptions either; an exception that `Propagated` stands for ends the whole page run, which is not modelled.
