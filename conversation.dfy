/**
  The conversation log held in the session state (main.py lines 19-20, 46-61,
  93-97 and 117): a list of (role, message) pairs that grows only by
  appending You/Bot pairs, its text export, and the latest-first order in which
  the chat page reads it.
*/
module Conversation {
  import opened Wrappers
  import TextGeneration

  /** One line of the log: the speaker's label and the message. */
  type Entry = (string, string)

  const You: string := "You"
  const Bot: string := "Bot"

  /** The label the log has at position `i` when it is made of You/Bot pairs. */
  function RoleAt(i: nat): string {
    if i % 2 == 0 then You else Bot
  }

  /** Even length, and every entry labelled You, Bot, You, Bot, ... */
  predicate Alternating(h: seq<Entry>) {
    |h| % 2 == 0 && forall i :: 0 <= i < |h| ==> h[i].0 == RoleAt(i)
  }

  /** Appending one You/Bot pair keeps the log alternating, and only an alternating log stays so. */
  lemma AppendPairKeepsAlternating(h: seq<Entry>, question: string, answer: string)
    ensures Alternating(h + [(You, question), (Bot, answer)]) <==> Alternating(h)
  {
    var h' := h + [(You, question), (Bot, answer)];
    if Alternating(h') {
      forall i | 0 <= i < |h|
        ensures h[i].0 == RoleAt(i)
      {
        assert h'[i] == h[i];
      }
    }
    if Alternating(h) {
      assert RoleAt(|h|) == You && RoleAt(|h| + 1) == Bot;
      forall i | 0 <= i < |h'|
        ensures h'[i].0 == RoleAt(i)
      {
        if i >= |h| {
          assert i == |h| || i == |h| + 1;
        }
      }
    }
  }

  /** The session state of one browser session. */
  class Session {
    var chatHistory: seq<Entry>
    var inputText: string

    /** `setdefault` on a fresh session: an empty log and an empty input box. */
    constructor ()
      ensures chatHistory == [] && inputText == ""
      ensures Alternating(chatHistory)
    {
      chatHistory := [];
      inputText := "";
    }

    /**
      `submit_text`: with an empty input box nothing happens and nothing is
      returned; otherwise the question and the generated reply are appended as
      one You/Bot pair, the input box is cleared and the reply returned.
      `outcomes` stands for the remote model's answers to this question.
    */
    method SubmitText(outcomes: seq<TextGeneration.Attempt>) returns (reply: Option<string>)
      requires TextGeneration.MaxAttempts <= |outcomes|
      modifies this
      ensures old(inputText) == "" ==> chatHistory == old(chatHistory) && inputText == old(inputText) && reply == None
      ensures old(inputText) != "" ==>
        && reply == Some(TextGeneration.Respond(outcomes).text)
        && chatHistory == old(chatHistory) + [(You, old(inputText)), (Bot, reply.value)]
        && inputText == ""
      ensures old(Alternating(chatHistory)) ==> Alternating(chatHistory)
    {
      var userInput := inputText;
      if userInput == "" {
        return None;
      }
      chatHistory := chatHistory + [(You, userInput)];
      var r := TextGeneration.GetTextResponse(outcomes);
      chatHistory := chatHistory + [(Bot, r.text)];
      inputText := "";
      AppendPairKeepsAlternating(old(chatHistory), userInput, r.text);
      return Some(r.text);
    }

    /** The image-analysis button: the file name and the model's description become one You/Bot pair. */
    method AddImageAnalysis(fileName: string, description: string)
      modifies this
      ensures chatHistory == old(chatHistory) + [(You, fileName), (Bot, description)]
      ensures inputText == old(inputText)
      ensures old(Alternating(chatHistory)) ==> Alternating(chatHistory)
    {
      chatHistory := chatHistory + [(You, fileName), (Bot, description)];
      AppendPairKeepsAlternating(old(chatHistory), fileName, description);
    }
  }

  /** The export line of one entry, `f"{r}: {m}"`. */
  function Line(e: Entry): string {
    e.0 + ": " + e.1
  }

  /** Python's `"\n".join(lines)`. */
  function JoinLines(lines: seq<string>): string {
    if |lines| == 0 then ""
    else if |lines| == 1 then lines[0]
    else lines[0] + "\n" + JoinLines(lines[1..])
  }

  /** Python's `s.split("\n")`: always at least one piece, none holding a newline. */
  function SplitLines(s: string): (pieces: seq<string>)
    ensures |pieces| >= 1
    ensures forall k :: 0 <= k < |pieces| ==> '\n' !in pieces[k]
  {
    if |s| == 0 then [""]
    else if s[0] == '\n' then [""] + SplitLines(s[1..])
    else
      var rest := SplitLines(s[1..]);
      [[s[0]] + rest[0]] + rest[1..]
  }

  /** `download_chat_history`: the export lines of the log in order, joined by newlines. */
  function ExportText(history: seq<Entry>): (text: string)
    ensures text == "" <==> history == []
  {
    var lines := seq(|history|, i requires 0 <= i < |history| => Line(history[i]));
    assert |lines| > 0 ==> |lines[0]| >= 2;
    JoinLines(lines)
  }

  /** Exporting a log extended by one entry adds one line at the end. */
  lemma {:induction false} ExportAppend(history: seq<Entry>, e: Entry)
    ensures ExportText(history + [e]) == if history == [] then Line(e) else ExportText(history) + "\n" + Line(e)
  {
    var lines := seq(|history|, i requires 0 <= i < |history| => Line(history[i]));
    var lines' := seq(|history| + 1, i requires 0 <= i < |history| + 1 => Line((history + [e])[i]));
    assert lines' == lines + [Line(e)];
    JoinAppend(lines, Line(e));
  }

  lemma {:induction false} JoinAppend(lines: seq<string>, last: string)
    ensures JoinLines(lines + [last]) == if lines == [] then last else JoinLines(lines) + "\n" + last
  {
    if |lines| > 1 {
      assert (lines + [last])[1..] == lines[1..] + [last];
      JoinAppend(lines[1..], last);
    } else if |lines| == 1 {
      assert (lines + [last])[1..] == [last];
    }
  }

  /** Splitting undoes joining, when no piece holds a newline. */
  lemma {:induction false} SplitJoin(lines: seq<string>)
    requires |lines| >= 1
    requires forall k :: 0 <= k < |lines| ==> '\n' !in lines[k]
    ensures SplitLines(JoinLines(lines)) == lines
  {
    if |lines| == 1 {
      SplitSingle(lines[0]);
    } else {
      SplitJoin(lines[1..]);
      SplitAfterNewline(lines[0], JoinLines(lines[1..]));
    }
  }

  lemma {:induction false} SplitSingle(s: string)
    requires '\n' !in s
    ensures SplitLines(s) == [s]
    decreases |s|
  {
    if |s| > 0 {
      SplitSingle(s[1..]);
      assert [s[0]] + s[1..] == s;
    }
  }

  lemma {:induction false} SplitAfterNewline(a: string, b: string)
    requires '\n' !in a
    ensures SplitLines(a + "\n" + b) == [a] + SplitLines(b)
    decreases |a|
  {
    if |a| == 0 {
      assert a + "\n" + b == "\n" + b;
      assert ("\n" + b)[1..] == b;
    } else {
      assert (a + "\n" + b)[1..] == a[1..] + "\n" + b;
      SplitAfterNewline(a[1..], b);
      assert [a[0]] + a[1..] == a;
    }
  }

  /**
    The export has one line per entry, in order: when no label or message
    holds a newline, splitting the export at newlines gives back each entry's
    `role: message` line.
  */
  lemma ExportOneLinePerEntry(history: seq<Entry>)
    requires history != []
    requires forall i :: 0 <= i < |history| ==> '\n' !in history[i].0 && '\n' !in history[i].1
    ensures |SplitLines(ExportText(history))| == |history|
    ensures forall i :: 0 <= i < |history| ==> SplitLines(ExportText(history))[i] == Line(history[i])
  {
    var lines := seq(|history|, i requires 0 <= i < |history| => Line(history[i]));
    forall k | 0 <= k < |lines|
      ensures '\n' !in lines[k]
    {
      assert lines[k] == history[k].0 + ": " + history[k].1;
    }
    SplitJoin(lines);
  }

  /** The two-entry export written out: `"You: hi\nBot: hello"`. */
  lemma ExportTwoEntries()
    ensures ExportText([(You, "hi"), (Bot, "hello")]) == "You: hi\nBot: hello"
  {
    ExportAppend([], (You, "hi"));
    ExportAppend([(You, "hi")], (Bot, "hello"));
    assert [(You, "hi")] + [(Bot, "hello")] == [(You, "hi"), (Bot, "hello")];
  }

  /** Python's `range(start, stop, step)` for a negative step. */
  function RangeDown(start: int, stop: int, step: int): (r: seq<int>)
    requires step < 0
    decreases start - stop
  {
    if start <= stop then [] else [start] + RangeDown(start + step, stop, step)
  }

  /** The first index of each pair `render_chat` shows: `range(len(history)-2, -1, -2)`. */
  function RenderOrder(n: nat): seq<int> {
    RangeDown(n - 2, -1, -2)
  }

  /**
    The render loop's indices: `n / 2` of them, the `k`-th being `n - 2 - 2k`;
    so each visited `i` has `0 <= i` and `i + 1 < n`, and the latest pair comes first.
  */
  lemma {:induction false} RenderOrderInBounds(n: nat)
    ensures |RenderOrder(n)| == n / 2
    ensures forall k :: 0 <= k < |RenderOrder(n)| ==> RenderOrder(n)[k] == n - 2 - 2 * k
    ensures forall k :: 0 <= k < |RenderOrder(n)| ==> 0 <= RenderOrder(n)[k] && RenderOrder(n)[k] + 1 < n
  {
    if n >= 2 {
      RenderOrderInBounds(n - 2);
      assert RenderOrder(n) == [n - 2] + RenderOrder(n - 2);
    }
  }

  /**
    `render_chat`'s loop: the pairs `(history[i], history[i+1])` it displays,
    latest first.
  */
  method RenderChat(history: seq<Entry>) returns (shown: seq<(Entry, Entry)>)
    ensures |shown| == |history| / 2
    ensures forall k :: 0 <= k < |shown| ==>
      shown[k] == (history[|history| - 2 - 2 * k], history[|history| - 1 - 2 * k])
    ensures |shown| == |RenderOrder(|history|)|
    ensures forall k :: 0 <= k < |shown| ==>
      0 <= RenderOrder(|history|)[k] < |history| - 1 &&
      shown[k] == (history[RenderOrder(|history|)[k]], history[RenderOrder(|history|)[k] + 1])
  {
    RenderOrderInBounds(|history|);
    shown := [];
    var i := |history| - 2;
    while i > -1
      invariant -2 <= i <= |history| - 2
      invariant (|history| - 2 - i) % 2 == 0
      invariant |shown| == (|history| - 2 - i) / 2
      invariant forall k :: 0 <= k < |shown| ==>
        shown[k] == (history[|history| - 2 - 2 * k], history[|history| - 1 - 2 * k])
    {
      shown := shown + [(history[i], history[i + 1])];
      i := i - 2;
    }
  }

  /** On an alternating log every displayed pair is a You question and its Bot answer. */
  lemma RenderShowsQuestionThenAnswer(history: seq<Entry>, k: nat)
    requires Alternating(history) && k < |history| / 2
    ensures history[|history| - 2 - 2 * k].0 == You && history[|history| - 1 - 2 * k].0 == Bot
  {
    var i := |history| - 2 - 2 * k;
    assert i % 2 == 0;
  }
}
