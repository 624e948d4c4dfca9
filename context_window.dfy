/**
 * The rolling conversation window kept under the key "context": how the stored transcript is
 * cut down to its last lines before a model call, and how one exchange is appended to it.
 */
module ContextWindow {
  import opened PyText

  /** The handler keeps at most this many transcript lines (five user/AI exchanges). */
  const MaxContextLines: nat := 10

  /** `lines[-n:]` when there are more than `n` lines, `lines` otherwise. */
  function LastLines(lines: seq<string>, n: nat): (r: seq<string>)
    ensures |r| == if |lines| > n then n else |lines|
    ensures r == lines[|lines| - |r|..]
  {
    if |lines| > n then lines[|lines| - n..] else lines
  }

  /**
   * The context handed to the model: an empty stored context stays exactly `""`; any other is
   * stripped, split into lines, cut to its last `MaxContextLines` lines and joined again.
   */
  function TrimContext(context: string): string {
    if context == "" then context
    else Join(LastLines(Split(Strip(context)), MaxContextLines))
  }

  /** The two transcript lines one exchange adds: `f"User: {question}\nAI: {answer}"`. */
  function Exchange(question: string, answer: string): string {
    "User: " + question + "\nAI: " + answer
  }

  /** The transcript written back after an exchange: the trimmed context, a newline, the exchange. */
  function NewContext(trimmed: string, question: string, answer: string): string {
    trimmed + [Newline] + Exchange(question, answer)
  }

  /**
   * The lines of a trimmed non-empty context are exactly the last `min(10, n)` of the `n` lines
   * of the stripped stored context, in their original order.
   */
  lemma TrimKeepsLastLines(context: string)
    requires context != ""
    ensures var lines := Split(Strip(context));
            var kept := if |lines| > MaxContextLines then MaxContextLines else |lines|;
            Split(TrimContext(context)) == lines[|lines| - kept..]
  {
    var lines := Split(Strip(context));
    LastLinesAreLines(lines, MaxContextLines);
    SplitJoin(LastLines(lines, MaxContextLines));
  }

  lemma LastLinesAreLines(lines: seq<string>, n: nat)
    requires Lines(lines)
    ensures Lines(LastLines(lines, n))
  {
    var last := LastLines(lines, n);
    forall i | 0 <= i < |last| ensures NoNewline(last[i]) {
      assert last[i] == lines[|lines| - |last| + i];
    }
  }

  /** Whatever was stored, however many exchanges came before, the model sees at most 10 lines. */
  lemma TrimBound(context: string)
    ensures |Split(TrimContext(context))| <= MaxContextLines
  {
    if context == "" {
      assert Split("") == [""];
    } else {
      TrimKeepsLastLines(context);
    }
  }

  /** A stored context of at most 10 lines reaches the model only stripped, not shortened. */
  lemma TrimShortContext(context: string)
    requires |Split(context)| <= MaxContextLines
    ensures TrimContext(context) == Strip(context)
  {
    if context != "" {
      StripCount(context);
      SplitCount(context);
      SplitCount(Strip(context));
    }
  }

  /**
   * A non-empty context of whitespace alone trims to `""`, yet it is still a non-empty raw
   * context, so the handler takes the with-context prompt for it.
   */
  lemma TrimWhitespaceOnly(context: string)
    requires AllSpace(context)
    ensures TrimContext(context) == ""
  {
    if context != "" {
      StripEmpty(context);
      assert Split("") == [""];
    }
  }

  /** An exchange of single-line texts is exactly the two lines "User: …" and "AI: …". */
  lemma ExchangeLines(question: string, answer: string)
    requires NoNewline(question) && NoNewline(answer)
    ensures Split(Exchange(question, answer)) == ["User: " + question, "AI: " + answer]
  {
    var user, ai := "User: " + question, "AI: " + answer;
    assert Exchange(question, answer) == user + [Newline] + ai by {
      assert "\nAI: " == [Newline] + "AI: ";
    }
    SingleLine("User: ", question);
    SingleLine("AI: ", answer);
    SplitAppend(user, ai);
  }

  /** A prefix followed by a single-line text is one line. */
  lemma SingleLine(prefix: string, text: string)
    requires NoNewline(prefix) && NoNewline(text)
    ensures Split(prefix + text) == [prefix + text]
  {
    var s := prefix + text;
    assert forall k :: 0 <= k < |s| ==> s[k] == if k < |prefix| then prefix[k] else text[k - |prefix|];
    SplitOfLine(s);
  }

  /** Appending an exchange of single-line texts adds exactly its two lines to the transcript. */
  lemma NewContextLines(trimmed: string, question: string, answer: string)
    requires NoNewline(question) && NoNewline(answer)
    ensures Split(NewContext(trimmed, question, answer))
         == Split(trimmed) + ["User: " + question, "AI: " + answer]
  {
    SplitAppend(trimmed, Exchange(question, answer));
    ExchangeLines(question, answer);
  }

  /**
   * The transcript in storage is longer than the window by at most the one exchange just
   * appended: at most 12 lines when question and answer are single lines.
   */
  lemma StoredContextBound(context: string, question: string, answer: string)
    requires NoNewline(question) && NoNewline(answer)
    ensures |Split(NewContext(TrimContext(context), question, answer))| <= MaxContextLines + 2
  {
    TrimBound(context);
    NewContextLines(TrimContext(context), question, answer);
  }

  /**
   * The first exchange of a conversation is stored with a leading newline, and the next
   * request's `strip()` removes it again, leaving the exchange as it was written.
   */
  lemma FirstExchange(question: string, answer: string)
    requires NoNewline(question) && NoNewline(answer)
    requires answer != "" && !IsSpace(answer[|answer| - 1])
    ensures NewContext("", question, answer) == [Newline] + Exchange(question, answer)
    ensures TrimContext(NewContext("", question, answer)) == Exchange(question, answer)
  {
    var body := Exchange(question, answer);
    var stored := NewContext("", question, answer);
    assert stored == "" + [Newline] + body;
    assert Strip(stored) == body by {
      assert body[0] == 'U' && body[|body| - 1] == answer[|answer| - 1];
      assert stored == [Newline] + body;
      StripLeadingSpace(Newline, body);
      StripTrimmed(body);
    }
    assert |Split(stored)| == 3 by {
      ExchangeLines(question, answer);
      SplitAppend("", body);
      assert Split("") == [""];
    }
    TrimShortContext(stored);
  }
}
