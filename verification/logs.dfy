/**
 * The on-screen log: every message the application logs is colour-wrapped
 * by its type, stamped, appended to a bounded queue of the most recent
 * lines, and the queue is rendered into the log text, one line each.
 *
 * The queue is a sequence, oldest entry first.  The clock reading is a
 * parameter; the platform newline is a constant of the display.
 */
module Logs {
  import opened Wrappers

  /** Unity's `LogType`, in declaration order. */
  datatype LogType = Error | Assert | Warning | Log | Exception

  /** The rich-text colour a message of type `t` is shown in. */
  function ColorName(t: LogType): (c: string)
    ensures c == "red" <==> t == Error || t == Exception
    ensures c == "yellow" <==> t == Warning
    ensures c == "white" <==> t == Assert || t == Log
  {
    match t
    case Error => "red"
    case Exception => "red"
    case Warning => "yellow"
    case _ => "white"
  }

  /** The message wrapped in the rich-text colour tag of its type. */
  function Colored(message: string, t: LogType): string
  {
    "<color=" + ColorName(t) + ">" + message + "</color>"
  }

  /** A log line as the display stores it: "[" timestamp "] " and the colour-wrapped message. */
  function LogEntry(timestamp: string, message: string, t: LogType): string
  {
    "[" + timestamp + "] " + Colored(message, t)
  }

  /**
   * An entry keeps its parts apart: the bracketed timestamp and the opening
   * colour tag, then the message verbatim, then the closing tag.
   */
  lemma EntryFields(timestamp: string, message: string, t: LogType)
    ensures var e := LogEntry(timestamp, message, t);
      var open := |timestamp| + 11 + |ColorName(t)|;
      && |e| == open + |message| + 8
      && e[..open] == "[" + timestamp + "] <color=" + ColorName(t) + ">"
      && e[open..open + |message|] == message
      && e[open + |message|..] == "</color>"
  {
    var e := LogEntry(timestamp, message, t);
    var head := "[" + timestamp + "] <color=" + ColorName(t) + ">";
    assert e == head + message + "</color>";
    assert |head| == |timestamp| + 11 + |ColorName(t)|;
    assert (head + message)[..|head|] == head;
  }

  /** The text of the display for queue `lines`: each line followed by `newline`, in queue order. */
  function Render(lines: seq<string>, newline: string): string
  {
    if lines == [] then "" else Render(lines[..|lines| - 1], newline) + lines[|lines| - 1] + newline
  }

  /** Rendering two queues one after the other renders their concatenation. */
  lemma {:induction false} RenderAppend(a: seq<string>, b: seq<string>, newline: string)
    ensures Render(a + b, newline) == Render(a, newline) + Render(b, newline)
  {
    if b != [] {
      var b' := b[..|b| - 1];
      assert (a + b)[..|a + b| - 1] == a + b';
      RenderAppend(a, b', newline);
    } else {
      assert a + b == a;
    }
  }

  /** The oldest line comes first in the text, followed by the rest of the queue. */
  lemma RenderInOrder(lines: seq<string>, newline: string)
    requires lines != []
    ensures Render(lines, newline) == lines[0] + newline + Render(lines[1..], newline)
  {
    assert lines == [lines[0]] + lines[1..];
    RenderAppend([lines[0]], lines[1..], newline);
    assert Render([lines[0]], newline) == Render([], newline) + lines[0] + newline;
  }

  /** The last `n` elements of `q`, all of `q` when it is shorter. */
  function LastN(q: seq<string>, n: nat): (r: seq<string>)
    ensures |r| == if |q| <= n then |q| else n
    ensures r == q[|q| - |r|..]
  {
    if |q| <= n then q else q[|q| - n..]
  }

  /** With room for at least one line, the entry just added is the newest line of the queue. */
  lemma NewestLast(q: seq<string>, entry: string, n: nat)
    requires n >= 1
    ensures LastN(q + [entry], n) != []
    ensures LastN(q + [entry], n)[|LastN(q + [entry], n)| - 1] == entry
  {
  }

  /** Cutting to the last `n` before appending more does not change the last `n` after. */
  lemma SuffixThenLast(a: seq<string>, b: seq<string>, n: nat)
    ensures LastN(LastN(a, n) + b, n) == LastN(a + b, n)
  {
    var t := LastN(a, n);
    var all := a + b;
    assert t + b == all[|all| - |t| - |b|..];
  }

  /** The queue after appending `entries` one at a time to `q`, trimming to `n` lines after each. */
  function Replay(q: seq<string>, entries: seq<string>, n: nat): seq<string>
    decreases |entries|
  {
    if entries == [] then q else Replay(LastN(q + [entries[0]], n), entries[1..], n)
  }

  /**
   * Trimming after every append keeps the queue equal to the last `n`
   * entries of the starting queue followed by everything appended: the
   * display always shows the most recent `n` messages.
   */
  lemma {:induction false} ReplayKeepsLast(q: seq<string>, entries: seq<string>, n: nat)
    requires |q| <= n
    ensures Replay(q, entries, n) == LastN(q + entries, n)
    decreases |entries|
  {
    if entries == [] {
      assert q + entries == q;
    } else {
      var first, rest := entries[0], entries[1..];
      var q' := LastN(q + [first], n);
      assert Replay(q, entries, n) == Replay(q', rest, n);
      assert Replay(q', rest, n) == LastN(q' + rest, n) by {
        ReplayKeepsLast(q', rest, n);
      }
      assert LastN(q' + rest, n) == LastN(q + entries, n) by {
        SuffixThenLast(q + [first], rest, n);
        assert (q + [first]) + rest == q + entries;
      }
    }
  }

  class LogDisplay {
    /** The most lines kept; an inspector field, so any `int`. */
    var maxLines: int
    /** The queued lines, oldest first. */
    var logLines: seq<string>
    /** The text of the display's `Text` component, or None when no component is wired. */
    var logText: Option<string>
    /** The platform's line terminator that `AppendLine` writes. */
    const newline: string

    constructor(logText: Option<string>, newline: string)
      ensures maxLines == 20 && logLines == [] && this.logText == logText && this.newline == newline
    {
      maxLines := 20;
      logLines := [];
      this.logText := logText;
      this.newline := newline;
    }

    /**
     * Shows the queue as the log text, one line each, when a text
     * component is wired; does nothing otherwise.
     */
    method UpdateLogText()
      modifies this`logText
      ensures logText == if old(logText).None? then None else Some(Render(logLines, newline))
    {
      if logText.None? {
        return;
      }
      var sb := "";
      for i := 0 to |logLines|
        invariant sb == Render(logLines[..i], newline)
      {
        assert logLines[..i + 1][..i] == logLines[..i];
        sb := sb + logLines[i] + newline;
      }
      assert logLines[..|logLines|] == logLines;
      logText := Some(sb);
    }

    /**
     * Receives one logged message: wraps it in its type's colour, stamps it
     * with `timestamp`, appends it, drops the oldest lines while there are
     * more than `maxLines`, and redraws.  With a negative `maxLines` the
     * dequeue loop empties the queue and then dequeues from the empty queue,
     * which throws: `completed` is false and the text is not redrawn.
     */
    method HandleLog(logString: string, stackTrace: string, logType: LogType, timestamp: string) returns (completed: bool)
      modifies this`logLines, this`logText
      ensures completed <==> maxLines >= 0
      ensures maxLines >= 0 ==>
        && logLines == LastN(old(logLines) + [LogEntry(timestamp, logString, logType)], maxLines)
        && logText == if old(logText).None? then None else Some(Render(logLines, newline))
      ensures maxLines < 0 ==> logLines == [] && logText == old(logText)
    {
      var coloredText: string;
      match logType {
        case Error =>
          coloredText := "<color=red>" + logString + "</color>";
          assert "<color=" + "red" + ">" == "<color=red>";
        case Exception =>
          coloredText := "<color=red>" + logString + "</color>";
          assert "<color=" + "red" + ">" == "<color=red>";
        case Warning =>
          coloredText := "<color=yellow>" + logString + "</color>";
          assert "<color=" + "yellow" + ">" == "<color=yellow>";
        case _ =>
          coloredText := "<color=white>" + logString + "</color>";
          assert "<color=" + "white" + ">" == "<color=white>";
      }
      assert coloredText == Colored(logString, logType);
      var logEntry := "[" + timestamp + "] " + coloredText;

      logLines := logLines + [logEntry];
      ghost var queued := logLines;
      while |logLines| > maxLines
        invariant logLines == queued[|queued| - |logLines|..]
        invariant |logLines| < |queued| ==> |logLines| >= maxLines
        invariant logText == old(logText)
        decreases |logLines|
      {
        if logLines == [] {
          // `Dequeue` on an empty queue throws InvalidOperationException.
          return false;
        }
        logLines := logLines[1..];
      }
      UpdateLogText();
      return true;
    }

    /** Empties the queue and redraws, leaving an empty text. */
    method ClearLogs()
      modifies this`logLines, this`logText
      ensures logLines == []
      ensures logText == if old(logText).None? then None else Some("")
    {
      logLines := [];
      UpdateLogText();
    }
  }
}
