/** Multi-line message entry: lines are read until one that strips to `/send`,
    and the lines before it are joined with newlines. The terminal is replaced
    by the sequence of lines the user would type, in which a keyboard interrupt
    may appear. */
module InputUtils {
  import opened Text

  /** One call of `input()`: a typed line (without its newline) or a keyboard interrupt. */
  datatype Line = Typed(text: string) | KeyboardInterrupt

  /** What reading a message comes to: the joined text and how many lines were
      consumed (the `/send` line included), `None` after an interrupt, or the
      end-of-file error `input()` raises when the lines run out first. */
  datatype InputResult = Message(text: string, consumed: nat) | Interrupted | EndOfInput

  /** The line that sends the message: `/send` with any surrounding white space. */
  predicate IsSendCommand(line: string) {
    Strip(line) == "/send"
  }

  /** A line at which reading stops. */
  predicate Stops(l: Line) {
    l.KeyboardInterrupt? || IsSendCommand(l.text)
  }

  /** None of the first `k` lines stops the reading. */
  predicate NoStopBefore(lines: seq<Line>, k: nat)
    requires k <= |lines|
  {
    forall i :: 0 <= i < k ==> !Stops(lines[i])
  }

  /** The texts of typed lines, in order. */
  function Texts(lines: seq<Line>): (ts: seq<string>)
    requires forall i :: 0 <= i < |lines| ==> lines[i].Typed?
    ensures |ts| == |lines|
    ensures forall i :: 0 <= i < |lines| ==> ts[i] == lines[i].text
  {
    if |lines| == 0 then [] else [lines[0].text] + Texts(lines[1..])
  }

  /** The loop of `get_user_input`, as the number of lines it consumes: up to and
      including the first `/send` line, or the interrupt, or all of them. */
  datatype Collected = SendAt(consumed: nat) | CollectInterrupted | CollectExhausted

  function Collect(lines: seq<Line>): (r: Collected)
    ensures r.SendAt? ==>
              && 1 <= r.consumed <= |lines|
              && NoStopBefore(lines, r.consumed - 1)
              && lines[r.consumed - 1].Typed? && IsSendCommand(lines[r.consumed - 1].text)
    ensures r.CollectInterrupted? ==>
              exists k :: 0 <= k < |lines| && NoStopBefore(lines, k) && lines[k].KeyboardInterrupt?
    ensures r.CollectExhausted? ==> NoStopBefore(lines, |lines|)
  {
    if |lines| == 0 then CollectExhausted
    else if lines[0].KeyboardInterrupt? then
      assert NoStopBefore(lines, 0);
      CollectInterrupted
    else if IsSendCommand(lines[0].text) then SendAt(1)
    else
      var tail := lines[1..];
      match Collect(tail)
      case SendAt(n) =>
        assert forall i :: 1 <= i < n ==> lines[i] == tail[i - 1];
        SendAt(n + 1)
      case CollectInterrupted =>
        var k :| 0 <= k < |tail| && NoStopBefore(tail, k) && tail[k].KeyboardInterrupt?;
        assert forall i :: 1 <= i < k + 1 ==> lines[i] == tail[i - 1];
        assert NoStopBefore(lines, k + 1);
        CollectInterrupted
      case CollectExhausted =>
        assert forall i :: 1 <= i < |lines| ==> lines[i] == tail[i - 1];
        CollectExhausted
  }

  /** `get_user_input`: the collected lines joined with newlines, `None` on a
      keyboard interrupt, or the end-of-file error. */
  function GetUserInput(lines: seq<Line>): (r: InputResult)
    ensures r.Message? ==>
              && 1 <= r.consumed <= |lines|
              && NoStopBefore(lines, r.consumed - 1)
              && lines[r.consumed - 1].Typed? && IsSendCommand(lines[r.consumed - 1].text)
              && r.text == Join(Texts(lines[..r.consumed - 1]), "\n")
    ensures r.Interrupted? ==>
              exists k :: 0 <= k < |lines| && NoStopBefore(lines, k) && lines[k].KeyboardInterrupt?
    ensures r.EndOfInput? ==> NoStopBefore(lines, |lines|)
  {
    match Collect(lines)
    case SendAt(n) => Message(Join(Texts(lines[..n - 1]), "\n"), n)
    case CollectInterrupted => Interrupted
    case CollectExhausted => EndOfInput
  }

  /** Reading stops at the first stopping line: whatever follows is never consumed,
      so appending more lines changes nothing once a message or an interrupt is read. */
  lemma {:induction false} LaterLinesUnread(lines: seq<Line>, more: seq<Line>)
    requires !Collect(lines).CollectExhausted?
    ensures Collect(lines + more) == Collect(lines)
    decreases |lines|
  {
    assert (lines + more)[0] == lines[0];
    assert (lines + more)[1..] == lines[1..] + more;
    if lines[0].Typed? && !IsSendCommand(lines[0].text) {
      LaterLinesUnread(lines[1..], more);
    }
  }

  /** `/send` as the first line sends the empty message. */
  lemma SendFirst(line: string, rest: seq<Line>)
    requires IsSendCommand(line)
    ensures GetUserInput([Typed(line)] + rest) == Message("", 1)
  {
  }

  /** An interrupt before any `/send` abandons the message. */
  lemma {:induction false} InterruptAbandons(typed: seq<string>, rest: seq<Line>)
    requires forall i :: 0 <= i < |typed| ==> !IsSendCommand(typed[i])
    ensures GetUserInput(TypedLines(typed) + [KeyboardInterrupt] + rest) == Interrupted
    decreases |typed|
  {
    var lines := TypedLines(typed) + [KeyboardInterrupt] + rest;
    if |typed| > 0 {
      assert lines[0] == Typed(typed[0]);
      assert lines[1..] == TypedLines(typed[1..]) + [KeyboardInterrupt] + rest;
      InterruptAbandons(typed[1..], rest);
    }
  }

  /** Lines as typed, none of them an interrupt. */
  function TypedLines(texts: seq<string>): (ls: seq<Line>)
    ensures |ls| == |texts|
    ensures forall i :: 0 <= i < |texts| ==> ls[i] == Typed(texts[i])
  {
    if |texts| == 0 then [] else [Typed(texts[0])] + TypedLines(texts[1..])
  }

  /** Each collected line is kept verbatim: when the message has at least one
      line and none contains a newline (as `input()` guarantees), splitting the
      text on newlines gives back exactly the lines typed before `/send`. */
  lemma LinesKeptVerbatim(lines: seq<Line>)
    requires GetUserInput(lines).Message? && GetUserInput(lines).consumed >= 2
    requires forall i :: 0 <= i < |lines| && lines[i].Typed? ==> '\n' !in lines[i].text
    ensures var r := GetUserInput(lines);
            Split(r.text, '\n') == Texts(lines[..r.consumed - 1])
  {
    var r := GetUserInput(lines);
    var ts := Texts(lines[..r.consumed - 1]);
    assert forall k :: 0 <= k < |ts| ==> ts[k] == lines[k].text;
    SplitJoin(ts, '\n');
  }
}
