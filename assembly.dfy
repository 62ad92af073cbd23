/**
 * How the assistant's reply is assembled from the complete lines of the
 * response: each line is classified, a data payload is handed to the JSON
 * reader, and its delta text is appended to the running reply, until the
 * `[DONE]` sentinel or a payload that does not parse.
 */
module Assembly {
  import opened Optional
  import opened EventStream
  import opened SeqFacts

  /**
   * What `JSON.parse(payload)` followed by `parsed.choices?.[0]?.delta?.content`
   * yields: a thrown error (invalid JSON, or a `null` document whose
   * `choices` cannot be read), or the delta text, absent when any link of
   * the optional chain is missing.
   */
  datatype Parsed = Unparseable | Parsed(content: Option<string>)

  /** The JSON reader, left uninterpreted: any total function of the payload text. */
  type Parser = string -> Parsed

  /**
   * Reading: lines are still being taken. Finished: `[DONE]` was seen.
   * Stalled: a payload did not parse; its line sits at the head of the
   * buffer and is retried with every later read.
   */
  datatype Phase = Reading | Finished | Stalled

  /** The running reply (`assistantContent`) and the phase of the reader. */
  datatype Progress = Progress(content: string, phase: Phase)

  const Start: Progress := Progress("", Reading)

  /** The delta text a successfully parsed payload contributes; `if (content)` skips the empty one. */
  function DeltaText(content: Option<string>): (d: string)
    ensures d != "" <==> content.Some? && content.value != ""
    ensures d != "" ==> d == content.value
  {
    if content.Some? && content.value != "" then content.value else ""
  }

  /** What the reader does with one complete line (its `\n` already cut off). */
  function Step(s: Progress, line: string, parse: Parser): (t: Progress)
    ensures s.phase != Reading ==> t == s
    ensures t.content == s.content || (s.phase == Reading && t.phase == Reading && exists d :: d != "" && t.content == s.content + d)
    ensures t.phase == Finished ==> s.phase != Reading || Classify(StripCR(line)) == DoneSentinel
  {
    if s.phase != Reading then s
    else match Classify(StripCR(line))
      case DoneSentinel => s.(phase := Finished)
      case Data(json) =>
        (match parse(json)
         case Unparseable => s.(phase := Stalled)
         case Parsed(content) =>
           if DeltaText(content) != "" then s.(content := s.content + DeltaText(content)) else s)
      case _ => s
  }

  /** The reader's progress after the lines `ls`, taken in order from `s`. */
  function ReplayFrom(s: Progress, ls: seq<string>, parse: Parser): (t: Progress)
    ensures s.content <= t.content
    ensures s.phase != Reading ==> t == s
    decreases |ls|
  {
    if ls == [] then s
    else Step(ReplayFrom(s, ls[..|ls| - 1], parse), ls[|ls| - 1], parse)
  }

  /** The progress of a fresh reader over the lines `ls`. */
  function Replay(ls: seq<string>, parse: Parser): Progress {
    ReplayFrom(Start, ls, parse)
  }

  /** Taking `a` then `b` is taking `a + b`. */
  lemma {:induction false} ReplayAppend(s: Progress, a: seq<string>, b: seq<string>, parse: Parser)
    ensures ReplayFrom(s, a + b, parse) == ReplayFrom(ReplayFrom(s, a, parse), b, parse)
    decreases |b|
  {
    if b != [] {
      var n := |b| - 1;
      ReplayAppend(s, a, b[..n], parse);
      AllButLastOfAppend(a, b);
    } else {
      AppendEmpty(a);
    }
  }

  /** Taking `a`, then one more line, then `b`. */
  lemma ReplayThroughLine(s: Progress, a: seq<string>, line: string, b: seq<string>, parse: Parser)
    ensures ReplayFrom(s, a + [line] + b, parse) == ReplayFrom(Step(ReplayFrom(s, a, parse), line, parse), b, parse)
    ensures ReplayFrom(s, a + [line], parse) == Step(ReplayFrom(s, a, parse), line, parse)
  {
    ReplayAppend(s, a + [line], b, parse);
    AllButLastOfAppend(a, [line]);
    SingletonAllButLast(line);
  }

  /**
   * Comment lines, blank lines and lines without the `data: ` prefix change
   * nothing: removing one from anywhere in the line sequence gives the same
   * reply and phase.
   */
  lemma IgnoredLineIsInert(s: Progress, a: seq<string>, line: string, b: seq<string>, parse: Parser)
    requires Classify(StripCR(line)) in {Comment, Blank, NotData}
    ensures ReplayFrom(s, a + [line] + b, parse) == ReplayFrom(s, a + b, parse)
  {
    ReplayAppend(s, a + [line], b, parse);
    ReplayAppend(s, a, [line], parse);
    ReplayAppend(s, a, b, parse);
    SingletonAllButLast(line);
  }

  /**
   * Once `[DONE]` is seen, or a payload fails to parse, no later line has
   * any effect: not a later delta, and not a later `[DONE]` either.
   */
  lemma {:induction false} SettledIgnoresRest(s: Progress, a: seq<string>, b: seq<string>, parse: Parser)
    requires ReplayFrom(s, a, parse).phase != Reading
    ensures ReplayFrom(s, a + b, parse) == ReplayFrom(s, a, parse)
  {
    ReplayAppend(s, a, b, parse);
  }

  /**
   * A complete line whose payload fails to parse ends the reply there:
   * whatever follows it, the reply is what it was before that line.
   */
  lemma UnparseableLineStallsForGood(s: Progress, a: seq<string>, line: string, b: seq<string>, parse: Parser)
    requires ReplayFrom(s, a, parse).phase == Reading
    requires Classify(StripCR(line)).Data? && parse(Classify(StripCR(line)).payload) == Unparseable
    ensures ReplayFrom(s, a + [line] + b, parse) == ReplayFrom(s, a, parse).(phase := Stalled)
  {
    ReplayAppend(s, a, [line], parse);
    SingletonAllButLast(line);
    SettledIgnoresRest(s, a + [line], b, parse);
  }

  /** The delta text one line carries: that of a data line whose payload parses, else nothing. */
  function LineDelta(line: string, parse: Parser): string {
    match Classify(StripCR(line))
    case Data(json) => (if parse(json).Parsed? then DeltaText(parse(json).content) else "")
    case _ => ""
  }

  /** Every data line before the first `[DONE]` parses. */
  predicate Parses(ls: seq<string>, parse: Parser)
    decreases |ls|
  {
    ls == []
    || match Classify(StripCR(ls[0]))
       case DoneSentinel => true
       case Data(json) => parse(json).Parsed? && Parses(ls[1..], parse)
       case _ => Parses(ls[1..], parse)
  }

  /**
   * Reference reading of a well-formed stream: the concatenation, in order,
   * of the delta texts of the lines that come before the first `[DONE]`.
   */
  function Spoken(ls: seq<string>, parse: Parser): string
    decreases |ls|
  {
    if ls == [] || Classify(StripCR(ls[0])) == DoneSentinel then ""
    else LineDelta(ls[0], parse) + Spoken(ls[1..], parse)
  }

  /** Some line is the `[DONE]` sentinel. */
  predicate HasDone(ls: seq<string>)
    decreases |ls|
  {
    ls != [] && (Classify(StripCR(ls[0])) == DoneSentinel || HasDone(ls[1..]))
  }

  /** A line other than `[DONE]` whose payload, if any, parses adds its delta and keeps reading. */
  lemma StepAddsDelta(s: Progress, line: string, parse: Parser)
    requires s.phase == Reading && Classify(StripCR(line)) != DoneSentinel
    requires Classify(StripCR(line)).Data? ==> parse(Classify(StripCR(line)).payload).Parsed?
    ensures Step(s, line, parse) == Progress(s.content + LineDelta(line, parse), Reading)
  {
    AppendEmpty(s.content);
  }

  /**
   * When every data payload parses, the reply is exactly the in-order
   * concatenation of the non-empty deltas, and the reader ends finished
   * exactly when a `[DONE]` line came.
   */
  lemma {:induction false} ReplySpellsDeltas(s: Progress, ls: seq<string>, parse: Parser)
    requires s.phase == Reading && Parses(ls, parse)
    ensures ReplayFrom(s, ls, parse).content == s.content + Spoken(ls, parse)
    ensures ReplayFrom(s, ls, parse).phase == (if HasDone(ls) then Finished else Reading)
    decreases |ls|
  {
    AppendEmpty(s.content);
    if ls != [] {
      var head, rest := ls[0], ls[1..];
      HeadAndRest(ls);
      ReplayAppend(s, [head], rest, parse);
      SingletonAllButLast(head);
      if Classify(StripCR(head)) == DoneSentinel {
      } else {
        StepAddsDelta(s, head, parse);
        var t := Progress(s.content + LineDelta(head, parse), Reading);
        ReplySpellsDeltas(t, rest, parse);
        AppendAssoc(s.content, LineDelta(head, parse), Spoken(rest, parse));
      }
    }
  }

  /**
   * The buffer after a push-back: its first complete line is a data line
   * whose payload does not parse, and it will be cut, classified and
   * rejected again on the next read.
   */
  predicate StalledAt(buffer: string, parse: Parser) {
    match NextLine(buffer)
    case None => false
    case Some(s) =>
      var f := Classify(StripCR(s.line));
      f.Data? && parse(f.payload) == Unparseable
  }

  /** Appending a chunk leaves the first complete line of a buffer as it was. */
  lemma StalledAtExtends(buffer: string, chunk: string, parse: Parser)
    requires StalledAt(buffer, parse)
    ensures StalledAt(buffer + chunk, parse)
  {
    var s := NextLine(buffer).value;
    AppendAssoc(s.line + "\n", s.rest, chunk);
    NextLineOf(s.line, s.rest + chunk);
  }
}
