/**
 * The chat panel's send operation: it appends the user's message, posts the
 * whole history, and streams the assistant's reply into the last transcript
 * entry, rolling back one entry when anything throws.
 */
module Chat {
  import opened Optional
  import opened JsText
  import opened SeqFacts
  import opened EventStream
  import opened Assembly

  datatype Role = User | Assistant

  /** One transcript entry. */
  datatype Message = Message(role: Role, content: string)

  const GreetingText: string := "Hello! I'm your ESG compliance AI assistant. I can help you with queries about vendor compliance, regulations, audit results, and ESG metrics. How can I assist you today?"

  /**
   * The updater `newMessages[newMessages.length - 1] = m`: only the last
   * entry changes. On an empty list the assignment creates no element, so
   * the list stays empty.
   */
  function ReplaceLast(prev: seq<Message>, m: Message): (r: seq<Message>)
    ensures |r| == |prev|
    ensures forall k :: 0 <= k < |prev| - 1 ==> r[k] == prev[k]
    ensures prev != [] ==> r[|prev| - 1] == m
  {
    if prev == [] then prev else prev[..|prev| - 1] + [m]
  }

  /** The updater `prev.slice(0, -1)`: every entry but the last, nothing when there is none. */
  function DropLast(prev: seq<Message>): (r: seq<Message>)
    ensures r <= prev
    ensures |r| == if prev == [] then 0 else |prev| - 1
  {
    if prev == [] then [] else prev[..|prev| - 1]
  }

  /** Dropping the last entry undoes appending one. */
  lemma DropLastUndoesAppend(prev: seq<Message>, m: Message)
    ensures DropLast(prev + [m]) == prev
  {
    AllButLastOfSnoc(prev, m);
  }

  /** How the reader's `read()` calls end once the chunks are handed out. */
  datatype StreamEnd =
    | EndOfData   // `{ done: true }`
    | ReadError   // the promise of `read()` rejects

  /** A response body: the decoded chunks the reader hands out, in order, then how it ends. */
  datatype Body = Body(chunks: seq<string>, end: StreamEnd)

  /** What `fetch` yields: a rejection, or a status with a body or without one. */
  datatype Response = NetworkError | Response(status: int, body: Option<Body>)

  /** `response.ok`: a status in the range 200 to 299. */
  predicate IsOk(status: int) {
    200 <= status <= 299
  }

  /** The branch at the start of the stream: not ok, or no body to read. */
  predicate StartRejected(response: Response) {
    response.Response? && (!IsOk(response.status) || response.body.None?)
  }

  /** The toast a send ends with. */
  datatype Notice = NoNotice | RateLimitNotice | ErrorNotice

  /** The reader's progress over everything the body streams, however it is cut into chunks. */
  function Outcome(body: Body, parse: Parser): Progress {
    Replay(Lines(Concat(body.chunks)), parse)
  }

  /**
   * What the buffer holds once the text `received` was handed out: the
   * unfinished tail while the reader is still reading, and the line that
   * failed at its head once it has stalled.
   */
  predicate BufferHolds(received: string, buffer: string, parse: Parser) {
    var p := Replay(Lines(received), parse);
    && (p.phase == Reading ==> buffer == Tail(received))
    && (p.phase == Stalled ==> StalledAt(buffer, parse))
  }

  /** A read rejects before `[DONE]` was seen: the stream fails. */
  predicate StreamFails(body: Body, parse: Parser) {
    Outcome(body, parse).phase != Finished && body.end == ReadError
  }

  class ChatView {
    var messages: seq<Message>
    var input: string
    var isLoading: bool

    /** The initial state: the greeting, an empty input box, no send in flight. */
    constructor ()
      ensures messages == [Message(Assistant, GreetingText)]
      ensures input == "" && !isLoading
    {
      messages := [Message(Assistant, GreetingText)];
      input := "";
      isLoading := false;
    }

    /** The input box's change handler. */
    method SetInput(text: string)
      modifies this`input
      ensures input == text
    {
      input := text;
    }

    /**
     * The inner loop: take every complete line out of `buffer`, act on it,
     * and stop at `[DONE]` or at a payload that does not parse, which is put
     * back at the head of the buffer. `before` is the reader's progress over
     * the lines taken from earlier chunks.
     */
    method DrainLines(buffer: string, content: string, parse: Parser, ghost before: Progress)
      returns (textBuffer: string, assistantContent: string, streamDone: bool)
      requires before.phase != Finished && before.content == content
      requires before.phase == Stalled ==> StalledAt(buffer, parse)
      requires messages != [] && messages[|messages| - 1] == Message(Assistant, content)
      modifies this`messages
      ensures var after := ReplayFrom(before, Lines(buffer), parse);
        && assistantContent == after.content
        && streamDone == (after.phase == Finished)
        && (after.phase == Reading ==> textBuffer == Tail(buffer))
        && (after.phase == Stalled ==> StalledAt(textBuffer, parse))
      ensures messages == old(messages)[..|old(messages)| - 1] + [Message(Assistant, assistantContent)]
    {
      ghost var earlier := messages[..|messages| - 1];
      LastSplit(messages);
      textBuffer, assistantContent, streamDone := buffer, content, false;
      ghost var taken: seq<string> := [];
      ghost var cur := before;
      while IndexOf(textBuffer, '\n') != -1
        invariant cur == ReplayFrom(before, taken, parse) && cur.phase != Finished
        invariant assistantContent == cur.content && !streamDone
        invariant before.phase == Reading ==>
          cur.phase == Reading && Lines(buffer) == taken + Lines(textBuffer) && Tail(textBuffer) == Tail(buffer)
        invariant before.phase == Stalled ==> cur == before && StalledAt(textBuffer, parse)
        invariant messages == earlier + [Message(Assistant, assistantContent)]
        decreases |textBuffer|
      {
        var newlineIndex := IndexOf(textBuffer, '\n');
        var line := textBuffer[..newlineIndex];
        ghost var cut := textBuffer;
        textBuffer := textBuffer[newlineIndex + 1..];
        CutStep(before, taken, cut, newlineIndex, parse);
        ghost var rest := textBuffer;
        AllButLastOfSnoc(earlier, Message(Assistant, assistantContent));
        var stop;
        textBuffer, assistantContent, streamDone, stop := ActOnLine(line, textBuffer, assistantContent, parse, cur);
        taken, cur := taken + [line], Step(cur, line, parse);
        if stop {
          if before.phase == Reading {
            DrainEnd(before, taken, rest, buffer, parse);
          }
          break;
        }
      }
      if before.phase == Reading && cur.phase == Reading {
        DrainEnd(before, taken, textBuffer, buffer, parse);
      }
    }

    /**
     * The body of the inner loop for one complete line `raw`, cut from the
     * buffer whose remainder is `rest`: strip a trailing `\r`, skip comment,
     * blank and non-data lines, stop at `[DONE]`, append a non-empty delta
     * to the last entry, and push back a line whose payload does not parse.
     * `stop` is the `break`. `cur` is the reader's progress before the line.
     */
    method ActOnLine(raw: string, rest: string, content: string, parse: Parser, ghost cur: Progress)
      returns (textBuffer: string, assistantContent: string, streamDone: bool, stop: bool)
      requires '\n' !in raw
      requires cur.phase != Finished && cur.content == content
      requires cur.phase == Stalled ==> StalledAt(raw + "\n" + rest, parse)
      requires messages != [] && messages[|messages| - 1] == Message(Assistant, content)
      modifies this`messages
      ensures var next := Step(cur, raw, parse);
        && assistantContent == next.content
        && streamDone == (next.phase == Finished)
        && stop == (next.phase != Reading)
        && (!stop ==> textBuffer == rest)
        && (next.phase == Stalled ==> textBuffer == StripCR(raw) + "\n" + rest)
        && (next.phase == Stalled ==> StalledAt(textBuffer, parse))
      ensures messages == old(messages)[..|old(messages)| - 1] + [Message(Assistant, assistantContent)]
    {
      ghost var earlier := messages[..|messages| - 1];
      LastSplit(messages);
      if cur.phase == Stalled {
        NextLineOf(raw, rest);
      }
      textBuffer, assistantContent, streamDone, stop := rest, content, false, false;
      var line := StripCR(raw);
      var frame := Classify(line);
      if frame.DoneSentinel? {
        streamDone, stop := true, true;
      } else if frame.Data? {
        var jsonStr := frame.payload;
        match parse(jsonStr)
        case Parsed(delta) =>
          assert cur.phase == Reading ==> Step(cur, raw, parse) == cur.(content := cur.content + DeltaText(delta));
          if delta.Some? && delta.value != "" {
            assistantContent := assistantContent + delta.value;
            ReplaceLastOfAppend(earlier, messages[|messages| - 1], Message(Assistant, assistantContent));
            messages := ReplaceLast(messages, Message(Assistant, assistantContent));
          }
        case Unparseable =>
          PushBack(raw, textBuffer, parse);
          textBuffer := line + "\n" + textBuffer;
          stop := true;
      }
      // comment, blank and non-data lines: nothing to do
    }

    /**
     * One turn of the outer loop once `read()` handed out `chunk`: append it
     * to the buffer and drain the complete lines. `received` is everything
     * handed out before.
     */
    method TakeChunk(buffer: string, content: string, chunk: string, parse: Parser, ghost received: string)
      returns (textBuffer: string, assistantContent: string, streamDone: bool)
      requires Replay(Lines(received), parse).phase != Finished
      requires content == Replay(Lines(received), parse).content
      requires BufferHolds(received, buffer, parse)
      requires messages != [] && messages[|messages| - 1] == Message(Assistant, content)
      modifies this`messages
      ensures assistantContent == Replay(Lines(received + chunk), parse).content
      ensures streamDone == (Replay(Lines(received + chunk), parse).phase == Finished)
      ensures BufferHolds(received + chunk, textBuffer, parse)
      ensures messages == old(messages)[..|old(messages)| - 1] + [Message(Assistant, assistantContent)]
    {
      ghost var before := Replay(Lines(received), parse);
      if before.phase == Stalled {
        StalledAtExtends(buffer, chunk, parse);
      }
      textBuffer := buffer + chunk;
      textBuffer, assistantContent, streamDone := DrainLines(textBuffer, content, parse, before);
      ChunkDrained(received, buffer, chunk, textBuffer, assistantContent, streamDone, parse);
    }

    /**
     * The read loop of `handleSend`: append the empty assistant entry, then read chunk after
     * chunk into the buffer and drain its complete lines, until `[DONE]` or
     * the end of the body. `threw` is a rejected read, which leaves for the
     * `catch` block.
     */
    method ReadStream(body: Body, parse: Parser) returns (threw: bool)
      modifies this`messages
      ensures threw == StreamFails(body, parse)
      ensures messages == old(messages) + [Message(Assistant, Outcome(body, parse).content)]
    {
      var textBuffer := "";
      var streamDone := false;
      var assistantContent := "";
      messages := messages + [Message(Assistant, "")];

      var readCount := 0;
      ghost var received := "";
      while !streamDone
        invariant readCount <= |body.chunks| && received == Concat(body.chunks[..readCount])
        invariant assistantContent == Replay(Lines(received), parse).content
        invariant streamDone == (Replay(Lines(received), parse).phase == Finished)
        invariant BufferHolds(received, textBuffer, parse)
        invariant messages == old(messages) + [Message(Assistant, assistantContent)]
        decreases |body.chunks| - readCount
      {
        if readCount == |body.chunks| {
          // `{ done: true }`, or the read that rejects
          break;
        }
        var chunk := body.chunks[readCount];
        ConcatNext(body.chunks, readCount);
        AllButLastOfSnoc(old(messages), Message(Assistant, assistantContent));
        textBuffer, assistantContent, streamDone := TakeChunk(textBuffer, assistantContent, chunk, parse, received);
        readCount, received := readCount + 1, received + chunk;
      }
      threw := !streamDone && body.end == ReadError;
      StreamEnds(body, readCount, parse);
    }

    /**
     * `handleSend`: the guard, the user's entry, the request, the branch on
     * the start of the stream, and the rollback of the last entry when
     * anything throws. `response` is what `fetch` yields for the request;
     * `parse` stands for `JSON.parse` and the read of the delta text.
     */
    method HandleSend(response: Response, parse: Parser) returns (request: Option<seq<Message>>, notice: Notice)
      modifies this
      ensures Trim(old(input)) == "" || old(isLoading) ==>
        && request == None && notice == NoNotice
        && messages == old(messages) && input == old(input) && isLoading == old(isLoading)
      ensures Trim(old(input)) != "" && !old(isLoading) ==>
        && request == Some(old(messages) + [Message(User, old(input))])
        && input == "" && !isLoading
      ensures Trim(old(input)) != "" && !old(isLoading) && StartRejected(response) && response.status == 429 ==>
        messages == old(messages) + [Message(User, old(input))] && notice == RateLimitNotice
      ensures (&& Trim(old(input)) != "" && !old(isLoading)
               && (response.NetworkError? || (StartRejected(response) && response.status != 429))) ==>
        messages == old(messages) && notice == ErrorNotice
      ensures Trim(old(input)) != "" && !old(isLoading) && response.Response? && !StartRejected(response) ==>
        var body := response.body.value;
        if StreamFails(body, parse) then
          messages == old(messages) + [Message(User, old(input))] && notice == ErrorNotice
        else
          messages == old(messages) + [Message(User, old(input)), Message(Assistant, Outcome(body, parse).content)]
          && notice == NoNotice
    {
      if Trim(input) == "" || isLoading {
        return None, NoNotice;
      }
      var userMessage := Message(User, input);
      request := Some(messages + [userMessage]);
      messages := messages + [userMessage];
      input := "";
      isLoading := true;
      notice := NoNotice;

      var threw := false;
      match response {
        case NetworkError =>
          threw := true;
        case Response(status, body) =>
          if !IsOk(status) || body.None? {
            if status == 429 {
              notice := RateLimitNotice;
              isLoading := false;
              return;
            }
            threw := true;
          } else {
            threw := ReadStream(body.value, parse);
          }
      }

      if threw {
        notice := ErrorNotice;
        LastSplit(messages);
        DropLastUndoesAppend(messages[..|messages| - 1], messages[|messages| - 1]);
        messages := DropLast(messages);
      }
      isLoading := false;
    }
  }

  /** One cut of the inner loop, seen from the reader's progress over the lines taken so far. */
  lemma CutStep(before: Progress, taken: seq<string>, text: string, i: nat, parse: Parser)
    requires i < |text| && text[i] == '\n' && '\n' !in text[..i]
    ensures text == text[..i] + "\n" + text[i + 1..]
    ensures NextLine(text) == Some(Split(text[..i], text[i + 1..]))
    ensures Tail(text) == Tail(text[i + 1..])
    ensures taken + Lines(text) == (taken + [text[..i]]) + Lines(text[i + 1..])
    ensures ReplayFrom(before, taken + [text[..i]], parse) == Step(ReplayFrom(before, taken, parse), text[..i], parse)
  {
    CutAtNewline(text, i);
    AppendAssoc(taken, [text[..i]], Lines(text[i + 1..]));
    ReplayThroughLine(before, taken, text[..i], [], parse);
  }

  /**
   * Where the inner loop stops: at a text without `\n`, or once the reader
   * has settled, the lines left in the buffer add nothing to the lines taken.
   */
  lemma DrainEnd(before: Progress, taken: seq<string>, rest: string, buffer: string, parse: Parser)
    requires Lines(buffer) == taken + Lines(rest)
    requires ReplayFrom(before, taken, parse).phase == Reading ==> '\n' !in rest
    ensures ReplayFrom(before, Lines(buffer), parse) == ReplayFrom(before, taken, parse)
    ensures '\n' !in rest ==> Tail(rest) == rest
  {
    ReplayAppend(before, taken, Lines(rest), parse);
    if '\n' !in rest {
      assert Lines(rest) == [];
      AppendEmpty(taken);
    }
  }

  /**
   * The push-back `textBuffer = line + "\n" + textBuffer` after a payload
   * failed to parse: the buffer now starts with that line again, and it
   * fails again.
   */
  lemma PushBack(raw: string, rest: string, parse: Parser)
    requires '\n' !in raw
    requires Classify(StripCR(raw)).Data? && parse(Classify(StripCR(raw)).payload) == Unparseable
    ensures StalledAt(StripCR(raw) + "\n" + rest, parse)
  {
    ReclassifyPushedBack(raw);
    NextLineOf(StripCR(raw), rest);
  }

  /** Replacing the last entry of a list that ends in `x`. */
  lemma ReplaceLastOfAppend(earlier: seq<Message>, x: Message, m: Message)
    ensures ReplaceLast(earlier + [x], m) == earlier + [m]
  {
    AllButLastOfSnoc(earlier, x);
  }

  /**
   * One read of the outer loop: the lines of the text received so far plus
   * a chunk are the old lines followed by the lines of the buffer plus that
   * chunk, so draining the buffer continues the reader's progress.
   */
  lemma ReadStep(received: string, buffer: string, chunk: string, parse: Parser)
    requires Replay(Lines(received), parse).phase == Reading ==> buffer == Tail(received)
    ensures Replay(Lines(received + chunk), parse) == ReplayFrom(Replay(Lines(received), parse), Lines(buffer + chunk), parse)
    ensures Replay(Lines(received), parse).phase == Reading ==> Tail(received + chunk) == Tail(buffer + chunk)
  {
    LinesAppend(received, chunk);
    ReplayAppend(Start, Lines(received), Lines(Tail(received) + chunk), parse);
  }

  /**
   * The outer loop stops after `k` chunks, at `[DONE]` or once every chunk
   * is read; either way the reader's progress is that over the whole body.
   */
  lemma StreamEnds(body: Body, k: nat, parse: Parser)
    requires k <= |body.chunks|
    requires Replay(Lines(Concat(body.chunks[..k])), parse).phase == Finished || k == |body.chunks|
    ensures Outcome(body, parse) == Replay(Lines(Concat(body.chunks[..k])), parse)
  {
    if k == |body.chunks| {
      assert body.chunks[..k] == body.chunks;
    } else {
      FinishedIsFinal(body.chunks, k, parse);
    }
  }

  /**
   * Draining the buffer plus a new chunk, from the progress over the text
   * received before, gives the progress over the text received with it.
   */
  lemma ChunkDrained(received: string, buffer: string, chunk: string,
                     textBuffer: string, assistantContent: string, streamDone: bool, parse: Parser)
    requires BufferHolds(received, buffer, parse)
    requires var after := ReplayFrom(Replay(Lines(received), parse), Lines(buffer + chunk), parse);
      && assistantContent == after.content
      && streamDone == (after.phase == Finished)
      && (after.phase == Reading ==> textBuffer == Tail(buffer + chunk))
      && (after.phase == Stalled ==> StalledAt(textBuffer, parse))
    ensures assistantContent == Replay(Lines(received + chunk), parse).content
    ensures streamDone == (Replay(Lines(received + chunk), parse).phase == Finished)
    ensures BufferHolds(received + chunk, textBuffer, parse)
  {
    ReadStep(received, buffer, chunk, parse);
  }

  /** Once `[DONE]` is seen after `k` chunks, the chunks after them change nothing. */
  lemma FinishedIsFinal(chunks: seq<string>, k: nat, parse: Parser)
    requires k <= |chunks| && Replay(Lines(Concat(chunks[..k])), parse).phase == Finished
    ensures Replay(Lines(Concat(chunks)), parse) == Replay(Lines(Concat(chunks[..k])), parse)
  {
    var head, rest := Concat(chunks[..k]), Concat(chunks[k..]);
    ConcatSplit(chunks, k);
    LinesAppend(head, rest);
    SettledIgnoresRest(Start, Lines(head), Lines(Tail(head) + rest), parse);
  }

  /**
   * Cutting any chunk of the body in two, at any point, changes neither the
   * reply nor whether the stream fails: a payload split across reads is
   * put back together by the line buffer.
   */
  lemma ReplyIgnoresChunking(body: Body, i: nat, x: string, y: string, parse: Parser)
    requires i < |body.chunks| && body.chunks[i] == x + y
    ensures var recut := Body(body.chunks[..i] + [x, y] + body.chunks[i + 1..], body.end);
      && Outcome(recut, parse) == Outcome(body, parse)
      && StreamFails(recut, parse) == StreamFails(body, parse)
  {
    ConcatOfSplitChunk(body.chunks, i, x, y);
  }

  /**
   * When every data payload of the stream parses, the reply is the in-order
   * concatenation of the non-empty deltas before the first `[DONE]`, and the
   * stream fails exactly when a read rejects and no `[DONE]` came.
   */
  lemma StreamedReply(body: Body, parse: Parser)
    requires Parses(Lines(Concat(body.chunks)), parse)
    ensures Outcome(body, parse).content == Spoken(Lines(Concat(body.chunks)), parse)
    ensures StreamFails(body, parse) <==> !HasDone(Lines(Concat(body.chunks))) && body.end == ReadError
  {
    ReplySpellsDeltas(Start, Lines(Concat(body.chunks)), parse);
    AppendEmpty(Spoken(Lines(Concat(body.chunks)), parse));
  }
}
