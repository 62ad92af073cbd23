# Streaming chat client of the ESG compliance assistant

This project models `handleSend` in the chat panel (`src/components/ChatView.tsx`). It is the
function that sends the user's message and streams the assistant's reply into the transcript.
In order, it does the following:

- It refuses a blank input and a second send while one is in flight.
- It appends the user's entry and posts the whole history.
- It branches on how the stream starts: HTTP 429, another failure, or a readable body.
- It appends an empty assistant entry.
- It reads the body chunk by chunk into a text buffer and cuts that buffer into `\n`-terminated lines.
- It classifies each line against the `data: ` subset of the server-sent-events format
  (section 9.2 of the WHATWG HTML Living Standard). One line is one event.
- It appends the delta text of each parsed payload to the last entry.
- It stops at `[DONE]`.
- A payload that does not parse is pushed back to the head of the buffer.
- When anything throws, the last transcript entry is removed.

The files follow the program's layers:

- `js_text.dfy`: the JavaScript string operations the client relies on. `Trim` follows
  ECMA-262's white-space and line-terminator sets, and `IndexOf` finds one character.
- `event_stream.dfy`: line framing. It cuts the first line, gives the complete lines and the
  unfinished tail of a text, concatenates chunks, strips a trailing `\r` and classifies a line.
- `assembly.dfy`: the reference semantics of the reply. `Step` says what one complete line does
  to the running reply. `ReplayFrom` takes a sequence of lines in order. `Spoken` is an
  independent reading of a well-formed stream.
- `chat_view.dfy`: the component. It has the transcript updaters (`ReplaceLast`, `DropLast`).
  Its class `ChatView` holds the state `messages`, `input` and `isLoading`, which the methods
  update in place. The read loop is `ReadStream` and `TakeChunk`, the line loop is
  `DrainLines` and `ActOnLine`, and `HandleSend` is the whole operation.

Three inputs are parameters of the model:

- The response of `fetch` is a `Response`. It is a network error, or a status together with
  an optional body.
- A body is the sequence of decoded chunks that `read()` hands out, followed by how the reads
  end: `{ done: true }`, or a rejected read.
- `JSON.parse` followed by the read of `choices?.[0]?.delta?.content` is an uninterpreted
  function `parse` of the payload text. It either throws, or yields the content or nothing.

The methods are proved against the reference semantics. The reply built by the loops is the
reply `Outcome` that `Replay` gives for the complete lines of the concatenated chunks. So the
reply depends only on the text received, not on how that text is cut into reads
(`ReplyIgnoresChunking`). When every payload parses, the reply is the in-order concatenation
of the non-empty deltas before the first `[DONE]` (`StreamedReply`, `ReplySpellsDeltas`).

Two behaviours of the code are stated and proved as they are written:

- A payload split across two reads is reassembled by the line buffer alone. Its line is not
  cut before its `\n` arrives.
- A complete line whose payload does not parse is pushed back. On the next read it is cut and
  classified again, with the same payload (`ReclassifyPushedBack`), so it fails again. From
  then on no later line has any effect, not even `[DONE]` (`UnparseableLineStallsForGood`,
  `PushBack`). The reply is what it was before that line.

Three behaviours of the code may surprise a reader. The model follows the code in each:

- A pushed-back line is never recovered by waiting, because it already holds its whole
  payload.
- A body that ends (`{ done: true }`) without `[DONE]` finishes normally. The partial reply
  stays in the transcript.
- When the stream fails to start, the entry removed is the user's own, because the assistant
  entry has not been appended yet.

## Model

| member | source | states |
|---|---|---|
| JsText.IsWhitespace | src/components/ChatView.tsx:39 | the characters `trim()` removes: ECMA-262's white space and line terminators; `TrimBlank`, `TrimEndDrops` and `TrimStartDrops` state what trimming with it removes |
| JsText.TrimEnd | src/components/ChatView.tsx:94 | removes trailing white space; `TrimEndDrops` states that the result is a prefix, that only white space is dropped, and that it ends at a character that is not |
| JsText.TrimStart | src/components/ChatView.tsx:94 | removes leading white space; `TrimStartDrops` states that the result is a suffix, that only white space is dropped, and that it starts at a character that is not |
| JsText.Trim | src/components/ChatView.tsx:39 | `s.trim()` as used by the send guard and the payload; `TrimBlank` states it is empty exactly when all of `s` is white space, and otherwise starts and ends with a character that is not |
| JsText.TrimBlank | src/components/ChatView.tsx:39 | `s.trim()` is empty exactly when every character is JavaScript white space; otherwise it starts and ends with a character that is not |
| JsText.TrimEndDrops | src/components/ChatView.tsx:94 | trimming the end keeps a prefix, drops only white space, and stops at a character that is not white space |
| JsText.TrimStartDrops | src/components/ChatView.tsx:94 | trimming the start keeps a suffix, drops only white space, and stops at a character that is not white space |
| JsText.TrimIgnoresTrailingWhitespace | src/components/ChatView.tsx:90-94 | a trailing white-space character such as the `\r` of a CRLF line does not change the trimmed payload |
| JsText.IndexOf | src/components/ChatView.tsx:86 | `indexOf("\n")` is -1 exactly when there is no `\n`; otherwise it is the position of the first one |
| EventStream.NextLine | src/components/ChatView.tsx:86-88 | one cut gives nothing exactly when the buffer holds no `\n`; otherwise the buffer is the line, a `\n` and the rest, and the line holds no `\n` |
| EventStream.NextLineOf | src/components/ChatView.tsx:86-88 | a line without `\n` followed by `\n` is the next line cut, whatever follows |
| EventStream.Lines | src/components/ChatView.tsx:85-88 | the lines the inner loop cuts, in order, none holding a `\n`; `LinesThenTail`, `LinesOfUnlines` and `LinesAppend` relate them to the buffer text |
| EventStream.Tail | src/components/ChatView.tsx:85-88 | what the inner loop leaves in the buffer holds no `\n`; `LinesThenTail` states that it is the text after the last complete line |
| EventStream.CutAtNewline | src/components/ChatView.tsx:86-88 | cutting at the first `\n` yields the first line, and the lines and tail after it are those of the rest |
| EventStream.LinesThenTail | src/components/ChatView.tsx:83-88 | any text is its complete lines, each followed by `\n`, then the unfinished tail left in the buffer |
| EventStream.LinesOfUnlines | src/components/ChatView.tsx:83-88 | cutting text built from lines without `\n` gives back exactly those lines and the tail |
| EventStream.LinesAppend | src/components/ChatView.tsx:83-88 | appending text never changes lines already complete: the lines of `a + b` are those of `a`, then those of the tail of `a` joined to `b` |
| EventStream.ConcatSplit | src/components/ChatView.tsx:80-83 | the text received is the text of the first `i` reads followed by that of the rest |
| EventStream.ConcatAppend | src/components/ChatView.tsx:80-83 | the reads of `a + b` concatenate to those of `a` followed by those of `b` |
| EventStream.ConcatOfSplitChunk | src/components/ChatView.tsx:80-83 | cutting one read in two at any point leaves the text received unchanged |
| EventStream.StripCR | src/components/ChatView.tsx:90 | the line is unchanged, or loses exactly one trailing `\r`, and only when it ends with `\r` |
| EventStream.Classify | src/components/ChatView.tsx:90-98 | the tests of a stripped line in source order; `ClassifyCases` states each kind of line exactly and its payload |
| EventStream.ClassifyCases | src/components/ChatView.tsx:91-98 | a line is a comment exactly when it starts with `:`, blank exactly when it is all white space, `[DONE]` or data exactly when it starts with `data: ` (split on the trimmed rest), and the payload is that trimmed rest |
| EventStream.ReclassifyPushedBack | src/components/ChatView.tsx:90-94 | a data line that was stripped and pushed back is classified the same when it is cut and stripped again, with the same payload |
| Assembly.DeltaText | src/components/ChatView.tsx:102-103 | `if (content)`: the delta is non-empty exactly when the content is present and non-empty, and then it is that content |
| Assembly.Step | src/components/ChatView.tsx:91-117 | after `[DONE]` or a failed parse a line changes nothing; otherwise the reply is kept or extended by a non-empty delta; the reader finishes only at `[DONE]` |
| Assembly.ReplayFrom | src/components/ChatView.tsx:85-118 | over any lines the earlier reply is a prefix of the later one, and a settled reader stays as it is |
| Assembly.ReplayAppend | src/components/ChatView.tsx:80-118 | taking lines `a` then lines `b` is taking `a + b`, so reading may stop and resume between any two lines |
| Assembly.IgnoredLineIsInert | src/components/ChatView.tsx:91-92 | a comment, blank or non-data line can be removed from anywhere in the stream without changing reply or phase |
| Assembly.SettledIgnoresRest | src/components/ChatView.tsx:95-117 | once `[DONE]` is seen, or a payload fails to parse, no later line has any effect |
| Assembly.UnparseableLineStallsForGood | src/components/ChatView.tsx:114-117 | a complete line whose payload fails to parse ends the reply there, whatever follows it, `[DONE]` included |
| Assembly.StepAddsDelta | src/components/ChatView.tsx:100-113 | a line other than `[DONE]` whose payload parses appends exactly its delta (nothing when empty or absent) and keeps reading |
| Assembly.ReplySpellsDeltas | src/components/ChatView.tsx:80-119 | when every payload parses, the reply is the in-order concatenation of the deltas, matching the independent reading `Spoken`, and the reader ends finished exactly when a `[DONE]` line came |
| Assembly.StalledAtExtends | src/components/ChatView.tsx:83-88 | appending a read to a buffer whose first line failed keeps that line first |
| Chat.ReplaceLast | src/components/ChatView.tsx:105-112 | the updater keeps the length and every entry but the last, and the last becomes the new assistant entry; an empty list stays empty |
| Chat.DropLast | src/components/ChatView.tsx:128 | `prev.slice(0, -1)` is a prefix one shorter, or empty when the list is empty |
| Chat.DropLastUndoesAppend | src/components/ChatView.tsx:128 | dropping the last entry undoes the append of the user's or the assistant's entry |
| Chat.PushBack | src/components/ChatView.tsx:114-117 | after `line + "\n" + textBuffer` the buffer's first line is the failed line again, and it fails again |
| Chat.FinishedIsFinal | src/components/ChatView.tsx:80-98 | once `[DONE]` is seen after some reads, the reads after them change nothing |
| Chat.StreamEnds | src/components/ChatView.tsx:80-82 | the read loop stops at `[DONE]` or after the last read, and either way its progress is that over the whole body |
| Chat.ReplyIgnoresChunking | src/components/ChatView.tsx:80-88 | cutting any read in two changes neither the reply nor whether the stream fails |
| Chat.StreamedReply | src/components/ChatView.tsx:80-131 | when every payload parses, the reply is the concatenation of the deltas before `[DONE]`, and the stream fails exactly when a read rejects with no `[DONE]` |
| Chat.IsOk | src/components/ChatView.tsx:58 | `response.ok`, a status from 200 to 299; `HandleSend`'s ensures state the transcript for an ok and a not-ok start |
| Chat.StartRejected | src/components/ChatView.tsx:58 | the response is not ok, or has no body to read; `HandleSend`'s ensures state the transcript, input and notice on this branch, for 429 and for other statuses |
| Chat.ChatView.constructor | src/components/ChatView.tsx:17-24 | the panel starts with the greeting entry, an empty input and no send in flight |
| Chat.ChatView.SetInput | src/components/ChatView.tsx:23 | the input setter replaces the input text |
| Chat.ChatView.ActOnLine | src/components/ChatView.tsx:87-117 | one line of the inner loop moves the reply and the phase exactly as `Step` does; the loop goes on only while reading, with the buffer left as the rest; a failed line is pushed back, leaving the buffer exactly the stripped line, a `\n` and the rest, so that it fails again; only the last entry changes |
| Chat.ChatView.DrainLines | src/components/ChatView.tsx:85-118 | the inner loop's reply and `streamDone` are those of `ReplayFrom` over the complete lines of the buffer; while reading, the buffer is left holding the unfinished tail; only the last entry changes |
| Chat.ChatView.TakeChunk | src/components/ChatView.tsx:83-118 | after a read, the reply, `streamDone` and the buffer agree with the reader's progress over all text received so far |
| Chat.ChatView.ReadStream | src/components/ChatView.tsx:71-119 | exactly one assistant entry is appended, holding the reply `Outcome` of the whole body; it throws exactly when a read rejects before `[DONE]` |
| Chat.ChatView.HandleSend | src/components/ChatView.tsx:38-132 | a blank input or a send in flight changes nothing. Otherwise the request is the old history plus the user's untrimmed entry, and the input ends empty with no send in flight. On 429 only the user's entry is added. On another start failure or a network error the transcript is restored. A failed stream keeps only the user's entry. A finished stream adds the user's entry and the assistant's reply |

## Left out

- `fetch`, `getReader()`, `await reader.read()` and the scheduling of the awaits are I/O. They
  are replaced by the `Response` and `Body` parameters. A read that rejects is placed after the
  chunks it follows.
- `HandleSend` runs as one atomic step. Other events that React could deliver during its awaits
  are not modelled: a second send while the first is in flight, or edits to the input. The
  `isLoading` guard against them is modelled.
- React state batching and the stale closure: the updaters are applied to the transcript
  directly, in the order the code schedules them. The request body is built from the transcript
  as it was before the send, as the code builds it.
- `TextDecoder` with `{ stream: true }` is a platform library. Chunks are already-decoded strings
  of Unicode scalar values, so byte-order marks, lone surrogates and a UTF-8 sequence left
  undecoded at the end are not modelled.
- `JSON.parse` and the optional chain are foreign code, so `parse` is uninterpreted. A non-string
  truthy `content` that JavaScript would coerce while appending is not modelled. The content is a
  string or absent.
- The toasts, `console.error`, scrolling (src/components/ChatView.tsx:28-36), Markdown rendering
  and the JSX are UI side effects. A toast appears only as the `Notice` result of `HandleSend`.
- The other components, hooks, pages and generated types of the repository are not part of this
  model. They fetch data and present it, and hold no state machine of their own.
