/**
 * Line framing of the chat response: the decoded text is cut at `\n` into
 * lines, a trailing `\r` is stripped, and each line is classified by the
 * `data: ` subset of the server-sent-events format (section 9.2 of the WHATWG
 * HTML Living Standard): one event per line, no multi-line `data` fields.
 */
module EventStream {
  import opened Optional
  import opened JsText
  import opened SeqFacts

  /** A line cut from the front of the buffer, and what is left after its `\n`. */
  datatype Split = Split(line: string, rest: string)

  /**
   * One step of the reader's inner loop: the text before the first `\n` and
   * the text after it; nothing when the buffer holds no complete line yet.
   */
  function NextLine(buffer: string): (r: Option<Split>)
    ensures r.None? <==> '\n' !in buffer
    ensures r.Some? ==> buffer == r.value.line + "\n" + r.value.rest && '\n' !in r.value.line
  {
    var i := IndexOf(buffer, '\n');
    if i == -1 then None
    else
      SplitAround(buffer, i);
      assert [buffer[i]] == "\n";
      Some(Split(buffer[..i], buffer[i + 1..]))
  }

  /** A buffer cuts at its first `\n` only: a line without `\n` followed by `\n` is the next line. */
  lemma NextLineOf(line: string, rest: string)
    requires '\n' !in line
    ensures NextLine(line + "\n" + rest) == Some(Split(line, rest))
  {
    var buffer := line + "\n" + rest;
    assert buffer[|line|] == '\n' && buffer[..|line|] == line;
  }

  /** Every complete (`\n`-terminated) line of `text`, in order, without its `\n`. */
  function Lines(text: string): (ls: seq<string>)
    ensures forall k :: 0 <= k < |ls| ==> '\n' !in ls[k]
    decreases |text|
  {
    match NextLine(text)
    case None => []
    case Some(s) => [s.line] + Lines(s.rest)
  }

  /** The text after the last `\n` of `text`: what waits in the buffer for more input. */
  function Tail(text: string): (t: string)
    ensures '\n' !in t
    decreases |text|
  {
    match NextLine(text)
    case None => text
    case Some(s) => Tail(s.rest)
  }

  /**
   * The reader's own cut: when `i` is the first `\n` of `text`, the first
   * line is `text[..i]`, and the lines and tail after it are those of
   * `text[i + 1..]`.
   */
  lemma CutAtNewline(text: string, i: nat)
    requires i < |text| && text[i] == '\n' && '\n' !in text[..i]
    ensures NextLine(text) == Some(Split(text[..i], text[i + 1..]))
    ensures Lines(text) == [text[..i]] + Lines(text[i + 1..])
    ensures Tail(text) == Tail(text[i + 1..])
  {
    assert text == text[..i] + "\n" + text[i + 1..];
    LinesCons(text, text[..i], text[i + 1..]);
  }

  /** A chunk handed out after the first `k` is appended to their concatenation. */
  lemma ConcatNext(chunks: seq<string>, k: nat)
    requires k < |chunks|
    ensures Concat(chunks[..k + 1]) == Concat(chunks[..k]) + chunks[k]
  {
    assert chunks[..k + 1][..k] == chunks[..k];
  }

  /** Lines written back as text, each followed by its `\n`. */
  function Unlines(ls: seq<string>): string {
    if ls == [] then "" else ls[0] + "\n" + Unlines(ls[1..])
  }

  /** The chunks handed out by the reader, concatenated in order. */
  function Concat(chunks: seq<string>): string {
    if chunks == [] then "" else Concat(chunks[..|chunks| - 1]) + chunks[|chunks| - 1]
  }

  /** Any text is its complete lines followed by its unfinished tail. */
  lemma {:induction false} LinesThenTail(text: string)
    ensures text == Unlines(Lines(text)) + Tail(text)
    decreases |text|
  {
    match NextLine(text)
    case None =>
      AppendEmpty(text);
    case Some(s) =>
      LinesThenTail(s.rest);
      LinesCons(text, s.line, s.rest);
      var ls := Lines(text);
      assert ls[0] == s.line && ls[1..] == Lines(s.rest);
      AppendAssoc(s.line + "\n", Unlines(Lines(s.rest)), Tail(s.rest));
  }

  /** Cutting text built from lines gives back those lines and the unfinished tail. */
  lemma {:induction false} LinesOfUnlines(ls: seq<string>, tail: string)
    requires forall k :: 0 <= k < |ls| ==> '\n' !in ls[k]
    requires '\n' !in tail
    ensures Lines(Unlines(ls) + tail) == ls
    ensures Tail(Unlines(ls) + tail) == tail
    decreases |ls|
  {
    if ls != [] {
      LinesOfUnlines(ls[1..], tail);
      var rest := Unlines(ls[1..]) + tail;
      AppendAssoc(ls[0] + "\n", Unlines(ls[1..]), tail);
      LinesCons(Unlines(ls) + tail, ls[0], rest);
      HeadAndRest(ls);
    } else {
      AppendEmpty(tail);
      assert NextLine(tail).None?;
    }
  }

  /**
   * Appending text never changes the lines already complete: the lines of
   * `a + b` are those of `a` followed by those of the tail of `a` joined to `b`.
   */
  lemma {:induction false} LinesAppend(a: string, b: string)
    ensures Lines(a + b) == Lines(a) + Lines(Tail(a) + b)
    ensures Tail(a + b) == Tail(Tail(a) + b)
    decreases |a|
  {
    var n := NextLine(a);
    if n.Some? {
      var line, rest := n.value.line, n.value.rest;
      AppendAssoc(line + "\n", rest, b);
      LinesAppend(rest, b);
      LinesCons(a, line, rest);
      LinesCons(a + b, line, rest + b);
      AppendAssoc([line], Lines(rest), Lines(Tail(rest) + b));
    }
  }

  /** The lines and tail of a text whose first line is known. */
  lemma LinesCons(text: string, line: string, rest: string)
    requires '\n' !in line && text == line + "\n" + rest
    ensures Lines(text) == [line] + Lines(rest)
    ensures Tail(text) == Tail(rest)
  {
    NextLineOf(line, rest);
  }

  /** The concatenation of all chunks is that of the first `i` followed by that of the rest. */
  lemma {:induction false} ConcatSplit(chunks: seq<string>, i: nat)
    requires i <= |chunks|
    ensures Concat(chunks) == Concat(chunks[..i]) + Concat(chunks[i..])
    decreases |chunks|
  {
    if i < |chunks| {
      var n := |chunks| - 1;
      ConcatSplit(chunks[..n], i);
      assert chunks[..n][..i] == chunks[..i];
      assert chunks[i..][..|chunks[i..]| - 1] == chunks[..n][i..];
    } else {
      assert chunks[..i] == chunks;
    }
  }

  /** The chunks of `a + b` concatenate to those of `a` followed by those of `b`. */
  lemma {:induction false} ConcatAppend(a: seq<string>, b: seq<string>)
    ensures Concat(a + b) == Concat(a) + Concat(b)
    decreases |b|
  {
    if b == [] {
      AppendEmpty(a);
      AppendEmpty(Concat(a));
    } else {
      var n := |b| - 1;
      ConcatAppend(a, b[..n]);
      AllButLastOfAppend(a, b);
      AppendAssoc(Concat(a), Concat(b[..n]), b[n]);
    }
  }

  /** Two chunks concatenate to their text joined. */
  lemma ConcatPair(x: string, y: string)
    ensures Concat([x, y]) == x + y && Concat([x + y]) == x + y
  {
    assert [x, y][..1] == [x] && [x][..0] == [] && [x + y][..0] == [];
    assert Concat([x]) == "" + x;
    AppendEmpty(x);
    AppendEmpty(x + y);
  }

  /** Cutting one chunk in two leaves the concatenation of all chunks as it was. */
  lemma ConcatOfSplitChunk(chunks: seq<string>, i: nat, x: string, y: string)
    requires i < |chunks| && chunks[i] == x + y
    ensures Concat(chunks[..i] + [x, y] + chunks[i + 1..]) == Concat(chunks)
  {
    var pre, post := chunks[..i], chunks[i + 1..];
    assert chunks == pre + [x + y] + post;
    ConcatAppend(pre + [x, y], post);
    ConcatAppend(pre, [x, y]);
    ConcatAppend(pre + [x + y], post);
    ConcatAppend(pre, [x + y]);
    ConcatPair(x, y);
  }

  /** `if (line.endsWith("\r")) line = line.slice(0, -1)`: at most one trailing `\r` goes. */
  function StripCR(line: string): (r: string)
    ensures r == line || line == r + "\r"
    ensures r != line <==> |line| > 0 && line[|line| - 1] == '\r'
  {
    if |line| > 0 && line[|line| - 1] == '\r' then line[..|line| - 1] else line
  }

  const DataPrefix: string := "data: "
  const DoneMarker: string := "[DONE]"

  /** What the reader makes of one complete line. */
  datatype Frame =
    | Comment            // starts with `:`
    | Blank              // whitespace only
    | NotData            // any other line not starting with `data: `
    | DoneSentinel       // `data: ` then `[DONE]`, up to surrounding whitespace
    | Data(payload: string)  // `data: ` then a JSON payload, trimmed

  /** The classification of a line, in the order the reader tests it. */
  function Classify(line: string): Frame {
    if ":" <= line || Trim(line) == "" then
      (if ":" <= line then Comment else Blank)
    else if !(DataPrefix <= line) then NotData
    else
      var json := Trim(line[|DataPrefix|..]);
      if json == DoneMarker then DoneSentinel else Data(json)
  }

  /**
   * The kinds of line are told apart by their first characters and their
   * trimmed text alone: a comment starts with `:`, a blank line is all
   * whitespace, and a `data: ` line is `[DONE]` or carries its trimmed payload.
   */
  lemma ClassifyCases(line: string)
    ensures Classify(line).Comment? <==> ":" <= line
    ensures Classify(line).Blank? <==> !(":" <= line) && forall i :: 0 <= i < |line| ==> IsWhitespace(line[i])
    ensures Classify(line).NotData? <==> !(":" <= line) && !(DataPrefix <= line) && exists i :: 0 <= i < |line| && !IsWhitespace(line[i])
    ensures Classify(line).DoneSentinel? <==> DataPrefix <= line && Trim(line[|DataPrefix|..]) == DoneMarker
    ensures Classify(line).Data? <==> DataPrefix <= line && Trim(line[|DataPrefix|..]) != DoneMarker
    ensures Classify(line).Data? ==> Classify(line).payload == Trim(line[|DataPrefix|..])
  {
    TrimBlank(line);
    assert DataPrefix <= line ==> line[0] == 'd';
  }

  /**
   * A data line that was stripped once and pushed back is classified the
   * same way when it is cut and stripped again: the prefix `data: ` cannot
   * lose a character to the strip, and trimming already drops a trailing `\r`.
   */
  lemma ReclassifyPushedBack(raw: string)
    requires Classify(StripCR(raw)).Data?
    ensures Classify(StripCR(StripCR(raw))) == Classify(StripCR(raw))
  {
    var line := StripCR(raw);
    var again := StripCR(line);
    ClassifyCases(line);
    if again != line {
      assert line[|DataPrefix| - 1] == ' ';
      assert |again| >= |DataPrefix| && line[..|again|] == again;
      assert DataPrefix <= again;
      SuffixOfExtended(again, '\r', |DataPrefix|);
      TrimIgnoresTrailingWhitespace(again[|DataPrefix|..], '\r');
      ClassifyCases(again);
    }
  }}
