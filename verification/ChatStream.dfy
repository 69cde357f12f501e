/** OpenAI chat streams turned into Anthropic message streams, chunk by chunk. */
module ChatStream {
  import opened Prelude
  import opened Framing

  /** What the code reads of a chat chunk; zero and the empty string stand for absent values. */
  datatype Usage = Usage(prompt: int, completion: int)
  datatype ChatObj = ChatObj(usage: Option<Usage>, finish: string, content: string)

  /** A JSON decoder, as an arbitrary partial function. */
  type Decoder = string -> Option<ChatObj>

  datatype Event =
    | MessageStart(inputTokens: int)
    | BlockStart
    | BlockDelta(text: string)
    | BlockStop
    | MessageDelta(stopReason: string, outputTokens: int)
    | MessageStop

  datatype State = State(started: bool, contentStarted: bool, prompt: int, completion: int, stop: string)

  const INITIAL := State(false, false, 0, 0, "end_turn")

  function StopReason(finish: string): string {
    if finish == "length" then "max_tokens"
    else if finish == "tool_calls" then "tool_use"
    else if finish == "content_filter" then "stop_sequence"
    else "end_turn"
  }

  function Starting(st: State): seq<Event> {
    (if st.started then [] else [MessageStart(st.prompt)]) + if st.contentStarted then [] else [BlockStart]
  }

  function Absorb(st: State, o: ChatObj): (State, seq<Event>) {
    var st := if o.usage.None? then st else
      st.(prompt := if o.usage.value.prompt != 0 then o.usage.value.prompt else st.prompt,
          completion := if o.usage.value.completion != 0 then o.usage.value.completion else st.completion);
    var st := if o.finish == "" then st else st.(stop := StopReason(o.finish));
    if o.content == "" then (st, [])
    else (st.(started := true, contentStarted := true), Starting(st) + [BlockDelta(o.content)])
  }

  function AbsorbAll(st: State, os: seq<ChatObj>): (State, seq<Event>) {
    if os == [] then (st, [])
    else
      var (mid, early) := AbsorbAll(st, os[..|os| - 1]);
      var (end, late) := Absorb(mid, os[|os| - 1]);
      (end, early + late)
  }

  function Finish(st: State): seq<Event> {
    Starting(st) + [BlockStop, MessageDelta(st.stop, st.completion), MessageStop]
  }

  // ---- reading a frame --------------------------------------------------------------------------

  function LineObj(decode: Decoder, line: string): Option<ChatObj> {
    var line := Strip(line);
    if !StartsWith(line, "data:") then None
    else
      var raw := Strip(line[5..]);
      if raw == "" || raw == "[DONE]" then None else decode(raw)
  }

  function LineObjs(decode: Decoder, lines: seq<string>): seq<ChatObj> {
    if lines == [] then []
    else
      LineObjs(decode, lines[..|lines| - 1])
      + match LineObj(decode, lines[|lines| - 1]) case None => [] case Some(o) => [o]
  }

  function FrameObjs(decode: Decoder, frames: seq<string>): seq<ChatObj> {
    if frames == [] then []
    else FrameObjs(decode, frames[..|frames| - 1]) + LineObjs(decode, SplitLines(frames[|frames| - 1]))
  }

  function Handler(decode: Decoder): (State, string) -> (State, seq<Event>) {
    (st, frame) => AbsorbAll(st, LineObjs(decode, SplitLines(frame)))
  }

  // ---- what a whole stream becomes --------------------------------------------------------------

  function Contents(os: seq<ChatObj>): seq<Event> {
    if os == [] then []
    else Contents(os[..|os| - 1]) + if os[|os| - 1].content == "" then [] else [BlockDelta(os[|os| - 1].content)]
  }

  function LastStop(os: seq<ChatObj>): string {
    if os == [] then "end_turn"
    else if os[|os| - 1].finish != "" then StopReason(os[|os| - 1].finish)
    else LastStop(os[..|os| - 1])
  }

  function LastCompletion(os: seq<ChatObj>): int {
    if os == [] then 0
    else if os[|os| - 1].usage.Some? && os[|os| - 1].usage.value.completion != 0
    then os[|os| - 1].usage.value.completion
    else LastCompletion(os[..|os| - 1])
  }

  function LastPrompt(os: seq<ChatObj>): int {
    if os == [] then 0
    else if os[|os| - 1].usage.Some? && os[|os| - 1].usage.value.prompt != 0 then os[|os| - 1].usage.value.prompt
    else LastPrompt(os[..|os| - 1])
  }

  /** Prompt tokens known when the first text arrived, which is when the opening event is sent. */
  function PromptAtStart(os: seq<ChatObj>): int {
    if os == [] then 0
    else if Contents(os[..|os| - 1]) != [] then PromptAtStart(os[..|os| - 1])
    else LastPrompt(os)
  }

  function Opening(os: seq<ChatObj>): seq<Event> {
    if Contents(os) == [] then [] else [MessageStart(PromptAtStart(os)), BlockStart]
  }

  lemma {:induction false} AbsorbAllMeaning(os: seq<ChatObj>)
    ensures var (st, events) := AbsorbAll(INITIAL, os);
            && st == State(Contents(os) != [], Contents(os) != [], LastPrompt(os), LastCompletion(os), LastStop(os))
            && events == Opening(os) + Contents(os)
  {
    if os != [] { AbsorbAllMeaning(os[..|os| - 1]); }
  }

  lemma {:induction false} AbsorbAllAppend(st: State, a: seq<ChatObj>, b: seq<ChatObj>)
    ensures var (mid, early) := AbsorbAll(st, a);
            var (end, late) := AbsorbAll(mid, b);
            AbsorbAll(st, a + b).0 == end && AbsorbAll(st, a + b).1 == early + late
  {
    hide Absorb;
    if b == [] {
      assert a + b == a;
    } else {
      assert (a + b)[..|a + b| - 1] == a + b[..|b| - 1];
      AbsorbAllAppend(st, a, b[..|b| - 1]);
    }
  }

  lemma {:induction false} FoldIsAbsorb(decode: Decoder, frames: seq<string>)
    ensures Fold(Handler(decode), INITIAL, frames).0 == AbsorbAll(INITIAL, FrameObjs(decode, frames)).0
    ensures Fold(Handler(decode), INITIAL, frames).1 == AbsorbAll(INITIAL, FrameObjs(decode, frames)).1
  {
    if frames != [] {
      var n := |frames| - 1;
      FoldIsAbsorb(decode, frames[..n]);
      AbsorbAllAppend(INITIAL, FrameObjs(decode, frames[..n]), LineObjs(decode, SplitLines(frames[n])));
    }
  }

  /** For any decoder and any cut of the text into chunks, the events are one message: opened once
      before the first text, one delta for each non-empty content in order, closed once with the
      last stop reason and completion count. */
  lemma {:induction false} StreamIsOneMessage(decode: Decoder, chunks: seq<string>)
    ensures var (p, events) := FeedAll(Handler(decode), Parser("", INITIAL), chunks);
            var os := FrameObjs(decode, Frames(Concat(chunks)));
            events + Finish(p.state)
            == [MessageStart(if Contents(os) == [] then LastPrompt(os) else PromptAtStart(os)), BlockStart]
               + Contents(os) + [BlockStop, MessageDelta(LastStop(os), LastCompletion(os)), MessageStop]
  {
    hide AbsorbAll, Fold, FrameObjs, Contents, LastStop, LastCompletion, LastPrompt, PromptAtStart, FeedAll, Concat;
    var text := Concat(chunks);
    var os := FrameObjs(decode, Frames(text));
    ChunkingIsIrrelevant(Handler(decode), Parser("", INITIAL), chunks);
    assert "" + text == text;
    FoldIsAbsorb(decode, Frames(text));
    AbsorbAllMeaning(os);
  }

  // ---- what the counts, the reason and the texts are -------------------------------------------

  function PromptOf(o: ChatObj): int { if o.usage.Some? then o.usage.value.prompt else 0 }

  function CompletionOf(o: ChatObj): int { if o.usage.Some? then o.usage.value.completion else 0 }

  /** `n` is what the k-th chunk reports, the last that reports anything but zero. */
  ghost predicate ReportedAt(os: seq<ChatObj>, number: ChatObj -> int, n: int, k: int) {
    0 <= k < |os| && number(os[k]) == n != 0 && forall j | k < j < |os| :: number(os[j]) == 0
  }

  /** `n` is the last number reported that is not zero, or zero if none is. */
  ghost predicate LastReported(os: seq<ChatObj>, number: ChatObj -> int, n: int) {
    || (exists k :: ReportedAt(os, number, n, k))
    || (n == 0 && forall j | 0 <= j < |os| :: number(os[j]) == 0)
  }

  lemma {:induction false} ReportedPush(os: seq<ChatObj>, o: ChatObj, number: ChatObj -> int, n: int)
    requires LastReported(os, number, n)
    ensures LastReported(os + [o], number, if number(o) != 0 then number(o) else n)
  {
    var all := os + [o];
    assert all[|os|] == o && forall j | 0 <= j < |os| :: all[j] == os[j];
    if number(o) != 0 {
      assert ReportedAt(all, number, number(o), |os|);
    } else if k :| ReportedAt(os, number, n, k) {
      assert ReportedAt(all, number, n, k);
    }
  }

  /** The counts are the last ones reported that are not zero, or zero if none is. */
  lemma {:induction false} CountsAreTheLastReported(os: seq<ChatObj>)
    ensures LastReported(os, PromptOf, LastPrompt(os))
    ensures LastReported(os, CompletionOf, LastCompletion(os))
  {
    if os != [] {
      hide LastReported;
      var n := |os| - 1;
      CountsAreTheLastReported(os[..n]);
      ReportedPush(os[..n], os[n], PromptOf, LastPrompt(os[..n]));
      ReportedPush(os[..n], os[n], CompletionOf, LastCompletion(os[..n]));
      assert os[..n] + [os[n]] == os;
    }
  }

  /** The stop reason is that of the last finish reason given, "end_turn" if none is. */
  lemma {:induction false} StopIsTheLastGiven(os: seq<ChatObj>)
    ensures (LastStop(os) == "end_turn" && forall j | 0 <= j < |os| :: os[j].finish == "")
            || exists k :: StopsAt(os, k, LastStop(os))
  {
    if os != [] {
      var n := |os| - 1;
      StopIsTheLastGiven(os[..n]);
      if os[n].finish != "" {
        assert StopsAt(os, n, LastStop(os));
      } else if k :| StopsAt(os[..n], k, LastStop(os)) {
        assert StopsAt(os, k, LastStop(os));
      }
    }
  }

  /** The k-th chunk gives the last finish reason, and `reason` is how Anthropic calls it. */
  ghost predicate StopsAt(os: seq<ChatObj>, k: int, reason: string) {
    && 0 <= k < |os| && os[k].finish != "" && (forall j | k < j < |os| :: os[j].finish == "")
    && (os[k].finish == "length" ==> reason == "max_tokens")
    && (os[k].finish == "tool_calls" ==> reason == "tool_use")
    && (os[k].finish == "content_filter" ==> reason == "stop_sequence")
    && (os[k].finish !in ["length", "tool_calls", "content_filter"] ==> reason == "end_turn")
  }

  /** Later chunks add their texts after those before. */
  lemma {:induction false} ContentsInOrder(os: seq<ChatObj>, more: seq<ChatObj>)
    ensures Contents(os + more) == Contents(os) + Contents(more)
  {
    if more == [] {
      assert os + more == os;
    } else {
      var n := |more| - 1;
      assert (os + more)[..|os| + n] == os + more[..n];
      ContentsInOrder(os, more[..n]);
    }
  }

  lemma {:induction false} ContentOfOne(o: ChatObj)
    ensures Contents([o]) == if o.content == "" then [] else [BlockDelta(o.content)]
  {
    assert [o][..0] == [];
  }

  /** The opening shows the prompt tokens known when the first text arrived. */
  lemma {:induction false} OpeningShowsPrompt(os: seq<ChatObj>, k: nat)
    requires k < |os| && os[k].content != "" && forall j | 0 <= j < k :: os[j].content == ""
    ensures PromptAtStart(os) == LastPrompt(os[..k + 1])
  {
    var n := |os| - 1;
    if k == n {
      NoContents(os[..n]);
      assert os[..k + 1] == os;
    } else {
      OpeningShowsPrompt(os[..n], k);
      assert os[..n][..k + 1] == os[..k + 1];
      SomeContents(os[..n], k);
    }
  }

  lemma {:induction false} NoContents(os: seq<ChatObj>)
    requires forall j | 0 <= j < |os| :: os[j].content == ""
    ensures Contents(os) == []
  {
    if os != [] { NoContents(os[..|os| - 1]); }
  }

  lemma {:induction false} SomeContents(os: seq<ChatObj>, k: nat)
    requires k < |os| && os[k].content != ""
    ensures Contents(os) != []
  {
    if k < |os| - 1 { SomeContents(os[..|os| - 1], k); }
  }

  // ---- a printed chat stream --------------------------------------------------------------------

  /** What a JSON encoder does for a chunk: it can be read back, is one line without space around it,
      and is not the end marker. */
  ghost predicate Encodes(encode: ChatObj -> string, decode: Decoder, o: ChatObj) {
    var s := encode(o);
    && decode(s) == Some(o) && s != "" && s != "[DONE]"
    && !Space(s[0]) && !Space(s[|s| - 1]) && forall j | 0 <= j < |s| :: !LineBreak(s[j])
  }

  function PrintChat(encode: ChatObj -> string, os: seq<ChatObj>): string {
    if os == [] then "data: [DONE]\n\n"
    else "data: " + encode(os[0]) + "\n\n" + PrintChat(encode, os[1..])
  }

  /** A data line is decoded, the end marker is skipped, and so is every line of another kind. */
  lemma {:induction false} LineCarries(decode: Decoder, t: string)
    requires t != "" && !Space(t[0]) && !Space(t[|t| - 1])
    ensures LineObj(decode, "data: " + t) == if t == "[DONE]" then None else decode(t)
    ensures t[0] != 'd' ==> LineObj(decode, t) == None
  {
    hide Strip;
    StripAfter("data: ", t);
    StripKeeps(t);
    assert ("data: " + t)[5..] == " " + t;
    StripSpace(t);
    assert StartsWith("data: " + t, "data:");
  }

  lemma {:induction false} FrameCarries(decode: Decoder, t: string)
    requires t != "" && !Space(t[0]) && !Space(t[|t| - 1]) && forall j | 0 <= j < |t| :: !LineBreak(t[j])
    ensures LineObjs(decode, SplitLines("data: " + t))
            == if t == "[DONE]" || decode(t).None? then [] else [decode(t).value]
  {
    hide LineObj;
    LineCarries(decode, t);
    DataLineHasNoBreak(t);
    OneLine("data: " + t);
    assert ["data: " + t][..0] == [];
  }

  lemma {:induction false} FrameObjsFirst(decode: Decoder, frame: string, frames: seq<string>)
    ensures FrameObjs(decode, [frame] + frames) == LineObjs(decode, SplitLines(frame)) + FrameObjs(decode, frames)
  {
    hide LineObjs, SplitLines;
    if frames == [] {
      assert [frame] + frames == [frame] && [frame][..0] == [];
    } else {
      var n := |frames| - 1;
      assert ([frame] + frames)[..1 + n] == [frame] + frames[..n];
      FrameObjsFirst(decode, frame, frames[..n]);
    }
  }

  lemma {:induction false} DataFrameOff(t: string, rest: string)
    requires t != "" && forall j | 0 <= j < |t| :: !LineBreak(t[j])
    ensures Frames("data: " + t + "\n\n" + rest) == ["data: " + t] + Frames(rest)
  {
    DataLineHasNoBreak(t);
    FrameOff("data: " + t, rest);
  }

  lemma {:induction false} ChatReadsBack(encode: ChatObj -> string, decode: Decoder, os: seq<ChatObj>)
    requires forall o | o in os :: Encodes(encode, decode, o)
    ensures FrameObjs(decode, Frames(PrintChat(encode, os))) == os
  {
    hide Frames, FrameObjs, LineObjs, SplitLines;
    if os == [] {
      assert "data: [DONE]\n\n" == "data: " + "[DONE]" + "\n\n" + "";
      DataFrameOff("[DONE]", "");
      NoFrames(decode);
      FrameObjsFirst(decode, "data: " + "[DONE]", []);
      FrameCarries(decode, "[DONE]");
    } else {
      var t, rest := encode(os[0]), PrintChat(encode, os[1..]);
      assert Encodes(encode, decode, os[0]);
      DataFrameOff(t, rest);
      FrameObjsFirst(decode, "data: " + t, Frames(rest));
      FrameCarries(decode, t);
      ChatReadsBack(encode, decode, os[1..]);
      assert os == [os[0]] + os[1..];
    }
  }

  lemma {:induction false} NoFrames(decode: Decoder)
    ensures Frames("") == [] && FrameObjs(decode, []) == []
  {
  }

  /** A chat stream printed chunk by chunk and cut anywhere becomes the one message of its chunks. */
  lemma {:induction false} PrintedChatIsOneMessage(
      encode: ChatObj -> string, decode: Decoder, os: seq<ChatObj>, chunks: seq<string>)
    requires (forall o | o in os :: Encodes(encode, decode, o)) && Concat(chunks) == PrintChat(encode, os)
    ensures var (p, events) := FeedAll(Handler(decode), Parser("", INITIAL), chunks);
            events + Finish(p.state)
            == [MessageStart(if Contents(os) == [] then LastPrompt(os) else PromptAtStart(os)), BlockStart]
               + Contents(os) + [BlockStop, MessageDelta(LastStop(os), LastCompletion(os)), MessageStop]
  {
    hide FeedAll, Contents, LastPrompt, PromptAtStart, LastStop, LastCompletion, Finish;
    ChatReadsBack(encode, decode, os);
    StreamIsOneMessage(decode, chunks);
  }

  function OnLine(decode: Decoder, st: State, line: string): (State, seq<Event>) {
    match LineObj(decode, line) case None => (st, []) case Some(o) => Absorb(st, o)
  }

  lemma {:induction false} NextLine(decode: Decoder, st: State, lines: seq<string>, k: nat)
    requires k < |lines|
    ensures var (mid, early) := AbsorbAll(st, LineObjs(decode, lines[..k]));
            var (end, late) := OnLine(decode, mid, lines[k]);
            && AbsorbAll(st, LineObjs(decode, lines[..k + 1])).0 == end
            && AbsorbAll(st, LineObjs(decode, lines[..k + 1])).1 == early + late
  {
    assert lines[..k + 1][..k] == lines[..k];
    var os := LineObjs(decode, lines[..k]);
    match LineObj(decode, lines[k])
    case None => assert LineObjs(decode, lines[..k + 1]) == os;
    case Some(o) =>
      assert LineObjs(decode, lines[..k + 1]) == os + [o];
      assert (os + [o])[..|os|] == os;
  }

  // ---- the converter as the code updates it -----------------------------------------------------

  class OpenAIToAnthropicStream {
    const decode: Decoder
    var buffer: string
    var started: bool
    var contentStarted: bool
    var promptTokens: int
    var completionTokens: int
    var stopReason: string

    ghost function Here(): State
      reads this
    {
      State(started, contentStarted, promptTokens, completionTokens, stopReason)
    }

    constructor (decode: Decoder)
      ensures this.decode == decode && buffer == "" && Here() == INITIAL
    {
      this.decode := decode;
      buffer, started, contentStarted, promptTokens, completionTokens, stopReason := "", false, false, 0, 0, "end_turn";
    }

    method EnsureStarted() returns (events: seq<Event>)
      modifies this
      ensures events == Starting(old(Here())) && buffer == old(buffer)
      ensures Here() == old(Here()).(started := true, contentStarted := true)
    {
      events := [];
      if !started {
        started := true;
        events := events + [MessageStart(promptTokens)];
      }
      if !contentStarted {
        contentStarted := true;
        events := events + [BlockStart];
      }
    }

    method FeedObject(o: ChatObj) returns (events: seq<Event>)
      modifies this
      ensures (Here(), events) == Absorb(old(Here()), o) && buffer == old(buffer)
    {
      events := [];
      if o.usage.Some? {
        promptTokens := if o.usage.value.prompt != 0 then o.usage.value.prompt else promptTokens;
        completionTokens := if o.usage.value.completion != 0 then o.usage.value.completion else completionTokens;
      }
      if o.finish != "" {
        stopReason := StopReason(o.finish);
      }
      if o.content != "" {
        events := EnsureStarted();
        events := events + [BlockDelta(o.content)];
      }
    }

    method FeedLine(text: string) returns (events: seq<Event>)
      modifies this
      ensures (Here(), events) == OnLine(decode, old(Here()), text) && buffer == old(buffer)
    {
      var line := Strip(text);
      if !StartsWith(line, "data:") {
        return [];
      }
      var raw := Strip(line[5..]);
      if raw == "" || raw == "[DONE]" {
        return [];
      }
      var o := decode(raw);
      if o.None? {
        return [];
      }
      events := FeedObject(o.value);
    }

    method FeedPart(part: string) returns (events: seq<Event>)
      modifies this
      ensures (Here(), events) == Handler(decode)(old(Here()), part) && buffer == old(buffer)
    {
      var lines := SplitLines(part);
      events := [];
      for k := 0 to |lines|
        invariant buffer == old(buffer)
        invariant Here() == AbsorbAll(old(Here()), LineObjs(decode, lines[..k])).0
        invariant events == AbsorbAll(old(Here()), LineObjs(decode, lines[..k])).1
      {
        NextLine(decode, old(Here()), lines, k);
        var more := FeedLine(lines[k]);
        events := events + more;
      }
      assert lines[..|lines|] == lines;
    }

    method FeedChunk(chunk: string) returns (events: seq<Event>)
      modifies this
      ensures Parser(buffer, Here()) == Feed(Handler(decode), Parser(old(buffer), old(Here())), chunk).0
      ensures events == Feed(Handler(decode), Parser(old(buffer), old(Here())), chunk).1
    {
      buffer := buffer + chunk;
      ghost var text := buffer;
      var parts := Split(buffer);
      buffer := parts[|parts| - 1];
      parts := parts[..|parts| - 1];
      events := [];
      for k := 0 to |parts|
        invariant buffer == Leftover(text)
        invariant Here() == Fold(Handler(decode), old(Here()), parts[..k]).0
        invariant events == Fold(Handler(decode), old(Here()), parts[..k]).1
      {
        assert parts[..k + 1][..k] == parts[..k];
        var more := FeedPart(parts[k]);
        events := events + more;
      }
      assert parts[..|parts|] == parts;
    }

    method FinishStream() returns (events: seq<Event>)
      modifies this
      ensures events == Finish(old(Here()))
    {
      events := EnsureStarted();
      events := events + [BlockStop, MessageDelta(stopReason, completionTokens), MessageStop];
    }
  }
}
