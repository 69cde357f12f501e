/** Chat streams turned into Responses streams, printed as text, cut anywhere, and turned back. */
module ResponsesStream {
  import opened Prelude
  import opened Framing
  import opened ChatStream

  /** Responses events. Identifiers and the model name are the same in all of them and left out. */
  datatype Response =
    | Created
    | ItemAdded
    | PartAdded
    | TextDelta(text: string)
    | TextDone(text: string)
    | PartDone(text: string)
    | ItemDone(text: string)
    | Completed(text: string, input: int, output: int)
    | OtherEvent

  function Name(e: Response): string {
    match e
    case Created => "response.created"
    case ItemAdded => "response.output_item.added"
    case PartAdded => "response.content_part.added"
    case TextDelta(_) => "response.output_text.delta"
    case TextDone(_) => "response.output_text.done"
    case PartDone(_) => "response.content_part.done"
    case ItemDone(_) => "response.output_item.done"
    case Completed(_, _, _) => "response.completed"
    case OtherEvent => "other"
  }

  function TextOf(e: Response): string {
    if e.Created? || e.ItemAdded? || e.PartAdded? || e.OtherEvent? then "" else e.text
  }

  // ---- chat to Responses ------------------------------------------------------------------------

  function Texts(os: seq<ChatObj>): seq<string> {
    if os == [] then []
    else Texts(os[..|os| - 1]) + if os[|os| - 1].content == "" then [] else [os[|os| - 1].content]
  }

  function Deltas(texts: seq<string>): (r: seq<Response>)
    ensures |r| == |texts|
  {
    seq(|texts|, i requires 0 <= i < |texts| => TextDelta(texts[i]))
  }

  /** The stream a chat stream becomes: opened, one delta per non-empty text, closed with the
      joined text and the last token counts. */
  function Responses(os: seq<ChatObj>): seq<Response> {
    var texts := Texts(os);
    var joined := Concat(texts);
    [Created, ItemAdded, PartAdded] + Deltas(texts)
    + [TextDone(joined), PartDone(joined), ItemDone(joined), Completed(joined, LastPrompt(os), LastCompletion(os))]
  }

  lemma {:induction false} NoChunks()
    ensures LastPrompt([]) == 0 && LastCompletion([]) == 0 && Texts([]) == [] && Deltas([]) == []
  {
  }

  lemma {:induction false} NextChunk(os: seq<ChatObj>, k: nat)
    requires k < |os|
    ensures var o, before, after := os[k], os[..k], os[..k + 1];
            && LastPrompt(after) == (if o.usage.Some? && o.usage.value.prompt != 0 then o.usage.value.prompt
                                     else LastPrompt(before))
            && LastCompletion(after) == (if o.usage.Some? && o.usage.value.completion != 0
                                         then o.usage.value.completion else LastCompletion(before))
            && Texts(after) == (if o.content == "" then Texts(before) else Texts(before) + [o.content])
            && (o.content != "" ==> Deltas(Texts(after)) == Deltas(Texts(before)) + [TextDelta(o.content)])
  {
    assert os[..k + 1][..k] == os[..k];
  }

  method ChatToResponses(os: seq<ChatObj>) returns (events: seq<Response>)
    ensures events == Responses(os)
  {
    hide LastPrompt, LastCompletion, Texts, Deltas, Concat;
    NoChunks();
    var prompt, completion, started := 0, 0, false;
    var parts: seq<string> := [];
    events := [];
    for k := 0 to |os|
      invariant prompt == LastPrompt(os[..k]) && completion == LastCompletion(os[..k])
      invariant parts == Texts(os[..k]) && started == (parts != [])
      invariant events == if started then [Created, ItemAdded, PartAdded] + Deltas(parts) else []
    {
      NextChunk(os, k);
      var o := os[k];
      if o.usage.Some? {
        prompt := if o.usage.value.prompt != 0 then o.usage.value.prompt else prompt;
        completion := if o.usage.value.completion != 0 then o.usage.value.completion else completion;
      }
      if o.content != "" {
        parts := parts + [o.content];
        if !started {
          started := true;
          events := events + [Created, ItemAdded, PartAdded];
        }
        events := events + [TextDelta(o.content)];
      }
    }
    assert os[..|os|] == os;
    if !started {
      events := events + [Created, ItemAdded, PartAdded];
    }
    var joined := Concat(parts);
    events := events + [TextDone(joined), PartDone(joined), ItemDone(joined), Completed(joined, prompt, completion)];
  }

  /** Later chunks add their texts after those before; an empty text is no text. */
  lemma {:induction false} TextsInOrder(os: seq<ChatObj>, more: seq<ChatObj>)
    ensures Texts(os + more) == Texts(os) + Texts(more)
  {
    if more == [] {
      assert os + more == os;
    } else {
      var n := |more| - 1;
      assert (os + more)[..|os| + n] == os + more[..n];
      TextsInOrder(os, more[..n]);
    }
  }

  lemma {:induction false} TextOfOne(o: ChatObj)
    ensures Texts([o]) == if o.content == "" then [] else [o.content]
  {
    assert [o][..0] == [];
  }

  /** How far a Responses stream has come, with the text and counts it has shown. */
  datatype Stage =
    | Nothing
    | Opened
    | ItemOpen
    | PartOpen(text: string)
    | TextShut(text: string)
    | PartShut(text: string)
    | ItemShut(text: string)
    | Over(text: string, input: int, output: int)
    | Malformed

  /** The order a client relies on: created, item, part, deltas, then text, part and item done, each
      with the deltas joined, then completed with the same text. */
  function Follow(st: Stage, e: Response): Stage {
    match (st, e)
    case (Nothing, Created) => Opened
    case (Opened, ItemAdded) => ItemOpen
    case (ItemOpen, PartAdded) => PartOpen("")
    case (PartOpen(text), TextDelta(more)) => PartOpen(text + more)
    case (PartOpen(text), TextDone(t)) => if t == text then TextShut(text) else Malformed
    case (TextShut(text), PartDone(t)) => if t == text then PartShut(text) else Malformed
    case (PartShut(text), ItemDone(t)) => if t == text then ItemShut(text) else Malformed
    case (ItemShut(text), Completed(t, input, output)) => if t == text then Over(text, input, output) else Malformed
    case _ => Malformed
  }

  function FollowAll(st: Stage, events: seq<Response>): Stage {
    if events == [] then st else Follow(FollowAll(st, events[..|events| - 1]), events[|events| - 1])
  }

  lemma {:induction false} FollowPush(st: Stage, events: seq<Response>, e: Response)
    ensures FollowAll(st, events + [e]) == Follow(FollowAll(st, events), e)
  {
    hide Follow;
    assert (events + [e])[..|events|] == events;
  }

  lemma {:induction false} FollowDeltas(texts: seq<string>)
    ensures FollowAll(Nothing, [Created, ItemAdded, PartAdded] + Deltas(texts)) == PartOpen(Concat(texts))
  {
    var opening := [Created, ItemAdded, PartAdded];
    if texts == [] {
      assert opening + Deltas(texts) == [] + [Created] + [ItemAdded] + [PartAdded];
      FollowPush(Nothing, [], Created);
      FollowPush(Nothing, [] + [Created], ItemAdded);
      FollowPush(Nothing, [] + [Created] + [ItemAdded], PartAdded);
    } else {
      var n := |texts| - 1;
      FollowDeltas(texts[..n]);
      assert opening + Deltas(texts) == (opening + Deltas(texts[..n])) + [TextDelta(texts[n])];
      FollowPush(Nothing, opening + Deltas(texts[..n]), TextDelta(texts[n]));
    }
  }

  /** Every chat stream becomes a stream a client can follow to its end, showing the joined text and
      the last counts. */
  lemma {:induction false} ResponsesCanBeFollowed(os: seq<ChatObj>)
    ensures FollowAll(Nothing, Responses(os)) == Over(Concat(Texts(os)), LastPrompt(os), LastCompletion(os))
  {
    hide Deltas, Concat, Texts, LastPrompt, LastCompletion, FollowAll;
    var texts := Texts(os);
    var joined := Concat(texts);
    var body := [Created, ItemAdded, PartAdded] + Deltas(texts);
    FollowDeltas(texts);
    FollowPush(Nothing, body, TextDone(joined));
    FollowPush(Nothing, body + [TextDone(joined)], PartDone(joined));
    FollowPush(Nothing, body + [TextDone(joined)] + [PartDone(joined)], ItemDone(joined));
    var last := Completed(joined, LastPrompt(os), LastCompletion(os));
    FollowPush(Nothing, body + [TextDone(joined)] + [PartDone(joined)] + [ItemDone(joined)], last);
    assert Responses(os) == body + [TextDone(joined)] + [PartDone(joined)] + [ItemDone(joined)] + [last];
  }

  // ---- printing ---------------------------------------------------------------------------------

  datatype Codec = Codec(encode: Response -> string, decode: string -> Option<Response>)

  ghost predicate Clean(s: string) { forall i | 0 <= i < |s| :: !WideBreak(s[i]) }

  /** What the code relies on of a JSON encoder that does not escape non-ASCII characters, and of
      a strict decoder: a round trip, an object in braces, no control character, the wide line
      breaks of the text and no others; and text broken off inside a string is not valid, nor is
      it with a raw newline after it. */
  ghost predicate Json(c: Codec, e: Response) {
    var s := c.encode(e);
    && c.decode(s) == Some(e)
    && |s| >= 2 && s[0] == '{' && s[|s| - 1] == '}'
    && (forall i | 0 <= i < |s| && LineBreak(s[i]) :: WideBreak(s[i]))
    && (Clean(s) <==> Clean(TextOf(e)))
    && forall m, n | 0 < m <= n < |s| && WideBreak(s[n]) && (forall j | m <= j < n :: Space(s[j])) :: Broken(c, s[..m])
  }

  ghost predicate Broken(c: Codec, s: string) {
    c.decode(s).None? && forall x :: c.decode(s + "\n" + x).None?
  }

  ghost predicate JsonCodec(c: Codec) { forall e :: Json(c, e) }

  function Body(c: Codec, e: Response): string {
    "event: " + Name(e) + "\ndata: " + c.encode(e)
  }

  function Print(c: Codec, events: seq<Response>): string {
    if events == [] then "data: [DONE]\n\n"
    else Body(c, events[0]) + "\n\n" + Print(c, events[1..])
  }

  // ---- reading a frame --------------------------------------------------------------------------

  /** The data lines of a frame; a [DONE] line discards them all and ends the frame. */
  function DataLines(lines: seq<string>, sofar: seq<string>): seq<string> {
    if lines == [] then sofar
    else
      var line := Strip(lines[0]);
      if StartsWith(line, "event:") || !StartsWith(line, "data:") then DataLines(lines[1..], sofar)
      else
        var raw := Strip(line[5..]);
        if raw == "[DONE]" then [] else DataLines(lines[1..], sofar + [raw])
  }

  function Join(lines: seq<string>): string
    requires lines != []
  {
    if |lines| == 1 then lines[0] else lines[0] + "\n" + Join(lines[1..])
  }

  function ReadFrame(c: Codec, frame: string): Option<Response> {
    var data := DataLines(SplitLines(frame), []);
    if data == [] then None else c.decode(Join(data))
  }

  // ---- Responses to chat ------------------------------------------------------------------------

  datatype Tokens = Tokens(prompt: int, completion: int)

  function OnEvent(t: Tokens, e: Response): (Tokens, seq<string>) {
    match e
    case TextDelta(text) => (t, [text])
    case Completed(_, input, output) =>
      (Tokens(if input != 0 then input else t.prompt, if output != 0 then output else t.completion), [])
    case _ => (t, [])
  }

  /** Back to chat: the state holds the token counts, the output is the text of each chunk sent. */
  function Reader(c: Codec): (Tokens, string) -> (Tokens, seq<string>) {
    (t, frame) => match ReadFrame(c, frame) case None => (t, []) case Some(e) => OnEvent(t, e)
  }

  method ReadEvent(c: Codec, frame: string) returns (e: Option<Response>)
    ensures e == ReadFrame(c, frame)
  {
    var lines := SplitLines(frame);
    var data: seq<string> := [];
    var k := 0;
    while k < |lines|
      invariant k <= |lines| && DataLines(lines, []) == DataLines(lines[k..], data)
    {
      var line := Strip(lines[k]);
      if StartsWith(line, "event:") {
      } else if StartsWith(line, "data:") {
        var raw := Strip(line[5..]);
        if raw == "[DONE]" {
          data := [];
          break;
        }
        data := data + [raw];
      }
      k := k + 1;
    }
    e := if data == [] then None else c.decode(Join(data));
  }

  method ResponsesToChat(c: Codec, chunks: seq<string>) returns (texts: seq<string>, tokens: Tokens)
    ensures var (p, out) := FeedAll(Reader(c), Parser("", Tokens(0, 0)), chunks); texts == out && tokens == p.state
  {
    var p := Parser("", Tokens(0, 0));
    texts := [];
    for k := 0 to |chunks|
      invariant p == FeedAll(Reader(c), Parser("", Tokens(0, 0)), chunks[..k]).0
      invariant texts == FeedAll(Reader(c), Parser("", Tokens(0, 0)), chunks[..k]).1
    {
      assert chunks[..k + 1][..k] == chunks[..k];
      var more;
      p, more := DrainBuffer(Reader(c), p, chunks[k]);
      texts := texts + more;
    }
    assert chunks[..|chunks|] == chunks;
    tokens := p.state;
  }

  // ---- a printed event read back ----------------------------------------------------------------

  lemma {:induction false} NameHasNoBreak(e: Response)
    ensures forall j | 0 <= j < |Name(e)| :: !LineBreak(Name(e)[j])
  {
    match e
    case Created =>
    case ItemAdded =>
    case PartAdded =>
    case TextDelta(_) =>
    case TextDone(_) =>
    case PartDone(_) =>
    case ItemDone(_) =>
    case Completed(_, _, _) =>
    case OtherEvent =>
  }

  /** A line "data: t" adds the stripped t, or ends the frame. */
  lemma {:induction false} OnDataLine(t: string, lines: seq<string>, sofar: seq<string>)
    requires t != "" && !Space(t[0])
    ensures DataLines(["data: " + t] + lines, sofar)
            == if Strip(t) == "[DONE]" then [] else DataLines(lines, sofar + [Strip(t)])
  {
    var line := "data: " + t;
    StripAfter("data: ", t);
    StripKeeps(t);
    var kept := Strip(t);
    assert ("data: " + kept)[5..] == " " + kept;
    StripSpace(kept);
    StripKeeps(kept);
    assert StartsWith("data: " + kept, "data:");
    assert ("data: " + kept)[0] != "event:"[0];
    assert ([line] + lines)[1..] == lines;
  }

  lemma {:induction false} OnEventLine(name: string, lines: seq<string>, sofar: seq<string>)
    ensures DataLines(["event: " + name] + lines, sofar) == DataLines(lines, sofar)
  {
    var line := "event: " + name;
    StripKeeps(line);
    assert StartsWith(Strip(line), "event:") by {
      assert line[5] == ':' && !Space(line[5]);
    }
    assert ([line] + lines)[1..] == lines;
  }

  lemma {:induction false} BodyData(c: Codec, e: Response)
    ensures DataLines(SplitLines(Body(c, e)), []) == DataLines(SplitLines("data: " + c.encode(e)), [])
  {
    NameHasNoBreak(e);
    var head, rest := "event: " + Name(e), "data: " + c.encode(e);
    assert Body(c, e) == head + "\n" + rest;
    LinesTwo(head, rest);
    OnEventLine(Name(e), SplitLines(rest), []);
  }

  lemma {:induction false} SingleData(t: string)
    requires t != "" && !Space(t[0]) && !Space(t[|t| - 1]) && forall j | 0 <= j < |t| :: !LineBreak(t[j])
    ensures DataLines(SplitLines("data: " + t), []) == if t == "[DONE]" then [] else [t]
  {
    var line := "data: " + t;
    assert SplitLines(line) == [line] + [] by {
      DataLineHasNoBreak(t);
      OneLine(line);
    }
    assert Strip(t) == t by { StripKeeps(t); }
    OnDataLine(t, [], []);
    NoMoreData([] + [t]);
  }

  lemma {:induction false} NoMoreData(sofar: seq<string>)
    ensures DataLines([], sofar) == sofar
  {
  }

  lemma {:induction false} CleanEventSurvives(c: Codec, e: Response)
    requires Json(c, e) && Clean(TextOf(e))
    ensures ReadFrame(c, Body(c, e)) == Some(e)
  {
    BodyData(c, e);
    SingleData(c.encode(e));
  }

  lemma {:induction false} DataLinesKeepsFirst(lines: seq<string>, sofar: seq<string>)
    ensures DataLines(lines, sofar) == [] || sofar <= DataLines(lines, sofar)
  {
    if lines != [] {
      var line := Strip(lines[0]);
      if StartsWith(line, "event:") || !StartsWith(line, "data:") {
        DataLinesKeepsFirst(lines[1..], sofar);
      } else {
        DataLinesKeepsFirst(lines[1..], sofar + [Strip(line[5..])]);
      }
    }
  }

  lemma {:induction false} BrokenJoin(c: Codec, lines: seq<string>)
    requires lines != [] && Broken(c, lines[0])
    ensures c.decode(Join(lines)).None?
  {
    if |lines| > 1 {
      assert c.decode(lines[0] + "\n" + Join(lines[1..])).None?;
    }
  }

  lemma {:induction false} StripCut(s: string, n: nat)
    requires 0 < n <= |s| && !Space(s[0])
    ensures var m := |Strip(s[..n])|;
            0 < m <= n && Strip(s[..n]) == s[..m] && forall j | m <= j < n :: Space(s[j])
  {
    var t := s[..n];
    StripKeeps(t);
    var r := StripRight(t);
    assert forall j | |r| <= j < n :: Space(t[j]) && t[j] == s[j];
  }

  lemma {:induction false} BrokenData(c: Codec, first: string, lines: seq<string>)
    requires Broken(c, first)
    ensures var data := DataLines(lines, [first]); data == [] || c.decode(Join(data)).None?
  {
    DataLinesKeepsFirst(lines, [first]);
    var data := DataLines(lines, [first]);
    if data != [] {
      assert data[0] == first;
      BrokenJoin(c, data);
    }
  }

  lemma {:induction false} CutLine(s: string) returns (n: nat, lines: seq<string>)
    requires s != "" && !LineBreak(s[0]) && !Clean(s)
    requires forall i | 0 <= i < |s| && LineBreak(s[i]) :: WideBreak(s[i])
    ensures 0 < n < |s| && WideBreak(s[n])
    ensures SplitLines("data: " + s) == ["data: " + s[..n]] + lines
  {
    var line := "data: " + s;
    var i :| 0 <= i < |s| && WideBreak(s[i]);
    assert line[i + 6] == s[i];
    var p := FirstBreak(line);
    n := p - 6;
    assert line[p] == s[n];
    assert line[..p] == "data: " + s[..n];
    lines := SplitLines(line[p + 1..]);
  }

  /** The first wide break cuts the data line, and nothing after it can repair the object. */
  lemma {:induction false} BrokenEventIsLost(c: Codec, e: Response)
    requires Json(c, e) && !Clean(TextOf(e))
    ensures ReadFrame(c, Body(c, e)) == None
  {
    var s := c.encode(e);
    BodyData(c, e);
    var n, lines := CutLine(s);
    StripCut(s, n);
    var m := |Strip(s[..n])|;
    assert Broken(c, s[..m]);
    OnDataLine(s[..n], lines, []);
    assert [] + [s[..m]] == [s[..m]];
    BrokenData(c, s[..m], lines);
  }

  // ---- the printed stream read back -------------------------------------------------------------

  lemma {:induction false} BodyIsOneFrame(c: Codec, e: Response)
    requires Json(c, e)
    ensures var b := Body(c, e);
            b != "" && b[|b| - 1] != '\n' && forall j | 0 <= j < |b| :: !SepAt(b, j)
  {
    NameHasNoBreak(e);
    var head, s := "event: " + Name(e), c.encode(e);
    var b := Body(c, e);
    assert b == head + "\ndata: " + s;
    assert forall j | 0 <= j < |b| && j != |head| :: b[j] != '\n';
  }

  /** Events whose text holds no wide line break. */
  function Survivors(c: Codec, events: seq<Response>): seq<Response> {
    if events == [] then []
    else (match ReadFrame(c, Body(c, events[0])) case None => [] case Some(e) => [e]) + Survivors(c, events[1..])
  }

  function OnEvents(t: Tokens, events: seq<Response>): (Tokens, seq<string>)
    decreases |events|
  {
    if events == [] then (t, [])
    else
      var (mid, early) := OnEvent(t, events[0]);
      var (end, late) := OnEvents(mid, events[1..]);
      (end, early + late)
  }

  const DONE := "data: [DONE]"

  lemma {:induction false} DoneIsOneFrame()
    ensures Frames("data: [DONE]\n\n") == [DONE] && Leftover("data: [DONE]\n\n") == ""
  {
    assert DONE + "\n\n" + "" == "data: [DONE]\n\n";
    assert forall j | 0 <= j < |DONE| :: DONE[j] != '\n';
    FrameOff(DONE, "");
  }

  lemma {:induction false} DoneIsSkipped(c: Codec, t: Tokens)
    ensures Reader(c)(t, DONE) == (t, [])
  {
    assert DONE == "data: " + "[DONE]";
    SingleData("[DONE]");
  }

  /** Reading the whole printed text gives the events that survive, in order. */
  lemma {:induction false} PrintedReadsBack(c: Codec, events: seq<Response>, t: Tokens)
    requires forall e | e in events :: Json(c, e)
    ensures var (end, out) := Fold(Reader(c), t, Frames(Print(c, events)));
            && end == OnEvents(t, Survivors(c, events)).0
            && out == OnEvents(t, Survivors(c, events)).1
            && Leftover(Print(c, events)) == ""
  {
    if events == [] {
      DoneIsOneFrame();
      DoneIsSkipped(c, t);
      FoldFirst(Reader(c), t, DONE, []);
      assert [DONE] + [] == [DONE];
    } else {
      var body, rest := Body(c, events[0]), Print(c, events[1..]);
      BodyIsOneFrame(c, events[0]);
      FrameOff(body, rest);
      FoldFirst(Reader(c), t, body, Frames(rest));
      var (mid, early) := Reader(c)(t, body);
      PrintedReadsBack(c, events[1..], mid);
      OneMore(c, events, t);
    }
  }

  lemma {:induction false} OneMore(c: Codec, events: seq<Response>, t: Tokens)
    requires events != []
    ensures var (mid, early) := Reader(c)(t, Body(c, events[0]));
            var (end, late) := OnEvents(mid, Survivors(c, events[1..]));
            && OnEvents(t, Survivors(c, events)).0 == end
            && OnEvents(t, Survivors(c, events)).1 == early + late
  {
    match ReadFrame(c, Body(c, events[0]))
    case None => assert Survivors(c, events) == Survivors(c, events[1..]);
    case Some(e) =>
      var rest := Survivors(c, events[1..]);
      assert Survivors(c, events) == [e] + rest;
      assert ([e] + rest)[1..] == rest;
  }

  // ---- there and back ---------------------------------------------------------------------------

  ghost predicate AllClean(texts: seq<string>) {
    forall k | 0 <= k < |texts| :: Clean(texts[k])
  }

  lemma {:induction false} ConcatClean(texts: seq<string>)
    ensures Clean(Concat(texts)) <==> AllClean(texts)
  {
    if texts != [] {
      var n := |texts| - 1;
      var head, last := Concat(texts[..n]), texts[n];
      ConcatClean(texts[..n]);
      assert forall i | 0 <= i < |last| :: (head + last)[|head| + i] == last[i];
      assert forall i | 0 <= i < |head| :: (head + last)[i] == head[i];
    }
  }

  /** The texts of a chat stream that hold no wide line break. */
  ghost function CleanTexts(texts: seq<string>): seq<string> {
    if texts == [] then [] else (if Clean(texts[0]) then [texts[0]] else []) + CleanTexts(texts[1..])
  }

  lemma {:induction false} SurvivesIffClean(c: Codec, e: Response)
    requires Json(c, e)
    ensures ReadFrame(c, Body(c, e)) == if Clean(TextOf(e)) then Some(e) else None
  {
    if Clean(TextOf(e)) { CleanEventSurvives(c, e); } else { BrokenEventIsLost(c, e); }
  }

  lemma {:induction false} SurvivorsAppend(c: Codec, a: seq<Response>, b: seq<Response>)
    ensures Survivors(c, a + b) == Survivors(c, a) + Survivors(c, b)
  {
    hide ReadFrame, Body;
    if a == [] {
      assert a + b == b;
    } else {
      assert (a + b)[1..] == a[1..] + b;
      SurvivorsAppend(c, a[1..], b);
    }
  }

  lemma {:induction false} OnEventsAppend(t: Tokens, a: seq<Response>, b: seq<Response>)
    ensures var (mid, early) := OnEvents(t, a);
            var (end, late) := OnEvents(mid, b);
            OnEvents(t, a + b).0 == end && OnEvents(t, a + b).1 == early + late
    decreases |a|
  {
    if a == [] {
      assert a + b == b;
    } else {
      assert (a + b)[1..] == a[1..] + b;
      OnEventsAppend(OnEvent(t, a[0]).0, a[1..], b);
    }
  }

  lemma {:induction false} DeltasReadBack(c: Codec, texts: seq<string>, t: Tokens)
    requires JsonCodec(c)
    ensures OnEvents(t, Survivors(c, Deltas(texts))).0 == t
    ensures OnEvents(t, Survivors(c, Deltas(texts))).1 == CleanTexts(texts)
  {
    if texts != [] {
      var events := Deltas(texts);
      assert events[1..] == Deltas(texts[1..]);
      DeltasReadBack(c, texts[1..], t);
      SurvivesIffClean(c, events[0]);
      OneMore(c, events, t);
    }
  }

  lemma {:induction false} SurvivorsOfOne(c: Codec, e: Response)
    requires Json(c, e)
    ensures Survivors(c, [e]) == if Clean(TextOf(e)) then [e] else []
  {
    SurvivesIffClean(c, e);
    assert [e][1..] == [];
  }

  lemma {:induction false} OnOne(t: Tokens, e: Response)
    ensures OnEvents(t, [e]).0 == OnEvent(t, e).0 && OnEvents(t, [e]).1 == OnEvent(t, e).1
  {
    assert [e][1..] == [];
  }

  lemma {:induction false} QuietReadBack(c: Codec, events: seq<Response>, t: Tokens)
    requires JsonCodec(c) && forall e | e in events :: !e.TextDelta? && !e.Completed?
    ensures OnEvents(t, Survivors(c, events)).0 == t && OnEvents(t, Survivors(c, events)).1 == []
  {
    if events != [] {
      QuietReadBack(c, events[1..], t);
      SurvivesIffClean(c, events[0]);
      OneMore(c, events, t);
    }
  }

  lemma {:induction false} LastReadBack(c: Codec, joined: string, input: int, output: int)
    requires JsonCodec(c)
    ensures var t := OnEvents(Tokens(0, 0), Survivors(c, [Completed(joined, input, output)]));
            t.1 == [] && t.0 == if Clean(joined) then Tokens(input, output) else Tokens(0, 0)
  {
    var e := Completed(joined, input, output);
    SurvivorsOfOne(c, e);
    OnOne(Tokens(0, 0), e);
  }

  lemma {:induction false} ResponsesReadBack(c: Codec, os: seq<ChatObj>)
    requires JsonCodec(c)
    ensures var (tokens, texts) := OnEvents(Tokens(0, 0), Survivors(c, Responses(os)));
            && texts == CleanTexts(Texts(os))
            && tokens == if AllClean(Texts(os)) then Tokens(LastPrompt(os), LastCompletion(os)) else Tokens(0, 0)
  {
    hide Survivors, OnEvents, Deltas, CleanTexts, Concat, Texts, LastPrompt, LastCompletion, JsonCodec;
    var texts := Texts(os);
    var joined := Concat(texts);
    var zero := Tokens(0, 0);
    var opening := [Created, ItemAdded, PartAdded];
    var done := [TextDone(joined), PartDone(joined), ItemDone(joined)];
    var last := [Completed(joined, LastPrompt(os), LastCompletion(os))];
    assert Responses(os) == opening + (Deltas(texts) + (done + last));
    SurvivorsAppend(c, opening, Deltas(texts) + (done + last));
    SurvivorsAppend(c, Deltas(texts), done + last);
    SurvivorsAppend(c, done, last);
    OnEventsAppend(zero, Survivors(c, opening), Survivors(c, Deltas(texts) + (done + last)));
    OnEventsAppend(zero, Survivors(c, Deltas(texts)), Survivors(c, done + last));
    OnEventsAppend(zero, Survivors(c, done), Survivors(c, last));
    QuietReadBack(c, opening, zero);
    DeltasReadBack(c, texts, zero);
    QuietReadBack(c, done, zero);
    LastReadBack(c, joined, LastPrompt(os), LastCompletion(os));
    ConcatClean(texts);
  }

  lemma {:induction false} CleanTextsAll(texts: seq<string>)
    ensures |CleanTexts(texts)| <= |texts|
    ensures CleanTexts(texts) == texts <==> AllClean(texts)
  {
    if texts != [] { CleanTextsAll(texts[1..]); }
  }

  /** Any chat stream, turned into Responses events, printed with any such codec, cut into any
      chunks and turned back: the texts that come out are exactly those without a wide line
      break, in order; all come back exactly when none has one, and then so do the token counts;
      otherwise both counts come back as zero. */
  lemma {:induction false} ThereAndBack(c: Codec, os: seq<ChatObj>, chunks: seq<string>)
    requires JsonCodec(c) && Concat(chunks) == Print(c, Responses(os))
    ensures var (p, texts) := FeedAll(Reader(c), Parser("", Tokens(0, 0)), chunks);
            && p.buffer == "" && texts == CleanTexts(Texts(os))
            && (texts == Texts(os) <==> AllClean(Texts(os)))
            && p.state == if AllClean(Texts(os)) then Tokens(LastPrompt(os), LastCompletion(os)) else Tokens(0, 0)
  {
    var events := Responses(os);
    ChunkingIsIrrelevant(Reader(c), Parser("", Tokens(0, 0)), chunks);
    assert "" + Concat(chunks) == Concat(chunks);
    PrintedReadsBack(c, events, Tokens(0, 0));
    ResponsesReadBack(c, os);
    CleanTextsAll(Texts(os));
  }
}
