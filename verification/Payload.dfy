/** Anthropic requests turned into OpenAI chat requests and back. */
module Payload {
  import opened Prelude
  import opened Framing

  // ---- the two request shapes -------------------------------------------------------------------

  datatype ImageSource = Base64(mediaType: string, data: string) | Url(url: string) | OtherSource

  /** Content blocks by type; an `annotated` block carries further keys, such as cache_control. */
  datatype Block =
    | Text(text: string, annotated: bool)
    | Image(source: ImageSource, annotated: bool)
    | ImageUrl(url: string)
    | OtherBlock(json: string)

  /** A string, a list of blocks, or anything else. */
  datatype Content = Str(s: string) | Blocks(blocks: seq<Block>) | NoContent

  /** A turn; an `annotated` one carries further keys. */
  datatype Message = Message(role: string, content: Content, annotated: bool)

  datatype System = NoSystem | SystemText(s: string) | SystemBlocks(blocks: seq<Block>)

  /** `extras`: the request carries further keys, such as tools, tool_choice or metadata. */
  datatype Anthropic = Anthropic(
    model: string,
    system: System,
    messages: seq<Message>,
    maxTokens: Option<int>,
    temperature: Option<real>,
    topP: Option<real>,
    topK: Option<int>,
    stopSequences: Option<seq<string>>,
    stream: Option<bool>,
    extras: bool)

  datatype Stop = NoStop | StopOne(s: string) | StopList(ss: seq<string>)

  /** A chat request, with the keys of other dialects that clients may send along. */
  datatype OpenAI = OpenAI(
    model: string,
    messages: seq<Message>,
    maxTokens: Option<int>,
    maxCompletionTokens: Option<int>,
    temperature: Option<real>,
    topP: Option<real>,
    topK: Option<int>,
    stop: Stop,
    stopSequences: Option<seq<string>>,
    stream: Option<bool>)

  // ---- data URLs --------------------------------------------------------------------------------

  function DataUrl(mediaType: string, data: string): string {
    "data:" + mediaType + ";base64," + data
  }

  ghost predicate OccursAt(s: string, t: string, i: nat) { i + |t| <= |s| && s[i..i + |t|] == t }

  predicate Contains(s: string, t: string)
    ensures Contains(s, t) <==> exists i :: OccursAt(s, t, i)
  {
    if StartsWith(s, t) then assert OccursAt(s, t, 0); true
    else if s == "" then false
    else
      assert forall i: nat :: OccursAt(s[1..], t, i) ==> OccursAt(s, t, i + 1);
      assert forall i: nat | i > 0 :: OccursAt(s, t, i) ==> OccursAt(s[1..], t, i - 1);
      Contains(s[1..], t)
  }

  lemma {:induction false} MarkerHasComma(url: string)
    requires Contains(url, ";base64,")
    ensures IndexOf(url, ',') < |url|
  {
    hide Contains;
    var marker := ";base64,";
    var i: nat :| OccursAt(url, marker, i);
    assert url[i + 7] == url[i..i + |marker|][7] == ',';
  }

  /** The type in the header of a data URL: after the scheme, up to any parameters. */
  function MediaTypeOf(header: string): string {
    var kind := if |header| >= 5 then header[5..] else "";
    kind[..IndexOf(kind, ';')]
  }

  function ImageUrlSource(url: string): Option<ImageSource> {
    if url == "" then None
    else if StartsWith(url, "data:") && Contains(url, ";base64,") then
      MarkerHasComma(url);
      var comma := IndexOf(url, ',');
      var header, data := url[..comma], url[comma + 1..];
      var mediaType := MediaTypeOf(header);
      if mediaType != "" && data != "" then Some(Base64(mediaType, data)) else Some(Url(url))
    else Some(Url(url))
  }

  /** A data URL gives its media type and data back exactly when both are there and the media
      type holds neither comma nor semicolon. */
  lemma {:induction false} DataUrlRoundTripIff(mediaType: string, data: string)
    ensures ImageUrlSource(DataUrl(mediaType, data)) == Some(Base64(mediaType, data))
            <==> mediaType != "" && data != "" && ',' !in mediaType && ';' !in mediaType
  {
    var url := DataUrl(mediaType, data);
    var marker := ";base64,";
    assert OccursAt(url, marker, 5 + |mediaType|);
    assert StartsWith(url, "data:");
    if ',' in mediaType {
      CommaInMediaType(mediaType, data);
    } else {
      var head := "data:" + mediaType + ";base64";
      assert url == head + "," + data;
      assert forall j | 0 <= j < |head| :: url[j] == head[j] != ',';
      assert url[..|head|] == head;
      IndexOfUnique(url, ',', |head|);
      assert url[|head| + 1..] == data;
      var kind := head[5..];
      assert kind == mediaType + ";base64";
      if ';' in mediaType {
        var i :| 0 <= i < |mediaType| && mediaType[i] == ';';
        assert kind[i] == ';';
      } else {
        assert kind[..|mediaType|] == mediaType;
        IndexOfUnique(kind, ';', |mediaType|);
      }
    }
  }

  /** A comma in the media type moves the cut: the data comes back longer. */
  lemma {:induction false} CommaInMediaType(mediaType: string, data: string)
    requires ',' in mediaType
    ensures ImageUrlSource(DataUrl(mediaType, data)) != Some(Base64(mediaType, data))
  {
    var url := DataUrl(mediaType, data);
    var i :| 0 <= i < |mediaType| && mediaType[i] == ',';
    assert url[5 + i] == ',';
    var comma := IndexOf(url, ',');
    assert |url[comma + 1..]| > |data|;
  }

  /** The url is a base64 data URL with this media type and data: a header of the type and any
      parameters up to the first comma, and the marker somewhere. */
  ghost predicate IsBase64(url: string, mediaType: string, params: string, data: string) {
    && url == "data:" + (mediaType + params) + "," + data && (exists i :: OccursAt(url, ";base64,", i))
    && mediaType != "" && data != "" && ',' !in mediaType && ';' !in mediaType
    && ',' !in params && (params != "" ==> params[0] == ';')
  }

  /** Any url but the empty one becomes an image: base64 exactly if it is such a data URL, else the
      url itself, as every ordinary link. */
  lemma {:induction false} UrlBecomes(url: string)
    ensures ImageUrlSource(url) == None <==> url == ""
    ensures ImageUrlSource(url).Some? ==> ImageUrlSource(url).value.Base64? || ImageUrlSource(url).value == Url(url)
    ensures forall mediaType, data ::
              ImageUrlSource(url) == Some(Base64(mediaType, data))
              <==> exists params :: IsBase64(url, mediaType, params, data)
    ensures url != "" && !(|url| >= 5 && url[..5] == "data:") ==> ImageUrlSource(url) == Some(Url(url))
  {
    forall mediaType, data
      ensures ImageUrlSource(url) == Some(Base64(mediaType, data))
              <==> exists params :: IsBase64(url, mediaType, params, data)
    {
      if ImageUrlSource(url) == Some(Base64(mediaType, data)) {
        var params := Base64Found(url, mediaType, data);
        assert IsBase64(url, mediaType, params, data);
      }
      if params :| IsBase64(url, mediaType, params, data) { Base64Taken(url, mediaType, params, data); }
    }
  }

  lemma {:induction false} CutTwice<T>(s: seq<T>, a: nat, b: nat)
    requires a <= b < |s|
    ensures s == s[..a] + s[a..b] + [s[b]] + s[b + 1..]
  {
  }

  lemma {:induction false} PrefixFirst(url: string, prefix: string, comma: nat)
    requires |prefix| <= |url| && url[..|prefix|] == prefix && ',' !in prefix
    requires comma < |url| && url[comma] == ','
    ensures comma >= |prefix|
  {
    assert forall j | 0 <= j < |prefix| :: url[j] == url[..|prefix|][j];
  }

  lemma {:induction false} HeaderCut(url: string)
    requires |url| >= 5 && url[..5] == "data:" && IndexOf(url, ',') < |url|
    ensures var comma := IndexOf(url, ',');
            comma >= 5 && ',' !in url[5..comma] && url == "data:" + url[5..comma] + "," + url[comma + 1..]
  {
    hide IndexOf;
    var comma := IndexOf(url, ',');
    PrefixFirst(url, "data:", comma);
    CutTwice(url, 5, comma);
  }

  lemma {:induction false} KindCut(kind: string)
    ensures var p := IndexOf(kind, ';');
            && kind == kind[..p] + kind[p..] && ';' !in kind[..p] && (kind[p..] != "" ==> kind[p..][0] == ';')
  {
    hide IndexOf;
  }

  lemma {:induction false} MediaTypeCut(url: string, comma: nat)
    requires 5 <= comma <= |url|
    ensures var kind := url[5..comma]; MediaTypeOf(url[..comma]) == kind[..IndexOf(kind, ';')]
  {
    hide IndexOf;
    SliceOfSlice(url, 5, comma);
  }

  lemma {:induction false} SourceParts(url: string, mediaType: string, data: string)
    requires ImageUrlSource(url) == Some(Base64(mediaType, data))
    ensures |url| >= 5 && url[..5] == "data:" && Contains(url, ";base64,") && IndexOf(url, ',') < |url|
    ensures var comma := IndexOf(url, ',');
            mediaType == MediaTypeOf(url[..comma]) != "" && data == url[comma + 1..] != ""
  {
    hide Contains, IndexOf, MediaTypeOf;
    MarkerHasComma(url);
  }

  lemma {:induction false} Base64Found(url: string, mediaType: string, data: string) returns (params: string)
    requires ImageUrlSource(url) == Some(Base64(mediaType, data))
    ensures IsBase64(url, mediaType, params, data)
  {
    hide Contains, IndexOf, OccursAt, ImageUrlSource, MediaTypeOf;
    SourceParts(url, mediaType, data);
    HeaderCut(url);
    MediaTypeCut(url, IndexOf(url, ','));
    var kind := url[5..IndexOf(url, ',')];
    KindCut(kind);
    params := kind[IndexOf(kind, ';')..];
  }

  lemma {:induction false} SliceOfSlice<T>(s: seq<T>, a: nat, b: nat)
    requires a <= b <= |s|
    ensures s[..b][a..] == s[a..b]
  {
  }

  lemma {:induction false} CommaFound(head: string, data: string)
    requires ',' !in head
    ensures var url := head + "," + data;
            IndexOf(url, ',') == |head| && url[..|head|] == head && url[|head| + 1..] == data
  {
    hide IndexOf;
    var url := head + "," + data;
    assert forall j | 0 <= j < |head| :: url[j] == head[j] != ',';
    IndexOfUnique(url, ',', |head|);
  }

  lemma {:induction false} KindFound(mediaType: string, params: string)
    requires ';' !in mediaType && (params != "" ==> params[0] == ';')
    ensures var kind := mediaType + params; kind[..IndexOf(kind, ';')] == mediaType
  {
    hide IndexOf;
    var kind := mediaType + params;
    assert forall j | 0 <= j < |mediaType| :: kind[j] == mediaType[j] != ';';
    if params == "" {
      assert IndexOf(kind, ';') == |kind|;
    } else {
      assert kind[|mediaType|] == params[0];
      IndexOfUnique(kind, ';', |mediaType|);
    }
  }

  lemma {:induction false} Base64Taken(url: string, mediaType: string, params: string, data: string)
    requires IsBase64(url, mediaType, params, data)
    ensures ImageUrlSource(url) == Some(Base64(mediaType, data))
  {
    hide Contains, IndexOf;
    var head := "data:" + (mediaType + params);
    assert url == head + "," + data;
    assert ',' !in head;
    CommaFound(head, data);
    assert url[..5] == "data:" && StartsWith(url, "data:");
    assert head[5..] == mediaType + params;
    KindFound(mediaType, params);
  }

  // ---- content ----------------------------------------------------------------------------------

  function BlockToOpenAI(b: Block): Option<Block> {
    match b
    case Text(t, _) => Some(Text(t, false))
    case Image(source, _) =>
      if source.Base64? && source.mediaType != "" && source.data != ""
      then Some(ImageUrl(DataUrl(source.mediaType, source.data)))
      else None
    case _ => Some(b)
  }

  function BlockToAnthropic(b: Block): Option<Block> {
    match b
    case Text(t, _) => Some(Text(t, false))
    case ImageUrl(url) => (match ImageUrlSource(url) case None => None case Some(s) => Some(Image(s, false)))
    case _ => Some(b)
  }

  function MapBlocks(f: Block -> Option<Block>, bs: seq<Block>): seq<Block> {
    if bs == [] then []
    else MapBlocks(f, bs[..|bs| - 1]) + match f(bs[|bs| - 1]) case None => [] case Some(b) => [b]
  }

  function ContentToOpenAI(c: Content): Content {
    match c
    case Str(_) => c
    case Blocks(bs) => Blocks(MapBlocks(BlockToOpenAI, bs))
    case NoContent => Str("")
  }

  function ContentToAnthropic(c: Content): Content {
    match c
    case Str(_) => c
    case Blocks(bs) =>
      var out := MapBlocks(BlockToAnthropic, bs);
      if out != [] then Blocks(out) else Str("")
    case NoContent => Str("")
  }

  /** Towards OpenAI text stays and loses its annotations, an image stays exactly if it is base64 with
      type and data, as a data URL, and every other block stays as it is. */
  lemma {:induction false} BlockForOpenAI(b: Block)
    ensures match b
            case Text(t, _) => BlockToOpenAI(b) == Some(Text(t, false))
            case Image(Base64(mediaType, data), _) =>
              BlockToOpenAI(b)
              == if mediaType == "" || data == "" then None
                 else Some(ImageUrl("data:" + mediaType + ";base64," + data))
            case Image(_, _) => BlockToOpenAI(b) == None
            case _ => BlockToOpenAI(b) == Some(b)
  {
  }

  /** Towards Anthropic an image link becomes an image unless it is empty, an ordinary link by its
      url; text stays, and so does every other block. */
  lemma {:induction false} BlockForAnthropic(b: Block)
    ensures b.Text? ==> BlockToAnthropic(b) == Some(Text(b.text, false))
    ensures b.ImageUrl? ==> (BlockToAnthropic(b) == None <==> b.url == "")
    ensures b.ImageUrl? && b.url != "" && !(|b.url| >= 5 && b.url[..5] == "data:") ==>
              BlockToAnthropic(b) == Some(Image(Url(b.url), false))
    ensures b.Image? || b.OtherBlock? ==> BlockToAnthropic(b) == Some(b)
  {
    if b.ImageUrl? { UrlBecomes(b.url); }
    hide ImageUrlSource;
  }

  /** Blocks are converted one by one, in order. */
  lemma {:induction false} BlocksInOrder(f: Block -> Option<Block>, bs: seq<Block>, more: seq<Block>)
    ensures MapBlocks(f, bs + more) == MapBlocks(f, bs) + MapBlocks(f, more)
  {
    if more == [] {
      assert bs + more == bs;
    } else {
      var n := |more| - 1;
      assert (bs + more)[..|bs| + n] == bs + more[..n];
      BlocksInOrder(f, bs, more[..n]);
    }
  }

  /** The text a list of blocks holds. */
  function TextIn(bs: seq<Block>): string {
    if bs == [] then ""
    else TextIn(bs[..|bs| - 1]) + if bs[|bs| - 1].Text? then bs[|bs| - 1].text else ""
  }

  lemma {:induction false} TextInPush(bs: seq<Block>, b: Block)
    ensures TextIn(bs + [b]) == TextIn(bs) + if b.Text? then b.text else ""
  {
    assert (bs + [b])[..|bs|] == bs;
  }

  ghost predicate SameText(b: Block, o: Option<Block>) {
    match o
    case None => !b.Text?
    case Some(c) => (c.Text? <==> b.Text?) && (b.Text? ==> c.text == b.text)
  }

  lemma {:induction false} TextKeptBy(f: Block -> Option<Block>, bs: seq<Block>)
    requires forall b :: SameText(b, f(b))
    ensures TextIn(MapBlocks(f, bs)) == TextIn(bs)
  {
    if bs != [] {
      var n := |bs| - 1;
      TextKeptBy(f, bs[..n]);
      assert SameText(bs[n], f(bs[n]));
      var before := MapBlocks(f, bs[..n]);
      if f(bs[n]).Some? { TextInPush(before, f(bs[n]).value); }
      TextInPush(bs[..n], bs[n]);
      hide TextIn;
      assert bs == bs[..n] + [bs[n]];
      assert before + [] == before;
    }
  }

  /** Neither converter adds, drops or reorders text. */
  lemma {:induction false} TextIsKept(bs: seq<Block>)
    ensures TextIn(MapBlocks(BlockToOpenAI, bs)) == TextIn(bs)
    ensures TextIn(MapBlocks(BlockToAnthropic, bs)) == TextIn(bs)
  {
    forall b ensures SameText(b, BlockToOpenAI(b)) && SameText(b, BlockToAnthropic(b)) { }
    TextKeptBy(BlockToOpenAI, bs);
    TextKeptBy(BlockToAnthropic, bs);
  }

  function BlockThereAndBack(b: Block): Option<Block> {
    match BlockToOpenAI(b) case None => None case Some(o) => BlockToAnthropic(o)
  }

  /** Blocks that come back as they were: plain text and plain base64 images whose type can stand
      in a data URL, and blocks of types the converters pass through. */
  predicate Keeps(b: Block) {
    match b
    case Text(_, annotated) => !annotated
    case Image(s, annotated) =>
      !annotated && s.Base64? && s.mediaType != "" && s.data != "" && ',' !in s.mediaType && ';' !in s.mediaType
    case ImageUrl(_) => false
    case OtherBlock(_) => true
  }

  lemma {:induction false} BlockReturnsIff(b: Block)
    ensures BlockThereAndBack(b) == Some(b) <==> Keeps(b)
  {
    if b.Image? && b.source.Base64? {
      DataUrlRoundTripIff(b.source.mediaType, b.source.data);
    }
  }

  lemma {:induction false} BlocksCompose(bs: seq<Block>)
    ensures MapBlocks(BlockToAnthropic, MapBlocks(BlockToOpenAI, bs)) == MapBlocks(BlockThereAndBack, bs)
  {
    if bs != [] {
      var n := |bs| - 1;
      BlocksCompose(bs[..n]);
      match BlockToOpenAI(bs[n])
      case None =>
        assert MapBlocks(BlockToOpenAI, bs) == MapBlocks(BlockToOpenAI, bs[..n]);
      case Some(o) =>
        var mid := MapBlocks(BlockToOpenAI, bs[..n]);
        assert MapBlocks(BlockToOpenAI, bs) == mid + [o];
        assert (mid + [o])[..|mid|] == mid;
    }
  }

  lemma {:induction false} BlocksReturnIff(bs: seq<Block>)
    ensures |MapBlocks(BlockThereAndBack, bs)| <= |bs|
    ensures MapBlocks(BlockThereAndBack, bs) == bs <==> forall k | 0 <= k < |bs| :: Keeps(bs[k])
  {
    hide Keeps, BlockThereAndBack;
    if bs != [] {
      var n := |bs| - 1;
      BlocksReturnIff(bs[..n]);
      BlockReturnsIff(bs[n]);
      var before := MapBlocks(BlockThereAndBack, bs[..n]);
      if BlockThereAndBack(bs[n]).Some? && |before| == n {
        AppendOneIff(before, BlockThereAndBack(bs[n]).value, bs);
      }
      assert (forall k | 0 <= k < |bs| :: Keeps(bs[k]))
             <==> Keeps(bs[n]) && forall k | 0 <= k < n :: Keeps(bs[..n][k]);
    }
  }

  predicate ContentKept(c: Content) {
    c.Str? || (c.Blocks? && c.blocks != [] && forall k | 0 <= k < |c.blocks| :: Keeps(c.blocks[k]))
  }

  lemma {:induction false} ContentReturnsIff(c: Content)
    ensures ContentToAnthropic(ContentToOpenAI(c)) == c <==> ContentKept(c)
  {
    if c.Blocks? {
      BlocksCompose(c.blocks);
      BlocksReturnIff(c.blocks);
    }
  }

  // ---- whole requests ---------------------------------------------------------------------------

  function MessageToOpenAI(m: Message): Message {
    Message(if m.role == "assistant" then "assistant" else "user", ContentToOpenAI(m.content), false)
  }

  function MessagesToOpenAI(ms: seq<Message>): seq<Message> {
    if ms == [] then [] else MessagesToOpenAI(ms[..|ms| - 1]) + [MessageToOpenAI(ms[|ms| - 1])]
  }

  function SystemToOpenAI(s: System): seq<Message> {
    match s
    case NoSystem => []
    case SystemText(t) => if t != "" then [Message("system", Str(t), false)] else []
    case SystemBlocks(bs) => if bs != [] then [Message("system", ContentToOpenAI(Blocks(bs)), false)] else []
  }

  function ToOpenAI(r: Anthropic): OpenAI {
    OpenAI(r.model,
           SystemToOpenAI(r.system) + MessagesToOpenAI(r.messages),
           r.maxTokens, None, r.temperature, r.topP, None,
           if r.stopSequences.Some? then StopList(r.stopSequences.value) else NoStop,
           None,
           r.stream)
  }

  /** System prompts given as strings, in order. */
  function SystemParts(ms: seq<Message>): seq<string> {
    if ms == [] then []
    else
      var m := ms[|ms| - 1];
      SystemParts(ms[..|ms| - 1]) + if m.role == "system" && m.content.Str? then [m.content.s] else []
  }

  function Turns(ms: seq<Message>): seq<Message> {
    if ms == [] then []
    else
      var m := ms[|ms| - 1];
      Turns(ms[..|ms| - 1])
      + if m.role == "user" || m.role == "assistant"
        then [Message(m.role, ContentToAnthropic(m.content), false)] else []
  }

  function JoinParts(parts: seq<string>): string
    requires parts != []
  {
    if |parts| == 1 then parts[0] else parts[0] + "\n\n" + JoinParts(parts[1..])
  }

  function TokenLimit(o: OpenAI): int {
    if o.maxCompletionTokens.Some? then o.maxCompletionTokens.value
    else if o.maxTokens.Some? then o.maxTokens.value
    else 1024
  }

  function StopSequences(o: OpenAI): Option<seq<string>> {
    if o.stopSequences.Some? then o.stopSequences
    else match o.stop case NoStop => None case StopOne(s) => Some([s]) case StopList(ss) => Some(ss)
  }

  predicate Streams(o: OpenAI) { o.stream.Some? && o.stream.value }

  function SystemOf(parts: seq<string>): System {
    if parts != [] then SystemText(JoinParts(parts)) else NoSystem
  }

  /** The body sent to the upstream: the converted request under the upstream's model name. */
  function ToAnthropic(o: OpenAI, upstream: string): Anthropic {
    var parts := SystemParts(o.messages);
    Anthropic(
      upstream,
      SystemOf(parts),
      Turns(o.messages),
      Some(TokenLimit(o)),
      o.temperature,
      o.topP,
      o.topK,
      StopSequences(o),
      Some(Streams(o)),
      false)
  }

  lemma {:induction false} MessagesOneByOne(ms: seq<Message>)
    ensures |MessagesToOpenAI(ms)| == |ms|
    ensures forall k | 0 <= k < |ms| ::
              MessagesToOpenAI(ms)[k]
              == Message(if ms[k].role == "assistant" then "assistant" else "user",
                         ContentToOpenAI(ms[k].content), false)
  {
    hide ContentToOpenAI;
    if ms != [] { MessagesOneByOne(ms[..|ms| - 1]); }
  }

  /** The chat request made of an Anthropic one: a system message first, if there is a system prompt,
      text as it is and blocks converted; then the turns one by one, anything but the assistant's as
      the user's; and the settings as given. */
  lemma {:induction false} RequestForOpenAI(r: Anthropic)
    ensures var o := ToOpenAI(r);
            var n := if r.system.NoSystem? || r.system == SystemText("") || r.system == SystemBlocks([]) then 0 else 1;
            && |o.messages| == n + |r.messages|
            && (n == 1 ==> o.messages[0].role == "system"
                           && (r.system.SystemText? ==> o.messages[0].content == Str(r.system.s))
                           && (r.system.SystemBlocks? ==>
                                 o.messages[0].content == Blocks(MapBlocks(BlockToOpenAI, r.system.blocks))))
            && (forall k | 0 <= k < |r.messages| ::
                  && o.messages[n + k].role == (if r.messages[k].role == "assistant" then "assistant" else "user")
                  && o.messages[n + k].content == ContentToOpenAI(r.messages[k].content))
            && o.model == r.model && o.maxTokens == r.maxTokens && o.temperature == r.temperature && o.topP == r.topP
            && o.stream == r.stream && o.maxCompletionTokens == None && o.stopSequences == None && o.topK == None
            && o.stop == (if r.stopSequences.Some? then StopList(r.stopSequences.value) else NoStop)
  {
    hide ContentToOpenAI, MessagesToOpenAI;
    MessagesOneByOne(r.messages);
    SystemBlocksContent(r.system);
  }

  lemma {:induction false} SystemBlocksContent(s: System)
    ensures s.SystemBlocks? ==> ContentToOpenAI(Blocks(s.blocks)) == Blocks(MapBlocks(BlockToOpenAI, s.blocks))
  {
  }

  /** What the upstream is asked: max_completion_tokens before max_tokens before 1024, stop_sequences
      before stop, a single stop string as a list of one, and the rest as given. */
  lemma {:induction false} BodySettings(o: OpenAI, upstream: string)
    ensures var r := ToAnthropic(o, upstream);
            && r.model == upstream && r.temperature == o.temperature && r.topP == o.topP && r.topK == o.topK
            && r.stream.Some? && (r.stream.value <==> o.stream == Some(true))
            && (o.maxCompletionTokens.Some? ==> r.maxTokens == o.maxCompletionTokens)
            && (o.maxCompletionTokens.None? && o.maxTokens.Some? ==> r.maxTokens == o.maxTokens)
            && (o.maxCompletionTokens.None? && o.maxTokens.None? ==> r.maxTokens == Some(1024))
            && (o.stopSequences.Some? ==> r.stopSequences == o.stopSequences)
            && (o.stopSequences.None? ==>
                  match o.stop
                  case NoStop => r.stopSequences == None
                  case StopOne(s) => r.stopSequences == Some([s])
                  case StopList(ss) => r.stopSequences == Some(ss))
  {
    hide SystemParts, Turns, JoinParts;
  }

  lemma {:induction false} JoinPush(parts: seq<string>, part: string)
    requires parts != []
    ensures JoinParts(parts + [part]) == JoinParts(parts) + "\n\n" + part
  {
    if |parts| == 1 {
      assert (parts + [part])[1..] == [part];
    } else {
      assert (parts + [part])[1..] == parts[1..] + [part];
      JoinPush(parts[1..], part);
    }
  }

  /** One more system prompt follows the others after a blank line. */
  lemma {:induction false} SystemOfPush(parts: seq<string>, part: string)
    ensures SystemOf(parts + [part])
            == match SystemOf(parts) case SystemText(s) => SystemText(s + "\n\n" + part) case _ => SystemText(part)
  {
    if parts == [] {
      assert parts + [part] == [part];
    } else {
      JoinPush(parts, part);
    }
  }

  lemma {:induction false} PartsPush(ms: seq<Message>, m: Message)
    ensures SystemParts(ms + [m])
            == SystemParts(ms) + if m.role == "system" && m.content.Str? then [m.content.s] else []
    ensures Turns(ms + [m])
            == Turns(ms) + if m.role == "user" || m.role == "assistant"
                           then [Message(m.role, ContentToAnthropic(m.content), false)] else []
  {
    hide ContentToAnthropic;
    assert (ms + [m])[..|ms|] == ms;
  }

  /** One more message: a system prompt is appended to the system text after a blank line, a user or
      assistant turn to the turns, and anything else is dropped. */
  lemma {:induction false} OneMoreMessage(o: OpenAI, m: Message, upstream: string)
    ensures var before, after := ToAnthropic(o, upstream), ToAnthropic(o.(messages := o.messages + [m]), upstream);
            && after.messages == before.messages
                 + (if m.role == "user" || m.role == "assistant"
                    then [Message(m.role, ContentToAnthropic(m.content), false)] else [])
            && after.system == if m.role == "system" && m.content.Str? then
                                 match before.system
                                 case SystemText(s) => SystemText(s + "\n\n" + m.content.s)
                                 case _ => SystemText(m.content.s)
                               else before.system
  {
    hide ContentToAnthropic, SystemParts, Turns, SystemOf;
    PartsPush(o.messages, m);
    var parts := SystemParts(o.messages);
    assert parts + [] == parts;
    if m.content.Str? { SystemOfPush(parts, m.content.s); }
  }

  /** A request without messages has no system text and no turns. */
  lemma {:induction false} NoMessages(o: OpenAI, upstream: string)
    requires o.messages == []
    ensures ToAnthropic(o, upstream).system == NoSystem && ToAnthropic(o, upstream).messages == []
  {
  }

  lemma {:induction false} NoParts(ms: seq<Message>)
    ensures SystemParts(MessagesToOpenAI(ms)) == []
  {
    if ms != [] {
      var n := |ms| - 1;
      var before, last := MessagesToOpenAI(ms[..n]), MessageToOpenAI(ms[n]);
      NoParts(ms[..n]);
      assert (before + [last])[..|before|] == before;
    }
  }

  predicate MessageKept(m: Message) {
    (m.role == "user" || m.role == "assistant") && ContentKept(m.content) && !m.annotated
  }

  /** What one message comes back as. */
  function Returned(m: Message): Message {
    Message(MessageToOpenAI(m).role, ContentToAnthropic(MessageToOpenAI(m).content), false)
  }

  lemma {:induction false} MessageReturnsIff(m: Message)
    ensures Returned(m) == m <==> MessageKept(m)
  {
    hide ContentKept, ContentToOpenAI, ContentToAnthropic;
    ContentReturnsIff(m.content);
  }

  lemma {:induction false} LastTurn(ms: seq<Message>)
    requires ms != []
    ensures Turns(MessagesToOpenAI(ms)) == Turns(MessagesToOpenAI(ms[..|ms| - 1])) + [Returned(ms[|ms| - 1])]
  {
    hide ContentToOpenAI, ContentToAnthropic;
    var before, last := MessagesToOpenAI(ms[..|ms| - 1]), MessageToOpenAI(ms[|ms| - 1]);
    assert (before + [last])[..|before|] == before;
  }

  lemma {:induction false} TurnsReturnIff(ms: seq<Message>)
    ensures |Turns(MessagesToOpenAI(ms))| == |ms|
    ensures Turns(MessagesToOpenAI(ms)) == ms <==> forall k | 0 <= k < |ms| :: MessageKept(ms[k])
  {
    if ms != [] {
      hide Turns, MessagesToOpenAI, Returned, MessageKept;
      var n := |ms| - 1;
      TurnsReturnIff(ms[..n]);
      MessageReturnsIff(ms[n]);
      LastTurn(ms);
      AppendOneIff(Turns(MessagesToOpenAI(ms[..n])), Returned(ms[n]), ms);
      AllKept(ms);
    }
  }

  lemma {:induction false} AllKept(ms: seq<Message>)
    requires ms != []
    ensures var n := |ms| - 1;
            (forall k | 0 <= k < |ms| :: MessageKept(ms[k]))
            <==> MessageKept(ms[n]) && forall k | 0 <= k < |ms[..n]| :: MessageKept(ms[..n][k])
  {
    hide MessageKept;
    var n := |ms| - 1;
    assert forall k | 0 <= k < n :: ms[..n][k] == ms[k];
  }

  lemma {:induction false} AppendOneIff<T>(a: seq<T>, x: T, b: seq<T>)
    requires |a| + 1 == |b|
    ensures a + [x] == b <==> a == b[..|a|] && x == b[|a|]
  {
    assert b == b[..|a|] + [b[|a|]];
    assert (a + [x])[..|a|] == a && (a + [x])[|a|] == x;
  }

  lemma {:induction false} AppendParts(a: seq<Message>, b: seq<Message>)
    ensures SystemParts(a + b) == SystemParts(a) + SystemParts(b)
    ensures Turns(a + b) == Turns(a) + Turns(b)
  {
    if b == [] {
      assert a + b == a;
    } else {
      assert (a + b)[..|a + b| - 1] == a + b[..|b| - 1];
      AppendParts(a, b[..|b| - 1]);
    }
  }

  lemma {:induction false} SystemOnly(s: System)
    ensures Turns(SystemToOpenAI(s)) == []
    ensures SystemParts(SystemToOpenAI(s)) == if s.SystemText? && s.s != "" then [s.s] else []
  {
    var ms := SystemToOpenAI(s);
    if ms != [] { assert ms[..0] == []; }
  }

  /** Requests that survive: a system prompt that is absent or a non-empty string, user and
      assistant turns of strings or non-empty lists of kept blocks, a token limit, no top_k, an
      explicit stream flag, the model name the upstream uses, and no further keys anywhere. */
  predicate RequestKept(r: Anthropic, upstream: string) {
    && r.model == upstream && r.stream.Some? && !r.extras
    && (r.system.NoSystem? || (r.system.SystemText? && r.system.s != ""))
    && (forall k | 0 <= k < |r.messages| :: MessageKept(r.messages[k]))
    && r.maxTokens.Some? && r.topK.None?
  }

  /** What a request comes back as, part by part. */
  lemma {:induction false} ReturnedParts(r: Anthropic, upstream: string)
    ensures var o := ToOpenAI(r);
            && SystemParts(o.messages) == (if r.system.SystemText? && r.system.s != "" then [r.system.s] else [])
            && Turns(o.messages) == Turns(MessagesToOpenAI(r.messages))
  {
    var first, rest := SystemToOpenAI(r.system), MessagesToOpenAI(r.messages);
    AppendParts(first, rest);
    SystemOnly(r.system);
    NoParts(r.messages);
    hide SystemParts, Turns, SystemToOpenAI, MessagesToOpenAI;
    assert SystemParts(first + rest) == SystemParts(first);
    assert Turns(first + rest) == Turns(rest);
  }

  /** Anthropic to OpenAI and back is the identity on exactly these requests. */
  lemma {:induction false} RequestReturnsIff(r: Anthropic, upstream: string)
    ensures ToAnthropic(ToOpenAI(r), upstream) == r <==> RequestKept(r, upstream)
  {
    ReturnedParts(r, upstream);
    TurnsReturnIff(r.messages);
    hide SystemParts, Turns, SystemToOpenAI, MessagesToOpenAI, MessageKept;
    assert r.system.SystemText? ==> JoinParts([r.system.s]) == r.system.s;
  }

  // ---- the loops of the converters --------------------------------------------------------------

  method AnthropicBlocksToOpenAI(content: seq<Block>) returns (blocks: seq<Block>)
    ensures blocks == MapBlocks(BlockToOpenAI, content)
  {
    blocks := [];
    for k := 0 to |content|
      invariant blocks == MapBlocks(BlockToOpenAI, content[..k])
    {
      assert content[..k + 1][..k] == content[..k];
      var b := content[k];
      if b.Text? {
        blocks := blocks + [Text(b.text, false)];
      } else if b.Image? {
        if b.source.Base64? && b.source.mediaType != "" && b.source.data != "" {
          blocks := blocks + [ImageUrl(DataUrl(b.source.mediaType, b.source.data))];
        }
      } else {
        blocks := blocks + [b];
      }
    }
    assert content[..|content|] == content;
  }

  method OpenAIBlocksToAnthropic(content: seq<Block>) returns (blocks: seq<Block>)
    ensures blocks == MapBlocks(BlockToAnthropic, content)
  {
    blocks := [];
    for k := 0 to |content|
      invariant blocks == MapBlocks(BlockToAnthropic, content[..k])
    {
      assert content[..k + 1][..k] == content[..k];
      var b := content[k];
      if b.Text? {
        blocks := blocks + [Text(b.text, false)];
      } else if b.ImageUrl? {
        var source := ImageUrlSource(b.url);
        if source.Some? {
          blocks := blocks + [Image(source.value, false)];
        }
      } else {
        blocks := blocks + [b];
      }
    }
    assert content[..|content|] == content;
  }

  method OpenAIToAnthropic(o: OpenAI, upstream: string) returns (r: Anthropic)
    ensures r == ToAnthropic(o, upstream)
  {
    var parts: seq<string>, turns: seq<Message> := [], [];
    var ms := o.messages;
    for k := 0 to |ms|
      invariant parts == SystemParts(ms[..k]) && turns == Turns(ms[..k])
    {
      assert ms[..k + 1][..k] == ms[..k];
      var m := ms[k];
      if m.role == "system" {
        if m.content.Str? {
          parts := parts + [m.content.s];
        }
        continue;
      }
      if m.role != "user" && m.role != "assistant" {
        continue;
      }
      turns := turns + [Message(m.role, ContentToAnthropic(m.content), false)];
    }
    assert ms[..|ms|] == ms;
    var limit := if o.maxCompletionTokens.Some? then o.maxCompletionTokens.value
                 else if o.maxTokens.Some? then o.maxTokens.value else 1024;
    var stop := o.stopSequences;
    if stop.None? && !o.stop.NoStop? {
      stop := Some(if o.stop.StopList? then o.stop.ss else [o.stop.s]);
    }
    r := Anthropic(upstream, if parts != [] then SystemText(JoinParts(parts)) else NoSystem, turns, Some(limit),
                   o.temperature, o.topP, o.topK, stop, Some(o.stream.Some? && o.stream.value), false);
  }
}
