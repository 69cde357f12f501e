/** Server-sent events as text: the string operations the parsers use, and incremental framing. */
module Framing {
  // ---- str.splitlines, str.strip, str.startswith ------------------------------------------------

  /** Line boundaries above ASCII: a JSON encoder leaves these characters as they are. */
  predicate WideBreak(c: char) { c == '\U{85}' || c == '\U{2028}' || c == '\U{2029}' }

  predicate LineBreak(c: char) {
    '\n' <= c <= '\r' || '\U{1C}' <= c <= '\U{1E}' || WideBreak(c)
  }

  predicate Space(c: char) {
    || '\t' <= c <= '\r' || '\U{1C}' <= c <= ' ' || WideBreak(c)
    || c == '\U{A0}' || c == '\U{1680}' || '\U{2000}' <= c <= '\U{200A}'
    || c == '\U{202F}' || c == '\U{205F}' || c == '\U{3000}'
  }

  function FirstBreak(s: string): (p: nat)
    ensures p <= |s| && (p < |s| ==> LineBreak(s[p])) && forall j | 0 <= j < p :: !LineBreak(s[j])
  {
    if s == "" || LineBreak(s[0]) then 0 else 1 + FirstBreak(s[1..])
  }

  function SplitLines(s: string): seq<string> {
    if s == "" then []
    else
      var p := FirstBreak(s);
      if p == |s| then [s]
      else [s[..p]] + SplitLines(s[p + (if s[p] == '\r' && p + 1 < |s| && s[p + 1] == '\n' then 2 else 1)..])
  }

  function StripLeft(s: string): string {
    if s != "" && Space(s[0]) then StripLeft(s[1..]) else s
  }

  function StripRight(s: string): (r: string)
    ensures |r| <= |s| && r == s[..|r|] && (forall j | |r| <= j < |s| :: Space(s[j]))
  {
    if s != "" && Space(s[|s| - 1]) then StripRight(s[..|s| - 1]) else s
  }

  function Strip(s: string): string { StripRight(StripLeft(s)) }

  lemma {:induction false} StripKeeps(s: string)
    requires s != "" && !Space(s[0])
    ensures StripLeft(s) == s && |Strip(s)| >= 1 && Strip(s) == s[..|Strip(s)|] && !Space(Strip(s)[|Strip(s)| - 1])
    ensures !Space(s[|s| - 1]) ==> Strip(s) == s
    decreases |s|
  {
    if Space(s[|s| - 1]) {
      var t := s[..|s| - 1];
      assert t != "" && t[0] == s[0];
      StripKeeps(t);
      assert Strip(s) == Strip(t);
    }
  }

  /** Position of the first `c`, or the length of the text. */
  function IndexOf(s: string, c: char): (p: nat)
    ensures p <= |s| && (p < |s| ==> s[p] == c) && forall j | 0 <= j < p :: s[j] != c
  {
    if s == "" || s[0] == c then 0 else 1 + IndexOf(s[1..], c)
  }

  lemma {:induction false} IndexOfUnique(s: string, c: char, p: nat)
    requires p < |s| && s[p] == c && forall j | 0 <= j < p :: s[j] != c
    ensures IndexOf(s, c) == p
  {
  }

  predicate StartsWith(s: string, prefix: string) { |s| >= |prefix| && s[..|prefix|] == prefix }

  lemma {:induction false} FirstBreakUnique(s: string, p: nat)
    requires p < |s| && LineBreak(s[p]) && forall j | 0 <= j < p :: !LineBreak(s[j])
    ensures FirstBreak(s) == p
  {
  }

  lemma {:induction false} LinesTwo(head: string, rest: string)
    requires head != "" && forall j | 0 <= j < |head| :: !LineBreak(head[j])
    ensures SplitLines(head + "\n" + rest) == [head] + SplitLines(rest)
  {
    var s := head + "\n" + rest;
    FirstBreakUnique(s, |head|);
    assert s[..|head|] == head && s[|head| + 1..] == rest;
  }

  lemma {:induction false} StripAfter(p: string, t: string)
    requires p != "" && !Space(p[0]) && t != "" && !Space(t[0])
    ensures Strip(p + t) == p + Strip(t)
    decreases |t|
  {
    StripKeeps(p + t);
    StripKeeps(t);
    if Space(t[|t| - 1]) {
      var u := t[..|t| - 1];
      assert (p + t)[..|p + t| - 1] == p + u && u != "" && u[0] == t[0];
      StripAfter(p, u);
      StripKeeps(p + u);
      StripKeeps(u);
    }
  }

  lemma {:induction false} StripSpace(s: string)
    requires s != "" && !Space(s[0])
    ensures Strip(" " + s) == Strip(s)
  {
    assert (" " + s)[1..] == s;
    StripKeeps(s);
  }

  lemma {:induction false} OneLine(s: string)
    requires s != "" && forall j | 0 <= j < |s| :: !LineBreak(s[j])
    ensures SplitLines(s) == [s]
  {
    assert FirstBreak(s) == |s|;
  }

  lemma {:induction false} DataLineHasNoBreak(t: string)
    requires forall j | 0 <= j < |t| :: !LineBreak(t[j])
    ensures forall j | 0 <= j < |"data: " + t| :: !LineBreak(("data: " + t)[j])
  {
  }

  // ---- splitting on blank lines -----------------------------------------------------------------

  predicate SepAt(s: string, i: int) { 0 <= i && i + 1 < |s| && s[i] == '\n' && s[i + 1] == '\n' }

  /** Position of the first blank line, or the length of the text. */
  function FirstSep(s: string): (p: nat)
    ensures p <= |s| && (p < |s| ==> SepAt(s, p)) && forall j | 0 <= j < p :: !SepAt(s, j)
  {
    if |s| < 2 then |s|
    else if SepAt(s, 0) then 0
    else
      var p := 1 + FirstSep(s[1..]);
      assert forall j | 1 <= j < p :: SepAt(s, j) ==> SepAt(s[1..], j - 1);
      assert p < |s| ==> SepAt(s[1..], p - 1);
      p
  }

  predicate HasSep(s: string) { FirstSep(s) < |s| }

  /** str.split on a blank line: the frames, then what is left. */
  function Split(s: string): (parts: seq<string>)
    ensures parts != []
    decreases |s|
  {
    var p := FirstSep(s);
    if p == |s| then [s] else [s[..p]] + Split(s[p + 2..])
  }

  function Frames(s: string): seq<string> { Split(s)[..|Split(s)| - 1] }

  function Leftover(s: string): string { Split(s)[|Split(s)| - 1] }

  lemma {:induction false} FirstSepUnique(s: string, p: nat)
    requires SepAt(s, p) && forall j | 0 <= j < p :: !SepAt(s, j)
    ensures FirstSep(s) == p
  {
    var q := FirstSep(s);
    assert q < p ==> SepAt(s, q);
    assert p < q ==> !SepAt(s, p);
  }

  lemma {:induction false} LeftoverHasNoSep(s: string)
    ensures !HasSep(Leftover(s))
    decreases |s|
  {
    var p := FirstSep(s);
    if p < |s| { LeftoverHasNoSep(s[p + 2..]); }
  }

  lemma {:induction false} FirstSepAppend(s: string, t: string)
    requires HasSep(s)
    ensures FirstSep(s + t) == FirstSep(s)
  {
    var p := FirstSep(s);
    assert SepAt(s + t, p);
    forall j | 0 <= j < p ensures !SepAt(s + t, j) { assert !SepAt(s, j); }
    FirstSepUnique(s + t, p);
  }

  lemma {:induction false} SplitHead(s: string)
    requires HasSep(s)
    ensures Split(s) == [s[..FirstSep(s)]] + Split(s[FirstSep(s) + 2..])
  {
    hide FirstSep;
  }

  lemma {:induction false} InitAndLast<T>(x: T, rest: seq<T>)
    requires rest != []
    ensures ([x] + rest)[..|rest|] == [x] + rest[..|rest| - 1] && ([x] + rest)[|rest|] == rest[|rest| - 1]
  {
  }

  lemma {:induction false} SplitOne(s: string)
    requires HasSep(s)
    ensures Frames(s) == [s[..FirstSep(s)]] + Frames(s[FirstSep(s) + 2..])
    ensures Leftover(s) == Leftover(s[FirstSep(s) + 2..])
  {
    hide FirstSep, Split;
    SplitHead(s);
    InitAndLast(s[..FirstSep(s)], Split(s[FirstSep(s) + 2..]));
  }

  /** Text that arrives later only extends the leftover: frames already found stay. */
  lemma {:induction false} SplitAppend(s: string, t: string)
    ensures Frames(s + t) == Frames(s) + Frames(Leftover(s) + t)
    ensures Leftover(s + t) == Leftover(Leftover(s) + t)
    decreases |s|
  {
    if HasSep(s) {
      var p := FirstSep(s);
      FirstSepAppend(s, t);
      assert (s + t)[p + 2..] == s[p + 2..] + t && (s + t)[..p] == s[..p];
      SplitAppend(s[p + 2..], t);
      SplitOne(s);
      SplitOne(s + t);
    }
  }

  lemma {:induction false} FrameOff(body: string, rest: string)
    requires body != "" && body[|body| - 1] != '\n' && forall j | 0 <= j < |body| :: !SepAt(body, j)
    ensures Frames(body + "\n\n" + rest) == [body] + Frames(rest)
    ensures Leftover(body + "\n\n" + rest) == Leftover(rest)
  {
    var s := body + "\n\n" + rest;
    assert SepAt(s, |body|);
    forall j | 0 <= j < |body| ensures !SepAt(s, j) { assert !SepAt(body, j); }
    FirstSepUnique(s, |body|);
    assert s[..|body|] == body && s[|body| + 2..] == rest;
    SplitOne(s);
  }

  // ---- splitting loses nothing ------------------------------------------------------------------

  function JoinFrames(frames: seq<string>, leftover: string): string {
    if frames == [] then leftover else frames[0] + "\n\n" + JoinFrames(frames[1..], leftover)
  }

  /** Splitting is exact: the frames, each followed by the first blank line there is, and the
      leftover make up the text again. */
  lemma {:induction false} SplitJoins(s: string)
    ensures JoinFrames(Frames(s), Leftover(s)) == s
    ensures forall k, j | 0 <= k < |Frames(s)| && 0 <= j < |Frames(s)[k]| :: !SepAt(Frames(s)[k] + "\n\n", j)
    decreases |s|
  {
    if HasSep(s) {
      hide Split, FirstSep;
      var p := FirstSep(s);
      var rest := s[p + 2..];
      SplitOne(s);
      SplitJoins(rest);
      assert Frames(s)[1..] == Frames(rest);
      assert s == s[..p] + "\n\n" + rest by { assert SepAt(s, p); }
      forall k, j | 0 <= k < |Frames(s)| && 0 <= j < |Frames(s)[k]| ensures !SepAt(Frames(s)[k] + "\n\n", j) {
        if k == 0 { assert !SepAt(s, j); } else { assert Frames(s)[k] == Frames(rest)[k - 1]; }
      }
    }
  }

  function WithoutBreaks(s: string): string {
    if s == "" then "" else WithoutBreaks(s[..|s| - 1]) + if LineBreak(s[|s| - 1]) then "" else [s[|s| - 1]]
  }

  lemma {:induction false} WithoutBreaksAppend(s: string, t: string)
    ensures WithoutBreaks(s + t) == WithoutBreaks(s) + WithoutBreaks(t)
  {
    if t == "" {
      assert s + t == s;
    } else {
      var n := |t| - 1;
      assert (s + t)[..|s| + n] == s + t[..n];
      WithoutBreaksAppend(s, t[..n]);
    }
  }

  lemma {:induction false} WithoutBreaksSame(s: string)
    requires forall j | 0 <= j < |s| :: !LineBreak(s[j])
    ensures WithoutBreaks(s) == s
  {
    if s != "" {
      WithoutBreaksSame(s[..|s| - 1]);
      assert s == s[..|s| - 1] + [s[|s| - 1]];
    }
  }

  function JoinLines(lines: seq<string>): string {
    if lines == [] then "" else lines[0] + JoinLines(lines[1..])
  }

  lemma {:induction false} OnlyBreaks(s: string)
    requires |s| <= 2 && forall j | 0 <= j < |s| :: LineBreak(s[j])
    ensures WithoutBreaks(s) == ""
  {
    if |s| == 2 { assert s[..1][..0] == "" && WithoutBreaks(s[..1]) == ""; }
  }

  /** Where the first line of a text ends and the next begins. */
  function NextStart(s: string): (n: nat)
    requires FirstBreak(s) < |s|
    ensures FirstBreak(s) < n <= |s|
  {
    var p := FirstBreak(s);
    p + if s[p] == '\r' && p + 1 < |s| && s[p + 1] == '\n' then 2 else 1
  }

  lemma {:induction false} FirstLine(s: string)
    ensures s == "" ==> SplitLines(s) == []
    ensures s != "" && FirstBreak(s) == |s| ==> SplitLines(s) == [s]
    ensures FirstBreak(s) < |s| ==> SplitLines(s) == [s[..FirstBreak(s)]] + SplitLines(s[NextStart(s)..])
  {
    hide FirstBreak;
  }

  predicate NoBreaks(s: string) { forall j | 0 <= j < |s| :: !LineBreak(s[j]) }

  lemma {:induction false} LinesHaveNoBreaks(s: string)
    ensures forall k | 0 <= k < |SplitLines(s)| :: NoBreaks(SplitLines(s)[k])
    decreases |s|
  {
    hide FirstBreak, SplitLines, LineBreak;
    FirstLine(s);
    if FirstBreak(s) < |s| {
      LinesHaveNoBreaks(s[NextStart(s)..]);
      assert NoBreaks(s[..FirstBreak(s)]);
    } else {
      assert NoBreaks(s);
    }
  }

  lemma {:induction false} JoinFirst(line: string, lines: seq<string>)
    ensures JoinLines([line] + lines) == line + JoinLines(lines)
  {
    assert ([line] + lines)[1..] == lines;
  }

  lemma {:induction false} JoinNone()
    ensures JoinLines([]) == "" && WithoutBreaks("") == ""
  {
  }

  lemma {:induction false} MiddleDropped(a: string, b: string, c: string)
    requires WithoutBreaks(a) == a && WithoutBreaks(b) == ""
    ensures WithoutBreaks(a + (b + c)) == a + WithoutBreaks(c)
  {
    hide WithoutBreaks;
    WithoutBreaksAppend(a, b + c);
    WithoutBreaksAppend(b, c);
    assert "" + WithoutBreaks(c) == WithoutBreaks(c);
  }

  lemma {:induction false} CutAt(s: string, p: nat, n: nat)
    requires p <= n <= |s|
    ensures s == s[..p] + (s[p..n] + s[n..])
  {
  }

  lemma {:induction false} BreakDropped(s: string)
    requires FirstBreak(s) < |s|
    ensures WithoutBreaks(s) == s[..FirstBreak(s)] + WithoutBreaks(s[NextStart(s)..])
  {
    hide FirstBreak, LineBreak, WithoutBreaks;
    var p, n := FirstBreak(s), NextStart(s);
    WithoutBreaksSame(s[..p]);
    BreaksAt(s, p, n);
    CutAt(s, p, n);
    MiddleDropped(s[..p], s[p..n], s[n..]);
  }

  /** Nothing of the text is missing in its lines but the line breaks. */
  lemma {:induction false} LinesHoldTheText(s: string)
    ensures JoinLines(SplitLines(s)) == WithoutBreaks(s)
    decreases |s|
  {
    hide FirstBreak, SplitLines, LineBreak, WithoutBreaks, JoinLines, NextStart;
    FirstLine(s);
    JoinNone();
    if FirstBreak(s) < |s| {
      LinesHoldTheText(s[NextStart(s)..]);
      JoinFirst(s[..FirstBreak(s)], SplitLines(s[NextStart(s)..]));
      BreakDropped(s);
    } else if s != "" {
      WithoutBreaksSame(s);
      JoinFirst(s, []);
      assert [s] + [] == [s];
    }
  }

  lemma {:induction false} BreaksAt(s: string, p: nat, n: nat)
    requires p < n <= |s| && LineBreak(s[p]) && (n == p + 1 || (n == p + 2 && s[p + 1] == '\n'))
    ensures WithoutBreaks(s[p..n]) == ""
  {
    OnlyBreaks(s[p..n]);
  }

  // ---- incremental parsers ----------------------------------------------------------------------

  datatype Parser<S> = Parser(buffer: string, state: S)

  function Fold<S, E>(handle: (S, string) -> (S, seq<E>), st: S, frames: seq<string>): (S, seq<E>) {
    if frames == [] then (st, [])
    else
      var (mid, early) := Fold(handle, st, frames[..|frames| - 1]);
      var (end, late) := handle(mid, frames[|frames| - 1]);
      (end, early + late)
  }

  /** One chunk: split, handle the frames, keep the leftover. */
  function Feed<S, E>(handle: (S, string) -> (S, seq<E>), p: Parser<S>, chunk: string): (Parser<S>, seq<E>) {
    var text := p.buffer + chunk;
    var (st, events) := Fold(handle, p.state, Frames(text));
    (Parser(Leftover(text), st), events)
  }

  function FeedAll<S, E>(handle: (S, string) -> (S, seq<E>), p: Parser<S>, chunks: seq<string>): (Parser<S>, seq<E>) {
    if chunks == [] then (p, [])
    else
      var (mid, early) := FeedAll(handle, p, chunks[..|chunks| - 1]);
      var (end, late) := Feed(handle, mid, chunks[|chunks| - 1]);
      (end, early + late)
  }

  function Concat(chunks: seq<string>): string {
    if chunks == [] then "" else Concat(chunks[..|chunks| - 1]) + chunks[|chunks| - 1]
  }

  lemma {:induction false} FoldAppend<S, E>(handle: (S, string) -> (S, seq<E>), st: S, f: seq<string>, g: seq<string>)
    ensures var (mid, early) := Fold(handle, st, f);
            var (end, late) := Fold(handle, mid, g);
            Fold(handle, st, f + g).0 == end && Fold(handle, st, f + g).1 == early + late
  {
    if g == [] {
      assert f + g == f;
    } else {
      assert (f + g)[..|f + g| - 1] == f + g[..|g| - 1];
      FoldAppend(handle, st, f, g[..|g| - 1]);
    }
  }

  lemma {:induction false} FeedTwice<S, E>(handle: (S, string) -> (S, seq<E>), p: Parser<S>, s: string, t: string)
    ensures var (mid, early) := Feed(handle, p, s);
            var (end, late) := Feed(handle, mid, t);
            Feed(handle, p, s + t).0 == end && Feed(handle, p, s + t).1 == early + late
  {
    var text := p.buffer + s;
    assert p.buffer + (s + t) == text + t;
    SplitAppend(text, t);
    FoldAppend(handle, p.state, Frames(text), Frames(Leftover(text) + t));
  }

  /** However the text is cut into chunks, the events and the final state, leftover included, are
      those of feeding it whole. */
  lemma {:induction false} ChunkingIsIrrelevant<S, E>(
      handle: (S, string) -> (S, seq<E>), p: Parser<S>, chunks: seq<string>)
    requires !HasSep(p.buffer)
    ensures FeedAll(handle, p, chunks) == Feed(handle, p, Concat(chunks))
    ensures !HasSep(FeedAll(handle, p, chunks).0.buffer)
  {
    if chunks == [] {
      assert p.buffer + "" == p.buffer;
    } else {
      var before, last := chunks[..|chunks| - 1], chunks[|chunks| - 1];
      ChunkingIsIrrelevant(handle, p, before);
      FeedTwice(handle, p, Concat(before), last);
      LeftoverHasNoSep(p.buffer + Concat(chunks));
    }
  }

  // ---- the two loops of the code ----------------------------------------------------------------

  lemma {:induction false} FoldFirst<S, E>(handle: (S, string) -> (S, seq<E>), st: S, f: string, g: seq<string>)
    ensures var (mid, early) := handle(st, f);
            var (end, late) := Fold(handle, mid, g);
            Fold(handle, st, [f] + g).0 == end && Fold(handle, st, [f] + g).1 == early + late
  {
    FoldAppend(handle, st, [f], g);
    assert [f][..0] == [];
    assert Fold(handle, st, [f]).1 == handle(st, f).1;
  }

  /** The split-one loop: take a frame off the front while the buffer has a blank line. It finds
      the frames the split-all parser finds. */
  method DrainBuffer<S, E>(handle: (S, string) -> (S, seq<E>), p: Parser<S>, chunk: string)
    returns (end: Parser<S>, events: seq<E>)
    ensures end == Feed(handle, p, chunk).0 && events == Feed(handle, p, chunk).1
  {
    var buffer, st := p.buffer + chunk, p.state;
    events := [];
    while HasSep(buffer)
      invariant var (done, late) := Fold(handle, st, Frames(buffer));
                && Feed(handle, p, chunk).0 == Parser(Leftover(buffer), done)
                && Feed(handle, p, chunk).1 == events + late
      decreases |buffer|
    {
      var i := FirstSep(buffer);
      SplitOne(buffer);
      FoldFirst(handle, st, buffer[..i], Frames(buffer[i + 2..]));
      var (mid, found) := handle(st, buffer[..i]);
      st, events := mid, events + found;
      buffer := buffer[i + 2..];
    }
    end := Parser(buffer, st);
  }
}
