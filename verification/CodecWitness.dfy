/** A codec with the properties the stream theorem asks for exists: the theorem is not vacuous. */
module CodecWitness {
  import opened Prelude
  import opened Framing
  import opened ResponsesStream

  /** n marks and an end mark. */
  function Unary(n: nat): string {
    if n == 0 then "b" else "a" + Unary(n - 1)
  }

  function Spell(s: string): string {
    if s == "" then "" else (if WideBreak(s[0]) then [s[0]] else Unary(s[0] as int)) + Spell(s[1..])
  }

  function Fold2(n: int): nat { if n >= 0 then 2 * n else -2 * n - 1 }

  function Tag(e: Response): nat {
    match e
    case Created => 0
    case ItemAdded => 1
    case PartAdded => 2
    case TextDelta(_) => 3
    case TextDone(_) => 4
    case PartDone(_) => 5
    case ItemDone(_) => 6
    case Completed(_, _, _) => 7
    case OtherEvent => 8
  }

  function In(e: Response): int { if e.Completed? then e.input else 0 }

  function Out(e: Response): int { if e.Completed? then e.output else 0 }

  function Inner(e: Response): string {
    Unary(Tag(e)) + (Unary(Fold2(In(e))) + (Unary(Fold2(Out(e))) + Spell(TextOf(e))))
  }

  function Encode(e: Response): string { "{" + Inner(e) + "}" }

  ghost predicate Plain(s: string) {
    forall i | 0 <= i < |s| :: s[i] == 'a' || s[i] == 'b' || WideBreak(s[i])
  }

  lemma {:induction false} UnaryPlain(n: nat)
    ensures Unary(n) != "" && forall i | 0 <= i < |Unary(n)| :: Unary(n)[i] == 'a' || Unary(n)[i] == 'b'
  {
    if n > 0 { UnaryPlain(n - 1); }
  }

  lemma {:induction false} SpellPlain(s: string)
    ensures Plain(Spell(s)) && (Clean(Spell(s)) <==> Clean(s))
  {
    if s != "" {
      SpellPlain(s[1..]);
      UnaryPlain(s[0] as int);
      var head := if WideBreak(s[0]) then [s[0]] else Unary(s[0] as int);
      var rest := Spell(s[1..]);
      assert Spell(s) == head + rest;
      if Clean(Spell(s)) {
        assert Spell(s)[0] == head[0];
        forall i | 0 <= i < |rest| ensures !WideBreak(rest[i]) { assert Spell(s)[|head| + i] == rest[i]; }
        forall i | 0 <= i < |s| ensures !WideBreak(s[i]) { if i > 0 { assert s[i] == s[1..][i - 1]; } }
      }
    }
  }

  lemma {:induction false} UnaryCancels(m: nat, n: nat, x: string, y: string)
    requires Unary(m) + x == Unary(n) + y
    ensures m == n && x == y
  {
    assert (Unary(m) + x)[0] == (if m == 0 then 'b' else 'a');
    assert (Unary(n) + y)[0] == (if n == 0 then 'b' else 'a');
    if m == 0 {
      assert (Unary(m) + x)[1..] == x && (Unary(n) + y)[1..] == y;
    } else {
      assert (Unary(m) + x)[1..] == Unary(m - 1) + x;
      assert (Unary(n) + y)[1..] == Unary(n - 1) + y;
      UnaryCancels(m - 1, n - 1, x, y);
    }
  }

  lemma {:induction false} SpellInjective(s: string, t: string)
    requires Spell(s) == Spell(t)
    ensures s == t
  {
    if s != "" && t != "" {
      UnaryPlain(s[0] as int);
      UnaryPlain(t[0] as int);
      assert Spell(s)[0] == (if WideBreak(s[0]) then s[0] else Unary(s[0] as int)[0]);
      assert Spell(t)[0] == (if WideBreak(t[0]) then t[0] else Unary(t[0] as int)[0]);
      if WideBreak(s[0]) {
        assert Spell(s)[1..] == Spell(s[1..]) && Spell(t)[1..] == Spell(t[1..]);
      } else {
        UnaryCancels(s[0] as int, t[0] as int, Spell(s[1..]), Spell(t[1..]));
      }
      SpellInjective(s[1..], t[1..]);
      assert s == [s[0]] + s[1..] && t == [t[0]] + t[1..];
    } else if s != "" {
      UnaryPlain(s[0] as int);
    } else if t != "" {
      UnaryPlain(t[0] as int);
    }
  }

  lemma {:induction false} SameParts(e: Response, f: Response)
    requires Tag(e) == Tag(f) && In(e) == In(f) && Out(e) == Out(f) && TextOf(e) == TextOf(f)
    ensures e == f
  {
  }

  lemma {:induction false} EncodeInjective(e: Response, f: Response)
    requires Encode(e) == Encode(f)
    ensures e == f
  {
    hide Unary, Spell, Tag, In, Out, TextOf;
    assert Encode(e)[1..|Encode(e)| - 1] == Inner(e) && Encode(f)[1..|Encode(f)| - 1] == Inner(f);
    var x, y := Unary(Fold2(Out(e))) + Spell(TextOf(e)), Unary(Fold2(Out(f))) + Spell(TextOf(f));
    UnaryCancels(Tag(e), Tag(f), Unary(Fold2(In(e))) + x, Unary(Fold2(In(f))) + y);
    UnaryCancels(Fold2(In(e)), Fold2(In(f)), x, y);
    UnaryCancels(Fold2(Out(e)), Fold2(Out(f)), Spell(TextOf(e)), Spell(TextOf(f)));
    SpellInjective(TextOf(e), TextOf(f));
    SameParts(e, f);
  }

  lemma {:induction false} PlainAppend(x: string, y: string)
    requires Plain(x) && Clean(x) && Plain(y)
    ensures Plain(x + y) && (Clean(x + y) <==> Clean(y))
  {
    assert forall i | 0 <= i < |y| :: (x + y)[|x| + i] == y[i];
  }

  lemma {:induction false} InnerPlain(e: Response)
    ensures Plain(Inner(e)) && (Clean(Inner(e)) <==> Clean(TextOf(e)))
  {
    hide Unary, Spell, Tag, In, Out, TextOf, Fold2;
    var text := Spell(TextOf(e));
    SpellPlain(TextOf(e));
    UnaryPlain(Tag(e));
    UnaryPlain(Fold2(In(e)));
    UnaryPlain(Fold2(Out(e)));
    PlainAppend(Unary(Fold2(Out(e))), text);
    PlainAppend(Unary(Fold2(In(e))), Unary(Fold2(Out(e))) + text);
    PlainAppend(Unary(Tag(e)), Unary(Fold2(In(e))) + (Unary(Fold2(Out(e))) + text));
  }

  ghost function Decode(s: string): Option<Response> {
    if e: Response :| Encode(e) == s then Some(e) else None
  }

  /** An encoding is in braces, closes only at its end, breaks only at wide breaks, and has one
      exactly when its text does. */
  ghost predicate Shape(s: string) {
    && |s| >= 2 && s[0] == '{' && s[|s| - 1] == '}'
    && (forall i | 0 <= i < |s| && LineBreak(s[i]) :: WideBreak(s[i]))
    && (forall i | 0 <= i < |s| - 1 :: s[i] != '}')
  }

  lemma {:induction false} EncodeShape(e: Response)
    ensures Shape(Encode(e)) && (Clean(Encode(e)) <==> Clean(TextOf(e)))
  {
    hide Inner, TextOf;
    InnerPlain(e);
    var s, t := Encode(e), Inner(e);
    assert forall i | 0 < i < |s| - 1 :: s[i] == t[i - 1];
    assert forall i | 0 <= i < |t| :: s[i + 1] == t[i];
  }

  lemma {:induction false} DecodeEncode(e: Response)
    ensures Decode(Encode(e)) == Some(e)
  {
    hide Encode;
    var f :| Encode(f) == Encode(e) && Decode(Encode(e)) == Some(f);
    EncodeInjective(e, f);
  }

  lemma {:induction false} NotAnEncoding(s: string)
    requires s == "" || s[|s| - 1] != '}' || '\n' in s
    ensures Decode(s).None?
  {
    hide Encode;
    forall f: Response ensures Encode(f) != s {
      EncodeShape(f);
      assert forall i | 0 <= i < |Encode(f)| :: Encode(f)[i] != '\n';
    }
  }

  lemma {:induction false} CutIsBroken(c: Codec, s: string, m: nat)
    requires c.decode == (s => Decode(s)) && Shape(s) && 0 < m < |s|
    ensures Broken(c, s[..m])
  {
    hide Decode;
    NotAnEncoding(s[..m]);
    forall x ensures c.decode(s[..m] + "\n" + x).None? {
      assert (s[..m] + "\n" + x)[m] == '\n';
      NotAnEncoding(s[..m] + "\n" + x);
    }
  }

  lemma {:induction false} CodecExists()
    ensures exists c: Codec :: JsonCodec(c)
  {
    hide Encode, Decode, TextOf;
    var c := Codec(Encode, s => Decode(s));
    forall e: Response ensures Json(c, e) {
      EncodeShape(e);
      DecodeEncode(e);
      forall m | 0 < m < |Encode(e)| ensures Broken(c, Encode(e)[..m]) {
        CutIsBroken(c, Encode(e), m);
      }
    }
    assert JsonCodec(c);
  }
}
