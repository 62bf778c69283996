/** JSON Pointer (RFC 6901) and the token escaping of internal/inventory/openstack.go. */
module JsonPointer {
  import opened Wrappers
  import opened GoStrings

  /** The client's two passes. */
  function Escape(s: string): string {
    ReplaceAll(ReplaceAll(s, '~', "~0"), '/', "~1")
  }

  /** One pass of decoding: every '~' followed by `d` becomes `sub`. */
  function Unpair(s: string, d: char, sub: char): string {
    if s == "" then ""
    else if |s| >= 2 && s[0] == '~' && s[1] == d then [sub] + Unpair(s[2..], d, sub)
    else [s[0]] + Unpair(s[1..], d, sub)
  }

  /** Section 4 of RFC 6901: first ~1, then ~0. */
  function Decode(s: string): string {
    Unpair(Unpair(s, '1', '/'), '0', '~')
  }

  /** Section 3 of RFC 6901: no slash, and every tilde starts ~0 or ~1. */
  predicate WellFormedToken(s: string) {
    && SlashFree(s)
    && forall i :: 0 <= i < |s| && s[i] == '~' ==> i + 1 < |s| && (s[i + 1] == '0' || s[i + 1] == '1')
  }

  function EscapeChar(c: char): string {
    if c == '~' then "~0" else if c == '/' then "~1" else [c]
  }

  lemma EscapeStep(c: char, t: string)
    ensures Escape([c] + t) == EscapeChar(c) + Escape(t)
  {
    var head := if c == '~' then "~0" else [c];
    assert ([c] + t)[1..] == t;
    assert ReplaceAll([c] + t, '~', "~0") == head + ReplaceAll(t, '~', "~0");
    ReplaceAllConcat(head, ReplaceAll(t, '~', "~0"), '/', "~1");
    if c == '~' {
      assert head[1..] == "0" && "0"[1..] == "";
      assert ReplaceAll("0", '/', "~1") == "0";
      assert ReplaceAll("~0", '/', "~1") == "~0";
    } else {
      assert [c][1..] == "";
    }
  }

  /** Decoding's first pass undoes escaping's second. */
  lemma {:induction false} FirstPass(s: string)
    ensures Unpair(Escape(s), '1', '/') == ReplaceAll(s, '~', "~0")
  {
    if s == "" {
    } else {
      var c, t := s[0], s[1..];
      assert s == [c] + t;
      EscapeStep(c, t);
      FirstPass(t);
      var e := Escape(s);
      if c == '~' {
        assert e[1..] == "0" + Escape(t) && ("0" + Escape(t))[1..] == Escape(t);
      } else if c == '/' {
        assert e[2..] == Escape(t);
      } else {
        assert e[1..] == Escape(t);
      }
    }
  }

  lemma {:induction false} SecondPass(s: string)
    ensures Unpair(ReplaceAll(s, '~', "~0"), '0', '~') == s
  {
    if s == "" {
    } else {
      var e := ReplaceAll(s, '~', "~0");
      SecondPass(s[1..]);
      if s[0] == '~' {
        assert e[2..] == ReplaceAll(s[1..], '~', "~0");
      } else {
        assert e[1..] == ReplaceAll(s[1..], '~', "~0");
      }
      assert s == [s[0]] + s[1..];
    }
  }

  lemma DecodeEscaped(s: string)
    ensures Decode(Escape(s)) == s
  {
    FirstPass(s);
    SecondPass(s);
  }

  lemma {:induction false} EscapedIsToken(s: string)
    ensures WellFormedToken(Escape(s))
  {
    if s == "" {
    } else {
      EscapeStep(s[0], s[1..]);
      assert s == [s[0]] + s[1..];
      EscapedIsToken(s[1..]);
    }
  }

  /** Distinct labels address distinct paths. */
  lemma EscapeInjective(a: string, b: string)
    ensures Escape(a) == Escape(b) <==> a == b
  {
    DecodeEscaped(a);
    DecodeEscaped(b);
  }

  lemma DecodeSlash(rest: string)
    ensures Decode("~1" + rest) == "/" + Decode(rest)
  {
    var t := "~1" + rest;
    assert t[2..] == rest;
    var first := Unpair(t, '1', '/');
    assert first == "/" + Unpair(rest, '1', '/');
    assert first[1..] == Unpair(rest, '1', '/');
  }

  lemma DecodeTilde(rest: string)
    ensures Decode("~0" + rest) == "~" + Decode(rest)
  {
    var t := "~0" + rest;
    assert t[1..] == "0" + rest && t[1..][1..] == rest;
    assert Unpair("0" + rest, '1', '/') == "0" + Unpair(rest, '1', '/');
    var first := Unpair(t, '1', '/');
    assert first == "~" + ("0" + Unpair(rest, '1', '/'));
    assert first[2..] == Unpair(rest, '1', '/');
  }

  lemma DecodePlain(c: char, rest: string)
    requires c != '~'
    ensures Decode([c] + rest) == [c] + Decode(rest)
  {
    var t := [c] + rest;
    assert t[1..] == rest;
    var first := Unpair(t, '1', '/');
    assert first[1..] == Unpair(rest, '1', '/');
  }

  /** What follows an escape sequence, or any other character, is well-formed again. */
  lemma RestWellFormed(t: string, n: nat)
    requires WellFormedToken(t) && n <= |t|
    ensures WellFormedToken(t[n..])
  {
    var rest := t[n..];
    forall i | 0 <= i < |rest| && rest[i] == '~'
      ensures i + 1 < |rest| && (rest[i + 1] == '0' || rest[i + 1] == '1')
    {
      assert t[i + n] == '~';
    }
    assert forall c :: c in rest ==> c in t;
  }

  /** Escaping reaches every well-formed token: the two are inverse to each other. */
  lemma {:induction false} EscapeDecoded(t: string)
    requires WellFormedToken(t)
    ensures Escape(Decode(t)) == t
    decreases |t|
  {
    if t == "" {
    } else if t[0] == '~' {
      var rest := t[2..];
      RestWellFormed(t, 2);
      EscapeDecoded(rest);
      assert t == [t[0], t[1]] + rest;
      if t[1] == '1' {
        DecodeSlash(rest);
        EscapeStep('/', Decode(rest));
      } else {
        DecodeTilde(rest);
        EscapeStep('~', Decode(rest));
      }
    } else {
      var rest := t[1..];
      RestWellFormed(t, 1);
      EscapeDecoded(rest);
      assert t == [t[0]] + rest;
      DecodePlain(t[0], rest);
      EscapeStep(t[0], Decode(rest));
    }
  }

  // ---------------------------------------------------------------- whole pointers

  function SplitAll(s: string): seq<string>
    decreases |s|
  {
    var parts := SplitOnce(s);
    if |parts| == 1 then parts else [parts[0]] + SplitAll(parts[1])
  }

  function DecodeAll(parts: seq<string>): seq<string> {
    seq(|parts|, i requires 0 <= i < |parts| => Decode(parts[i]))
  }

  /** The reference tokens of a pointer; None if it is not one. */
  function Tokens(pointer: string): (r: Option<seq<string>>)
    ensures r.None? <==> pointer != "" && pointer[0] != '/'
    ensures pointer == "" ==> r == Some([])
  {
    if pointer == "" then Some([])
    else if pointer[0] != '/' then None
    else Some(DecodeAll(SplitAll(pointer[1..])))
  }

  const EXTRA := "extra"
  const LABELS := "osac_labels"

  /** "/extra/osac_labels" */
  function LabelsPath(): string {
    "/" + (EXTRA + "/" + LABELS)
  }

  /** "/extra/osac_labels/" followed by the escaped label */
  function LabelPath(key: string): string {
    "/" + (EXTRA + "/" + (LABELS + "/" + Escape(key)))
  }

  predicate Plain(s: string) {
    SlashFree(s) && '~' !in s
  }

  lemma {:induction false} PlainUnpair(s: string, d: char, sub: char)
    requires '~' !in s
    ensures Unpair(s, d, sub) == s
  {
    if s == "" {
    } else {
      PlainUnpair(s[1..], d, sub);
    }
  }

  lemma PlainDecode(s: string)
    requires Plain(s)
    ensures Decode(s) == s
  {
    PlainUnpair(s, '1', '/');
    PlainUnpair(s, '0', '~');
  }

  lemma SplitTwo(a: string, b: string)
    requires SlashFree(a) && SlashFree(b)
    ensures SplitAll(a + "/" + b) == [a, b]
  {
    SplitJoined(a, b);
    assert SplitAll(b) == [b];
    assert SplitAll(a + "/" + b) == [a] + [b];
  }

  lemma TokensOfTwo(a: string, b: string)
    requires Plain(a) && Plain(b)
    ensures Tokens("/" + (a + "/" + b)) == Some([a, b])
  {
    var path := "/" + (a + "/" + b);
    assert path[1..] == a + "/" + b;
    SplitTwo(a, b);
    PlainDecode(a);
    PlainDecode(b);
    assert DecodeAll([a, b]) == [a, b];
  }

  lemma SplitThree(a: string, b: string, c: string)
    requires SlashFree(a) && SlashFree(b) && SlashFree(c)
    ensures SplitAll(a + "/" + (b + "/" + c)) == [a, b, c]
  {
    SplitJoined(a, b + "/" + c);
    SplitTwo(b, c);
  }

  lemma TokensOfThree(a: string, b: string, c: string)
    requires Plain(a) && Plain(b)
    ensures Tokens("/" + (a + "/" + (b + "/" + Escape(c)))) == Some([a, b, c])
  {
    var e := Escape(c);
    var path := "/" + (a + "/" + (b + "/" + e));
    EscapedIsToken(c);
    assert path[1..] == a + "/" + (b + "/" + e);
    SplitThree(a, b, e);
    PlainDecode(a);
    PlainDecode(b);
    DecodeEscaped(c);
    assert DecodeAll([a, b, e]) == [a, b, c];
  }

  /** A label's path leads to that label, whatever characters it contains. */
  lemma LabelPathTokens(key: string)
    ensures Tokens(LabelPath(key)) == Some([EXTRA, LABELS, key])
    ensures Tokens(LabelsPath()) == Some([EXTRA, LABELS])
  {
    TokensOfThree(EXTRA, LABELS, key);
    TokensOfTwo(EXTRA, LABELS);
  }
}
