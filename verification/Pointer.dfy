/** JSON pointers (RFC 6901): the printer of `diff.rs` and the two client parsers. */
module Pointer {

  // ------------------------------------------------------------------
  // Escaping
  // ------------------------------------------------------------------

  /** Replace every occurrence of the character `c`. */
  function ReplaceChar(s: string, c: char, sub: string): string {
    if s == [] then [] else (if s[0] == c then sub else [s[0]]) + ReplaceChar(s[1..], c, sub)
  }

  /** Replace every occurrence of the two-character pattern `a b`, scanning left to right. */
  function ReplacePair(s: string, a: char, b: char, sub: char): string {
    if |s| < 2 then s
    else if s[0] == a && s[1] == b then [sub] + ReplacePair(s[2..], a, b, sub)
    else [s[0]] + ReplacePair(s[1..], a, b, sub)
  }

  function Escape(seg: string): string {
    ReplaceChar(ReplaceChar(seg, '~', "~0"), '/', "~1")
  }

  function Unescape(seg: string): string {
    ReplacePair(ReplacePair(seg, '~', '1', '/'), '~', '0', '~')
  }

  lemma {:induction false} ReplaceCharSplits(a: string, b: string, c: char, sub: string)
    ensures ReplaceChar(a + b, c, sub) == ReplaceChar(a, c, sub) + ReplaceChar(b, c, sub)
  {
    if a == [] {
      assert a + b == b;
    } else {
      assert (a + b)[1..] == a[1..] + b;
      ReplaceCharSplits(a[1..], b, c, sub);
    }
  }

  function EscapeChar(c: char): string {
    if c == '~' then "~0" else if c == '/' then "~1" else [c]
  }

  /** The two sequential replaces act character by character. */
  lemma {:induction false} EscapeHead(seg: string)
    requires seg != []
    ensures Escape(seg) == EscapeChar(seg[0]) + Escape(seg[1..])
  {
    var rest := ReplaceChar(seg[1..], '~', "~0");
    var head := if seg[0] == '~' then "~0" else [seg[0]];
    ReplaceCharSplits(head, rest, '/', "~1");
    assert head == [head[0]] + head[1..];
    assert ReplaceChar(head, '/', "~1") == EscapeChar(seg[0]) by {
      if seg[0] == '~' {
        assert "~0"[1..] == "0" && "0"[1..] == "";
      } else {
        assert head[1..] == "";
      }
    }
  }

  lemma {:induction false} FirstPassUndoesSlash(seg: string)
    ensures ReplacePair(Escape(seg), '~', '1', '/') == ReplaceChar(seg, '~', "~0")
  {
    if seg != [] {
      EscapeHead(seg);
      FirstPassUndoesSlash(seg[1..]);
      var e, tail := Escape(seg), Escape(seg[1..]);
      if seg[0] == '~' {
        assert e[1..] == ['0'] + tail && (['0'] + tail)[1..] == tail;
      } else if seg[0] == '/' {
        assert e[2..] == tail;
      } else {
        assert e[1..] == tail;
      }
    }
  }

  lemma {:induction false} SecondPassUndoesTilde(seg: string)
    ensures ReplacePair(ReplaceChar(seg, '~', "~0"), '~', '0', '~') == seg
  {
    if seg != [] {
      SecondPassUndoesTilde(seg[1..]);
      var e, tail := ReplaceChar(seg, '~', "~0"), ReplaceChar(seg[1..], '~', "~0");
      if seg[0] == '~' {
        assert e[2..] == tail;
      } else {
        assert e[1..] == tail;
      }
    }
  }

  /** The decoder's two passes, in RFC 6901's order, undo the encoder's two passes. */
  lemma UnescapeEscape(seg: string)
    ensures Unescape(Escape(seg)) == seg
  {
    FirstPassUndoesSlash(seg);
    SecondPassUndoesTilde(seg);
  }

  /** Undoing the passes in the other order is wrong: the key "~1" comes back as "/". */
  lemma SwappedPassesFail()
    ensures ReplacePair(ReplacePair(Escape("~1"), '~', '0', '~'), '~', '1', '/') != "~1"
  {
    assert ReplaceChar("~1", '~', "~0") == "~01";
    EscapeHead("~1");
    EscapeHead("1");
    assert "~1"[1..] == "1" && "1"[1..] == "";
    var e := "~01";
    assert Escape("~1") == e;
    assert e[2..] == "1";
    assert ReplacePair(e, '~', '0', '~') == "~1";
    assert "~1"[2..] == "";
    assert ReplacePair("~1", '~', '1', '/') == "/";
  }

  lemma {:induction false} EscapeHasNoSlash(seg: string)
    ensures '/' !in Escape(seg)
  {
    if seg != [] {
      EscapeHead(seg);
      EscapeHasNoSlash(seg[1..]);
    }
  }

  // ------------------------------------------------------------------
  // Printing and parsing whole pointers
  // ------------------------------------------------------------------

  function PrintPointer(tokens: seq<string>): string {
    if tokens == [] then "" else "/" + Escape(tokens[0]) + PrintPointer(tokens[1..])
  }

  /** `split("/")`: never empty; one more piece than there are slashes. */
  function Split(path: string): (pieces: seq<string>)
    ensures pieces != []
  {
    if path == [] then [""]
    else
      var rest := Split(path[1..]);
      if path[0] == '/' then [""] + rest else [[path[0]] + rest[0]] + rest[1..]
  }

  function UnescapeAll(pieces: seq<string>): (tokens: seq<string>)
    ensures |tokens| == |pieces|
  {
    if pieces == [] then [] else [Unescape(pieces[0])] + UnescapeAll(pieces[1..])
  }

  /** `parsePath` of both clients: drop the first piece, unescape the others. */
  function ParsePath(path: string): seq<string> {
    UnescapeAll(Split(path)[1..])
  }

  lemma {:induction false} SplitPrefix(piece: string, rest: string)
    requires '/' !in piece
    requires rest == "" || rest[0] == '/'
    ensures Split(piece + rest) == [piece] + Split(rest)[1..]
  {
    if piece == [] {
      assert piece + rest == rest;
      assert Split(rest)[0] == "";
    } else {
      SplitPrefix(piece[1..], rest);
      assert (piece + rest)[1..] == piece[1..] + rest;
      assert piece == [piece[0]] + piece[1..];
    }
  }

  /** Every list of keys survives printing and parsing, empty keys and keys with `~` or `/` included. */
  lemma {:induction false} ParsePointerRoundTrip(tokens: seq<string>)
    ensures ParsePath(PrintPointer(tokens)) == tokens
  {
    if tokens != [] {
      ParsePointerRoundTrip(tokens[1..]);
      EscapeHasNoSlash(tokens[0]);
      UnescapeEscape(tokens[0]);
      var rest := Escape(tokens[0]) + PrintPointer(tokens[1..]);
      SplitPrefix(Escape(tokens[0]), PrintPointer(tokens[1..]));
      assert PrintPointer(tokens) == "/" + rest;
      assert ("/" + rest)[1..] == rest;
      assert Split(PrintPointer(tokens))[1..] == [Escape(tokens[0])] + Split(PrintPointer(tokens[1..]))[1..];
    }
  }

  lemma PointerInjective(a: seq<string>, b: seq<string>)
    requires PrintPointer(a) == PrintPointer(b)
    ensures a == b
  {
    ParsePointerRoundTrip(a);
    ParsePointerRoundTrip(b);
  }

  // ------------------------------------------------------------------
  // Array indices
  // ------------------------------------------------------------------

  predicate IsDigit(c: char) { '0' <= c <= '9' }

  function Digit(d: nat): (c: char)
    requires d < 10
    ensures IsDigit(c) && c as int - '0' as int == d
  {
    (d + '0' as int) as char
  }

  /** `format!("{i}")`. */
  function Decimal(i: nat): string {
    if i < 10 then [Digit(i)] else Decimal(i / 10) + [Digit(i % 10)]
  }

  predicate AllDigits(s: string) {
    s != "" && forall k :: 0 <= k < |s| ==> IsDigit(s[k])
  }

  function DigitsValue(s: string): nat
    requires forall k :: 0 <= k < |s| ==> IsDigit(s[k])
  {
    if s == "" then 0
    else
      var last := s[|s| - 1];
      assert IsDigit(last);
      10 * DigitsValue(s[..|s| - 1]) + (last as int - '0' as int)
  }

  /** An array index in the sense of RFC 6901 section 4: digits, no leading zero. */
  predicate IsIndex(s: string) {
    AllDigits(s) && (|s| == 1 || s[0] != '0')
  }

  lemma {:induction false} DecimalIsIndex(i: nat)
    ensures IsIndex(Decimal(i)) && DigitsValue(Decimal(i)) == i
    ensures i > 0 ==> Decimal(i)[0] != '0'
  {
    if i < 10 {
      assert Decimal(i)[..0] == "";
    } else {
      DecimalIsIndex(i / 10);
      var s := Decimal(i);
      assert s[..|s| - 1] == Decimal(i / 10);
      assert s[0] == Decimal(i / 10)[0];
    }
  }

  /** Indices need no escaping, which is why `diff.rs` prints them bare. */
  lemma {:induction false} EscapeDigits(s: string)
    requires forall k :: 0 <= k < |s| ==> IsDigit(s[k])
    ensures Escape(s) == s
  {
    if s != "" {
      EscapeHead(s);
      EscapeDigits(s[1..]);
      assert s == [s[0]] + s[1..];
    }
  }
}
