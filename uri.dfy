/**
 * `encodeURIComponent` and `decodeURIComponent` on strings of Unicode scalar
 * values, as the Encode and Decode operations of the ECMAScript language
 * specification define them: a character outside the unreserved set becomes
 * the `%XY` escapes of its UTF-8 bytes (upper-case hex); decoding turns
 * every escape sequence back into its character and fails, with a URIError,
 * on a malformed escape or an invalid UTF-8 byte sequence.
 */
module Uri {
  import opened Wrappers

  /** The characters `encodeURIComponent` leaves as they are. */
  predicate Unreserved(c: char)
  {
    ('A' <= c <= 'Z') || ('a' <= c <= 'z') || ('0' <= c <= '9')
    || c == '-' || c == '_' || c == '.' || c == '!' || c == '~' || c == '*' || c == '\'' || c == '(' || c == ')'
  }

  function HexDigit(d: nat): (c: char)
    requires d < 16
    ensures ('0' <= c <= '9') || ('A' <= c <= 'F')
  {
    if d < 10 then ('0' as int + d) as char else ('A' as int + d - 10) as char
  }

  predicate IsHex(c: char)
  {
    ('0' <= c <= '9') || ('A' <= c <= 'F') || ('a' <= c <= 'f')
  }

  function HexValue(c: char): (d: nat)
    requires IsHex(c)
    ensures d < 16
  {
    if c <= '9' then c as int - '0' as int
    else if c <= 'F' then c as int - 'A' as int + 10
    else c as int - 'a' as int + 10
  }

  /** `%XY`: the escape of one byte. */
  function Escape(b: nat): (r: string)
    requires b < 256
    ensures |r| == 3 && r[0] == '%' && IsHex(r[1]) && IsHex(r[2])
    ensures HexValue(r[1]) * 16 + HexValue(r[2]) == b
  {
    ['%', HexDigit(b / 16), HexDigit(b % 16)]
  }

  predicate Bytes(bs: seq<nat>)
  {
    forall i :: 0 <= i < |bs| ==> bs[i] < 256
  }

  function EscapeAll(bs: seq<nat>): (r: string)
    requires Bytes(bs)
    ensures |r| == 3 * |bs|
  {
    if bs == [] then "" else Escape(bs[0]) + EscapeAll(bs[1..])
  }

  /** The UTF-8 encoding of a scalar value, six bits per continuation byte. */
  function Utf8(c: char): (bs: seq<nat>)
    ensures 1 <= |bs| <= 4 && Bytes(bs)
    ensures forall i :: 1 <= i < |bs| ==> 0x80 <= bs[i] < 0xC0
  {
    var n := c as int;
    var q1 := n / 64;
    var q2 := q1 / 64;
    if n < 0x80 then [n]
    else if n < 0x800 then [0xC0 + q1, 0x80 + n % 64]
    else if n < 0x10000 then [0xE0 + q2, 0x80 + q1 % 64, 0x80 + n % 64]
    else [0xF0 + q2 / 64, 0x80 + q2 % 64, 0x80 + q1 % 64, 0x80 + n % 64]
  }

  function EncodeChar(c: char): string
  {
    if Unreserved(c) then [c] else EscapeAll(Utf8(c))
  }

  /** `encodeURIComponent(s)`. */
  function EncodeURIComponent(s: string): string
  {
    if s == [] then "" else EncodeChar(s[0]) + EncodeURIComponent(s[1..])
  }

  /** The byte a `%XY` escape at the front of `s` stands for, if one is there. */
  function ByteAt(s: string): (r: Option<nat>)
    ensures r.Some? ==> |s| >= 3 && s[0] == '%' && r.value < 256
    ensures r.None? <==> !(|s| >= 3 && s[0] == '%' && IsHex(s[1]) && IsHex(s[2]))
  {
    if |s| >= 3 && s[0] == '%' && IsHex(s[1]) && IsHex(s[2]) then Some(HexValue(s[1]) * 16 + HexValue(s[2])) else None
  }

  /** How many bytes a UTF-8 sequence led by `b` has; 0 when `b` cannot lead one. */
  function SequenceLength(b: nat): (n: nat)
    ensures n <= 4
  {
    if b < 0x80 then 1
    else if 0xC0 <= b < 0xE0 then 2
    else if 0xE0 <= b < 0xF0 then 3
    else if 0xF0 <= b < 0xF8 then 4
    else 0
  }

  /** `count` escapes of continuation bytes at the front of `s`. */
  function Continuations(s: string, count: nat): (r: Option<seq<nat>>)
    ensures r.Some? ==> |r.value| == count && |s| >= 3 * count
    ensures r.Some? ==> forall i :: 0 <= i < count ==> 0x80 <= r.value[i] < 0xC0
  {
    if count == 0 then Some([])
    else
      var b :- ByteAt(s);
      if 0x80 <= b < 0xC0 then
        var rest :- Continuations(s[3..], count - 1);
        Some([b] + rest)
      else None
  }

  /** The code point a lead byte and its continuation bytes spell. */
  function CodePoint(lead: int, conts: seq<int>): int
  {
    match |conts|
    case 0 => lead
    case 1 => (lead - 0xC0) * 64 + (conts[0] - 0x80)
    case 2 => ((lead - 0xE0) * 64 + (conts[0] - 0x80)) * 64 + (conts[1] - 0x80)
    case _ => (((lead - 0xF0) * 64 + (conts[0] - 0x80)) * 64 + (conts[1] - 0x80)) * 64 + (conts[2] - 0x80)
  }

  /** The smallest code point an `n`-byte sequence may encode (anything less is an overlong form). */
  function MinCodePoint(n: nat): nat
  {
    if n <= 1 then 0 else if n == 2 then 0x80 else if n == 3 then 0x800 else 0x10000
  }

  predicate IsScalar(cp: int)
  {
    (0 <= cp < 0xD800) || (0xE000 <= cp < 0x110000)
  }

  /** `decodeURIComponent(s)`; None stands for the URIError it throws. */
  function DecodeURIComponent(s: string): (r: Option<string>)
    ensures '%' !in s ==> r == Some(s)
    decreases |s|
  {
    if s == [] then Some("")
    else if s[0] != '%' then
      var rest :- DecodeURIComponent(s[1..]);
      assert [s[0]] + s[1..] == s;
      Some([s[0]] + rest)
    else
      var lead :- ByteAt(s);
      var n := SequenceLength(lead);
      if n == 0 then None
      else
        var conts :- Continuations(s[3..], n - 1);
        var cp := CodePoint(lead, conts);
        if !IsScalar(cp) || cp < MinCodePoint(n) then None
        else
          var rest :- DecodeURIComponent(s[3 * n..]);
          Some([cp as char] + rest)
  }

  /** What decoding `c` in front of text decoding to `d` gives. */
  function Cons(c: char, d: Option<string>): Option<string>
  {
    match d
    case Some(t) => Some([c] + t)
    case None => None
  }

  /** One escape of a byte followed by more text. */
  lemma EscapeThen(b: nat, rest: string)
    requires b < 256
    ensures ByteAt(Escape(b) + rest) == Some(b)
    ensures (Escape(b) + rest)[3..] == rest
  {
  }

  lemma {:induction false} ContinuationsOfEscapes(bs: seq<nat>, rest: string)
    requires Bytes(bs) && forall i :: 0 <= i < |bs| ==> 0x80 <= bs[i] < 0xC0
    ensures Continuations(EscapeAll(bs) + rest, |bs|) == Some(bs)
  {
    if bs != [] {
      var more := EscapeAll(bs[1..]) + rest;
      assert EscapeAll(bs) + rest == Escape(bs[0]) + more;
      EscapeThen(bs[0], more);
      ContinuationsOfEscapes(bs[1..], rest);
      assert [bs[0]] + bs[1..] == bs;
    }
  }

  /** The bytes of `c` lead with the right length and spell `c` back. */
  lemma Utf8Decodes(c: char)
    ensures SequenceLength(Utf8(c)[0]) == |Utf8(c)|
    ensures CodePoint(Utf8(c)[0], Utf8(c)[1..]) == c as int
    ensures MinCodePoint(|Utf8(c)|) <= c as int
  {
    var n := c as int;
    var q1 := n / 64;
    var q2 := q1 / 64;
    assert n == q1 * 64 + n % 64;
    assert q1 == q2 * 64 + q1 % 64;
    assert q2 == (q2 / 64) * 64 + q2 % 64;
  }

  /** One decoding step over an escaped sequence: its character, then the rest of the text. */
  lemma DecodeStep(s: string, lead: nat, conts: seq<nat>)
    requires s != [] && s[0] == '%' && ByteAt(s) == Some(lead)
    requires 0 < SequenceLength(lead) && Continuations(s[3..], SequenceLength(lead) - 1) == Some(conts)
    requires IsScalar(CodePoint(lead, conts)) && MinCodePoint(SequenceLength(lead)) <= CodePoint(lead, conts)
    ensures DecodeURIComponent(s) == Cons(CodePoint(lead, conts) as char, DecodeURIComponent(s[3 * SequenceLength(lead)..]))
  {
  }

  /** The escapes of a well-formed UTF-8 sequence decode to the character it spells. */
  lemma DecodeSequence(bs: seq<nat>, rest: string)
    requires Bytes(bs) && 1 <= |bs| && SequenceLength(bs[0]) == |bs|
    requires forall i :: 1 <= i < |bs| ==> 0x80 <= bs[i] < 0xC0
    requires IsScalar(CodePoint(bs[0], bs[1..])) && MinCodePoint(|bs|) <= CodePoint(bs[0], bs[1..])
    ensures DecodeURIComponent(EscapeAll(bs) + rest) == Cons(CodePoint(bs[0], bs[1..]) as char, DecodeURIComponent(rest))
  {
    var s := EscapeAll(bs) + rest;
    var more := EscapeAll(bs[1..]) + rest;
    assert s == Escape(bs[0]) + more;
    EscapeThen(bs[0], more);
    ContinuationsOfEscapes(bs[1..], rest);
    DecodeStep(s, bs[0], bs[1..]);
    assert s[3 * |bs|..] == rest;
  }

  lemma DecodeEncodedChar(c: char, rest: string)
    ensures DecodeURIComponent(EncodeChar(c) + rest) == Cons(c, DecodeURIComponent(rest))
  {
    if Unreserved(c) {
      assert ([c] + rest)[1..] == rest;
    } else {
      Utf8Decodes(c);
      DecodeSequence(Utf8(c), rest);
    }
  }

  /** Decoding undoes encoding, for every string. */
  lemma {:induction false} DecodeEncode(s: string)
    ensures DecodeURIComponent(EncodeURIComponent(s)) == Some(s)
  {
    if s != [] {
      DecodeEncode(s[1..]);
      DecodeEncodedChar(s[0], EncodeURIComponent(s[1..]));
      assert [s[0]] + s[1..] == s;
    }
  }

  /** Encoding leaves a string of unreserved characters as it is. */
  lemma {:induction false} EncodeUnreserved(s: string)
    requires forall i :: 0 <= i < |s| ==> Unreserved(s[i])
    ensures EncodeURIComponent(s) == s
  {
    if s != [] {
      EncodeUnreserved(s[1..]);
      assert [s[0]] + s[1..] == s;
    }
  }

  /** An encoded string holds only unreserved characters and `%`. */
  lemma {:induction false} EncodedAlphabet(s: string)
    ensures forall i :: 0 <= i < |EncodeURIComponent(s)| ==>
      Unreserved(EncodeURIComponent(s)[i]) || EncodeURIComponent(s)[i] == '%'
  {
    if s != [] {
      EncodedAlphabet(s[1..]);
      if !Unreserved(s[0]) {
        EscapesAlphabet(Utf8(s[0]));
      }
    }
  }

  lemma {:induction false} EscapesAlphabet(bs: seq<nat>)
    requires Bytes(bs)
    ensures forall i :: 0 <= i < |EscapeAll(bs)| ==> Unreserved(EscapeAll(bs)[i]) || EscapeAll(bs)[i] == '%'
  {
    if bs != [] {
      EscapesAlphabet(bs[1..]);
    }
  }

  /** A lone `%`, a bad hex digit, a stray continuation byte and an overlong form all fail. */
  lemma MalformedFails()
    ensures DecodeURIComponent("%") == None
    ensures DecodeURIComponent("%G0") == None
    ensures DecodeURIComponent("%80") == None
    ensures DecodeURIComponent("%C0%80") == None
    ensures DecodeURIComponent("%ED%A0%80") == None
  {
    assert ByteAt("%C0%80") == Some(0xC0);
    assert ByteAt("%80") == Some(0x80);
    assert "%C0%80"[3..] == "%80";
    assert ByteAt("%ED%A0%80") == Some(0xED);
    assert "%ED%A0%80"[3..] == "%A0%80";
    assert ByteAt("%A0%80") == Some(0xA0);
    assert "%A0%80"[3..] == "%80";
  }
}
