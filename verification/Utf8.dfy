/**
 * UTF-8 as section 3 of RFC 3629 defines it: the encoder Python's
 * `str.encode("utf-8")` applies and the strict decoder behind
 * `bytes.decode("utf-8")`.
 */
module Utf8 {
  import opened Wrappers

  type byte = x: int | 0 <= x < 256

  /** A Unicode scalar value: a code point that is not a surrogate. */
  predicate Scalar(n: int) {
    0 <= n < 0xD800 || 0xE000 <= n < 0x11_0000
  }

  function EncodeScalar(n: int): (b: seq<byte>)
    requires Scalar(n)
    ensures 1 <= |b| <= 4
    ensures n < 0x80 <==> |b| == 1
    ensures n < 0x80 ==> b == [n]
    ensures n >= 0x80 ==> forall i :: 0 <= i < |b| ==> b[i] >= 0x80
  {
    if n < 0x80 then [n]
    else if n < 0x800 then [0xC0 + n / 0x40, 0x80 + n % 0x40]
    else if n < 0x1_0000 then [0xE0 + n / 0x1000, 0x80 + n / 0x40 % 0x40, 0x80 + n % 0x40]
    else [0xF0 + n / 0x4_0000, 0x80 + n / 0x1000 % 0x40, 0x80 + n / 0x40 % 0x40, 0x80 + n % 0x40]
  }

  function Encode(s: string): (b: seq<byte>) {
    if s == "" then [] else EncodeScalar(s[0] as int) + Encode(s[1..])
  }

  function EncodedLength(s: string): nat {
    |Encode(s)|
  }

  predicate Continuation(x: byte) {
    0x80 <= x < 0xC0
  }

  /** The number of bytes the lead byte `x` announces; 0 when it cannot lead. */
  function Announced(x: byte): nat {
    if x < 0x80 then 1
    else if x < 0xC0 then 0
    else if x < 0xE0 then 2
    else if x < 0xF0 then 3
    else if x < 0xF8 then 4
    else 0
  }

  /** The value a lead byte and its continuation bytes stand for. */
  function Value(b: seq<byte>): (n: int)
    requires 1 <= |b| <= 4
  {
    var lead: int := b[0];
    if |b| == 1 then lead
    else if |b| == 2 then (lead - 0xC0) * 0x40 + Low(b[1])
    else if |b| == 3 then (lead - 0xE0) * 0x1000 + Low(b[1]) * 0x40 + Low(b[2])
    else (lead - 0xF0) * 0x4_0000 + Low(b[1]) * 0x1000 + Low(b[2]) * 0x40 + Low(b[3])
  }

  function Low(x: byte): int {
    (x as int) - 0x80
  }

  /** The first character of `b` and the number of bytes it takes. */
  function DecodeOne(b: seq<byte>): (r: Option<(char, nat)>)
    requires b != []
    ensures r.Some? ==> 1 <= r.value.1 <= |b|
    ensures r.Some? ==> EncodeScalar(r.value.0 as int) == b[..r.value.1]
    ensures r.Some? ==> forall i :: 1 <= i < r.value.1 ==> Continuation(b[i])
  {
    var n := Announced(b[0]);
    if 1 <= n <= |b| && forall i :: 1 <= i < n ==> Continuation(b[i]) then
      Accept(Value(b[..n]), b[..n])
    else
      None
  }

  /** Overlong forms, surrogates and values above U+10FFFF are refused. */
  function Accept(n: int, used: seq<byte>): (r: Option<(char, nat)>)
    ensures r.Some? <==> Scalar(n) && EncodeScalar(n) == used
    ensures r.Some? ==> r.value.0 as int == n && r.value.1 == |used|
  {
    if Scalar(n) && EncodeScalar(n) == used then Some((n as char, |used|)) else None
  }

  function Decode(b: seq<byte>): (r: Option<string>)
    ensures r.Some? ==> Encode(r.value) == b
  {
    if b == [] then Some("")
    else
      var first := DecodeOne(b);
      if first.None? then None
      else
        var rest := Decode(b[first.value.1..]);
        if rest.None? then None
        else
          assert b == b[..first.value.1] + b[first.value.1..];
          Some([first.value.0] + rest.value)
  }

  lemma ValueOfEncoded(n: int)
    requires Scalar(n)
    ensures Value(EncodeScalar(n)) == n
    ensures Announced(EncodeScalar(n)[0]) == |EncodeScalar(n)|
  {
    if n >= 0x1_0000 {
      assert n / 0x40 / 0x40 == n / 0x1000 && n / 0x1000 / 0x40 == n / 0x4_0000;
    } else if n >= 0x800 {
      assert n / 0x40 / 0x40 == n / 0x1000;
    }
  }

  lemma DecodeOneOfEncoded(c: char, rest: seq<byte>)
    ensures DecodeOne(EncodeScalar(c as int) + rest) == Some((c, |EncodeScalar(c as int)|))
  {
    var e := EncodeScalar(c as int);
    ValueOfEncoded(c as int);
    assert (e + rest)[..|e|] == e;
    assert (e + rest)[0] == e[0];
    assert forall i :: 1 <= i < |e| ==> Continuation(e[i]);
    assert forall i :: 1 <= i < |e| ==> (e + rest)[i] == e[i];
  }

  /** Decoding what was encoded gives the text back. */
  lemma {:induction false} RoundTrip(s: string)
    ensures Decode(Encode(s)) == Some(s)
  {
    if s != "" {
      var e := EncodeScalar(s[0] as int);
      DecodeOneOfEncoded(s[0], Encode(s[1..]));
      RoundTrip(s[1..]);
      assert Encode(s) == e + Encode(s[1..]);
      assert Encode(s)[|e|..] == Encode(s[1..]);
      assert s == [s[0]] + s[1..];
    }
  }

  lemma {:induction false} EncodeConcat(a: string, b: string)
    ensures Encode(a + b) == Encode(a) + Encode(b)
  {
    if a == "" {
      assert a + b == b;
    } else {
      assert (a + b)[1..] == a[1..] + b;
      EncodeConcat(a[1..], b);
    }
  }

  /** An ASCII byte never lies inside a multi-byte character, so encoded text may be cut there. */
  lemma {:induction false} EncodeSplitsAtAscii(s: string, a: seq<byte>, x: byte, b: seq<byte>) returns (i: nat)
    requires x < 0x80 && Encode(s) == a + [x] + b
    ensures i < |s| && s[i] == x as char
    ensures Encode(s[..i]) == a && Encode(s[i + 1..]) == b
  {
    var e := EncodeScalar(s[0] as int);
    var tail := Encode(s[1..]);
    assert (e + tail)[|a|] == x && (e + tail)[0] == e[0];
    if a == [] {
      assert tail == (e + tail)[1..] == (a + [x] + b)[1..] == b;
      assert s[..0] == "";
      return 0;
    }
    var rest := CutPrefix(e, tail, a, x, b);
    var j := EncodeSplitsAtAscii(s[1..], rest, x, b);
    i := j + 1;
    assert s[..i] == [s[0]] + s[1..][..j] && s[1..][j + 1..] == s[i + 1..];
    EncodeConcat([s[0]], s[1..][..j]);
  }

  /** The first character's bytes all come before an ASCII byte that follows them. */
  lemma CutPrefix(e: seq<byte>, tail: seq<byte>, a: seq<byte>, x: byte, b: seq<byte>) returns (rest: seq<byte>)
    requires e + tail == a + [x] + b && |e| <= |a|
    ensures a == e + rest && tail == rest + [x] + b
  {
    rest := a[|e|..];
    assert a == (e + tail)[..|a|];
    assert tail == (e + tail)[|e|..] == (a + [x] + b)[|e|..];
  }

  /** The same for decoding: both parts are valid UTF-8 and decode on their own. */
  lemma DecodeSplitsAtAscii(a: seq<byte>, x: byte, b: seq<byte>)
    requires x < 0x80 && Decode(a + [x] + b).Some?
    ensures Decode(a).Some? && Decode(b).Some?
    ensures Decode(a + [x] + b).value == Decode(a).value + [x as char] + Decode(b).value
  {
    var s := Decode(a + [x] + b).value;
    var i := EncodeSplitsAtAscii(s, a, x, b);
    DecodesTo(s[..i], a);
    DecodesTo(s[i + 1..], b);
    Cut(s, i);
  }

  lemma Cut(s: string, i: nat)
    requires i < |s|
    ensures s == s[..i] + [s[i]] + s[i + 1..]
  {
  }

  lemma DecodesTo(s: string, b: seq<byte>)
    requires Encode(s) == b
    ensures Decode(b) == Some(s)
  {
    RoundTrip(s);
  }
}
