/**
 * The check every request path must pass before it is sent to an Agent
 * (backend/ic_env_guard/agents/client.py): the path as written and the path as
 * the Agent will decode it must name the same segments.
 */
module UpstreamPath {
  import opened Wrappers
  import opened Utf8

  const SLASH: byte := 0x2F
  const PERCENT: byte := 0x25

  // ---------------------------------------------------------------------------
  // Percent-encoding, section 2.1 of RFC 3986.

  predicate HexByte(x: byte) {
    0x30 <= x <= 0x39 || 0x41 <= x <= 0x46 || 0x61 <= x <= 0x66
  }

  function HexValue(x: byte): (v: int)
    requires HexByte(x)
    ensures 0 <= v < 16
  {
    if x <= 0x39 then x - 0x30 else if x <= 0x46 then x - 0x37 else x - 0x57
  }

  predicate HexChar(c: char) { c < '\U{80}' && HexByte(c as int) }

  /** `PERCENT_ESCAPE` matches at position `i`. */
  predicate EscapeAt(s: string, i: nat) {
    i + 2 < |s| && s[i] == '%' && HexChar(s[i + 1]) && HexChar(s[i + 2])
  }

  /** `unquote_to_bytes`: escapes become bytes, everything else is copied. */
  function PercentDecode(b: seq<byte>): seq<byte> {
    if b == [] then []
    else if b[0] == PERCENT && |b| >= 3 && HexByte(b[1]) && HexByte(b[2]) then
      [HexValue(b[1]) * 16 + HexValue(b[2])] + PercentDecode(b[3..])
    else [b[0]] + PercentDecode(b[1..])
  }

  /** The text an Agent sees after one round of decoding, if it is text at all. */
  function Decoded(s: string): Option<string> {
    Decode(PercentDecode(Encode(s)))
  }

  // ---------------------------------------------------------------------------
  // The check.

  /** `s.split("/")` */
  function Split(s: string): (parts: seq<string>)
    ensures |parts| >= 1
    ensures forall i :: 0 <= i < |parts| ==> '/' !in parts[i]
  {
    if s == "" then [""]
    else if s[0] == '/' then [""] + Split(s[1..])
    else
      var rest := Split(s[1..]);
      [[s[0]] + rest[0]] + rest[1..]
  }

  function Count(s: string): nat {
    if s == "" then 0 else (if s[0] == '/' then 1 else 0) + Count(s[1..])
  }

  predicate HasScheme(s: string) {
    exists i :: 0 <= i < |s| - 2 && s[i] == ':' && s[i + 1] == '/' && s[i + 2] == '/'
  }

  predicate Forbidden(c: char) {
    c == '\\' || c == '?' || c == '#' || c < ' '
  }

  predicate RawPathOk(path: string) {
    && |path| >= 1 && path[0] == '/'
    && !(|path| >= 2 && path[1] == '/')
    && !HasScheme(path)
    && (forall i :: 0 <= i < |path| ==> !Forbidden(path[i]))
    && (forall i :: 0 <= i < |Split(path)| ==> Split(path)[i] != "." && Split(path)[i] != "..")
    && (forall i: nat :: i < |path| && path[i] == '%' ==> EscapeAt(path, i))
  }

  /** What the decoded text must satisfy: ordinary segments and nothing left to decode. */
  predicate Legal(text: string) {
    && |text| >= 1 && text[0] == '/'
    && (forall i :: 0 <= i < |text| ==> !Forbidden(text[i]))
    && (forall i :: 1 <= i < |Split(text)| ==> Split(text)[i] != "" && Split(text)[i] != "." && Split(text)[i] != "..")
    && (forall i: nat :: i < |text| ==> !EscapeAt(text, i))
  }

  /** `_validate_upstream_path` returns without raising. */
  predicate Accepted(path: string) {
    && RawPathOk(path)
    && var decoded := Decoded(path);
    && decoded.Some?
    && Count(decoded.value) == Count(path)
    && (forall i :: 0 <= i < |decoded.value| ==> !Forbidden(decoded.value[i]))
    && (forall i :: 1 <= i < |Split(decoded.value)| ==>
          Split(decoded.value)[i] != "" && Split(decoded.value)[i] != "." && Split(decoded.value)[i] != "..")
    && (forall i: nat :: i < |decoded.value| ==> !EscapeAt(decoded.value, i))
  }

  // ---------------------------------------------------------------------------
  // Decoding works segment by segment.

  lemma {:induction false} SplitJoin(a: string, b: string)
    requires '/' !in a
    ensures Split(a + "/" + b) == [a] + Split(b)
    ensures Count(a + "/" + b) == 1 + Count(b)
  {
    var s := a + "/" + b;
    if a == "" {
      assert s == "/" + b && s[1..] == b;
    } else {
      assert s[1..] == a[1..] + "/" + b;
      SplitJoin(a[1..], b);
      assert a == [a[0]] + a[1..];
    }
  }

  lemma {:induction false} SplitPlain(a: string)
    requires '/' !in a
    ensures Split(a) == [a] && Count(a) == 0
  {
    if a != "" {
      SplitPlain(a[1..]);
      assert a == [a[0]] + a[1..];
    }
  }

  lemma {:induction false} CountConcat(a: string, b: string)
    ensures Count(a + b) == Count(a) + Count(b)
  {
    if a == "" {
      assert a + b == b;
    } else {
      assert (a + b)[1..] == a[1..] + b;
      CountConcat(a[1..], b);
    }
  }

  lemma {:induction false} CountZero(s: string)
    requires Count(s) == 0
    ensures '/' !in s
  {
    if s != "" {
      CountZero(s[1..]);
      assert s == [s[0]] + s[1..];
    }
  }

  /** A slash is neither a percent sign nor a digit of an escape. */
  lemma {:induction false} PercentDecodeJoin(a: seq<byte>, b: seq<byte>)
    ensures PercentDecode(a + [SLASH] + b) == PercentDecode(a) + [SLASH] + PercentDecode(b)
    decreases |a|
  {
    if a == [] {
      assert a + [SLASH] + b == [SLASH] + b && ([SLASH] + b)[1..] == b;
    } else if StartsEscape(a) {
      DropJoined(a, b, 3);
      PercentDecodeJoin(a[3..], b);
    } else {
      SameStart(a, b);
      DropJoined(a, b, 1);
      PercentDecodeJoin(a[1..], b);
    }
  }

  predicate StartsEscape(a: seq<byte>) { |a| >= 3 && a[0] == PERCENT && HexByte(a[1]) && HexByte(a[2]) }

  lemma DropJoined(a: seq<byte>, b: seq<byte>, n: nat)
    requires n <= |a|
    ensures (a + [SLASH] + b)[n..] == a[n..] + [SLASH] + b
    ensures forall i :: 0 <= i < n ==> (a + [SLASH] + b)[i] == a[i]
  {
  }

  /** A slash ends no escape. */
  lemma SameStart(a: seq<byte>, b: seq<byte>)
    requires a != []
    ensures StartsEscape(a + [SLASH] + b) == StartsEscape(a)
  {
    var s := a + [SLASH] + b;
    assert |a| == 2 ==> s[2] == SLASH;
    assert |a| == 1 ==> s[1] == SLASH;
  }

  lemma DecodedJoin(a: string, b: string)
    requires Decoded(a + "/" + b).Some?
    ensures Decoded(a).Some? && Decoded(b).Some?
    ensures Decoded(a + "/" + b).value == Decoded(a).value + "/" + Decoded(b).value
  {
    EncodeConcat(a + "/", b);
    EncodeConcat(a, "/");
    assert Encode("/") == [SLASH] by { assert "/"[1..] == ""; }
    assert Encode(a + "/" + b) == Encode(a) + [SLASH] + Encode(b);
    PercentDecodeJoin(Encode(a), Encode(b));
    DecodeSplitsAtAscii(PercentDecode(Encode(a)), SLASH, PercentDecode(Encode(b)));
  }

  /** The first segment and what follows its slash, if any. */
  function FirstSlash(s: string): (i: nat)
    ensures i <= |s| && '/' !in s[..i] && (i < |s| ==> s[i] == '/')
  {
    if s == "" || s[0] == '/' then 0
    else
      var j := FirstSlash(s[1..]);
      assert s[..j + 1] == [s[0]] + s[1..][..j];
      j + 1
  }

  /** Decoding may add slashes but never removes one. */
  lemma {:induction false} DecodingKeepsSlashes(s: string)
    requires Decoded(s).Some?
    ensures Count(Decoded(s).value) >= Count(s)
    decreases |s|
  {
    var i := FirstSlash(s);
    if i == |s| {
      assert s[..i] == s;
      SplitPlain(s);
    } else {
      var a, b := s[..i], s[i + 1..];
      assert s == a + "/" + b;
      SlashesOfJoin(a, b);
      DecodingKeepsSlashes(b);
    }
  }

  lemma SlashesOfJoin(a: string, b: string)
    requires '/' !in a && Decoded(a + "/" + b).Some?
    ensures Decoded(b).Some? && Count(a + "/" + b) == 1 + Count(b)
    ensures Count(Decoded(a + "/" + b).value) >= 1 + Count(Decoded(b).value)
  {
    DecodedJoin(a, b);
    CountJoin(a, b);
    SplitPlain(a);
    CountJoin(Decoded(a).value, Decoded(b).value);
  }

  /** Decoding the segments of `s` one by one gives the segments of `text`. */
  predicate DecodesSegmentwise(s: string, text: string) {
    && |Split(s)| == |Split(text)|
    && forall i :: 0 <= i < |Split(s)| ==> Decoded(Split(s)[i]) == Some(Split(text)[i])
  }

  lemma JoinSegmentwise(a: string, b: string, da: string, db: string)
    requires '/' !in a && '/' !in da && Decoded(a) == Some(da) && DecodesSegmentwise(b, db)
    ensures DecodesSegmentwise(a + "/" + b, da + "/" + db)
  {
    SplitJoin(a, b);
    SplitJoin(da, db);
  }

  lemma CountJoin(a: string, b: string)
    ensures Count(a + "/" + b) == Count(a) + 1 + Count(b)
  {
    assert a + "/" + b == a + ("/" + b);
    CountConcat(a, "/" + b);
    assert ("/" + b)[1..] == b;
  }

  /** When decoding adds no slash, decoding and splitting commute. */
  lemma {:induction false} DecodeCommutesWithSplit(s: string)
    requires Decoded(s).Some? && Count(Decoded(s).value) == Count(s)
    ensures DecodesSegmentwise(s, Decoded(s).value)
    decreases |s|
  {
    var i := FirstSlash(s);
    if i == |s| {
      assert s[..i] == s;
      SplitPlain(s);
      CountZero(Decoded(s).value);
      SplitPlain(Decoded(s).value);
    } else {
      var a, b := s[..i], s[i + 1..];
      assert s == a + "/" + b;
      DecodedJoin(a, b);
      var da, db := Decoded(a).value, Decoded(b).value;
      CountJoin(a, b);
      CountJoin(da, db);
      DecodingKeepsSlashes(a);
      DecodingKeepsSlashes(b);
      SplitPlain(a);
      CountZero(da);
      DecodeCommutesWithSplit(b);
      JoinSegmentwise(a, b, da, db);
    }
  }

  // ---------------------------------------------------------------------------
  // Decoding twice.

  lemma {:induction false} NothingToDecode(s: string)
    requires forall i: nat :: i < |s| ==> !EscapeAt(s, i)
    ensures PercentDecode(Encode(s)) == Encode(s)
  {
    if s != "" {
      var rest := s[1..];
      assert forall i: nat :: EscapeAt(rest, i) ==> EscapeAt(s, i + 1);
      NothingToDecode(rest);
      var e := EncodeScalar(s[0] as int);
      if s[0] == '%' {
        assert !EscapeAt(s, 0);
        LeadingHex(rest);
        assert (e + Encode(rest))[1..] == Encode(rest);
      } else {
        CopiesPlain(e, Encode(rest));
      }
    }
  }

  lemma {:induction false} CopiesPlain(a: seq<byte>, b: seq<byte>)
    requires PERCENT !in a
    ensures PercentDecode(a + b) == a + PercentDecode(b)
  {
    if a == [] {
      assert a + b == b;
    } else {
      assert (a + b)[1..] == a[1..] + b;
      CopiesPlain(a[1..], b);
      assert a == [a[0]] + a[1..];
    }
  }

  /** Two hexadecimal digits at the front of encoded text are two characters of the text. */
  lemma LeadingHex(s: string)
    ensures |Encode(s)| >= 2 && HexByte(Encode(s)[0]) && HexByte(Encode(s)[1]) ==>
              |s| >= 2 && HexChar(s[0]) && HexChar(s[1])
  {
    if |Encode(s)| >= 2 && HexByte(Encode(s)[0]) && HexByte(Encode(s)[1]) {
      var e := EncodeScalar(s[0] as int);
      assert Encode(s)[0] == e[0];
      assert Encode(s)[1..] == Encode(s[1..]);
      assert Encode(s[1..])[0] == EncodeScalar(s[1] as int)[0];
    }
  }

  /**
   * What acceptance means for the Agent: it decodes each segment on its own and
   * gets the segments of the decoded path, none of them empty or a dot segment
   * (section 5.2.4 of RFC 3986), and decoding once more changes nothing.
   */
  lemma AcceptedPathsAreStable(path: string)
    requires Accepted(path)
    ensures Decoded(path).Some? && Legal(Decoded(path).value)
    ensures var text := Decoded(path).value;
            && Split(text)[0] == ""
            && DecodesSegmentwise(path, text)
            && Decoded(text) == Some(text)
  {
    var text := Decoded(path).value;
    DecodeCommutesWithSplit(path);
    assert path == "" + "/" + path[1..];
    SplitJoin("", path[1..]);
    DecodedJoin("", path[1..]);
    assert Decoded("") == Some("");
    assert text[0] == '/';
    NothingToDecode(text);
    RoundTrip(text);
  }

  // ---------------------------------------------------------------------------
  // The other direction: every legal resource has an accepted path.

  predicate Kept(x: byte) {
    || 0x30 <= x <= 0x39 || 0x41 <= x <= 0x5A || 0x61 <= x <= 0x7A
    || x == 0x2D || x == 0x2E || x == 0x5F || x == 0x7E || x == SLASH
  }

  function HexDigit(v: int): (c: char)
    requires 0 <= v < 16
    ensures HexChar(c) && HexValue(c as int) == v
  {
    if v < 10 then (0x30 + v) as char else (0x37 + v) as char
  }

  function QuoteByte(x: byte): string {
    if Kept(x) then [x as char] else ['%', HexDigit(x / 16), HexDigit(x % 16)]
  }

  /** `urllib.parse.quote`: unreserved characters and slashes are kept, other bytes escaped. */
  function Quote(b: seq<byte>): string {
    if b == [] then "" else QuoteByte(b[0]) + Quote(b[1..])
  }

  ghost predicate Plain(s: string) {
    forall i :: 0 <= i < |s| ==> s[i] == '%' || (s[i] < '\U{80}' && Kept(s[i] as int))
  }

  lemma {:induction false} QuoteIsPlain(b: seq<byte>)
    ensures Plain(Quote(b))
    ensures forall i: nat :: i < |Quote(b)| && Quote(b)[i] == '%' ==> EscapeAt(Quote(b), i)
  {
    if b != [] {
      QuoteIsPlain(b[1..]);
      var head, tail := QuoteByte(b[0]), Quote(b[1..]);
      var s := Quote(b);
      forall i: nat | i < |s| && s[i] == '%' ensures EscapeAt(s, i) {
        if i >= |head| {
          assert s[i] == tail[i - |head|];
          assert EscapeAt(tail, i - |head|);
        } else {
          assert s[i] == head[i];
        }
      }
    }
  }

  lemma EncodeAscii(c: char, rest: string)
    requires c < '\U{80}'
    ensures Encode([c] + rest) == [c as int] + Encode(rest)
  {
    assert ([c] + rest)[1..] == rest;
  }

  lemma EncodeEscape(hi: char, lo: char, rest: string)
    requires hi < '\U{80}' && lo < '\U{80}'
    ensures Encode(['%'] + ([hi] + ([lo] + rest))) == [PERCENT, hi as int, lo as int] + Encode(rest)
  {
    EncodeAscii('%', [hi] + ([lo] + rest));
    EncodeAscii(hi, [lo] + rest);
    EncodeAscii(lo, rest);
  }

  lemma UnquoteKept(x: byte, rest: string)
    requires Kept(x)
    ensures PercentDecode(Encode([x as char] + rest)) == [x] + PercentDecode(Encode(rest))
  {
    EncodeAscii(x as char, rest);
    assert ([x as int] + Encode(rest))[1..] == Encode(rest);
  }

  lemma UnquoteEscaped(x: byte, rest: string)
    ensures PercentDecode(Encode(['%', HexDigit(x / 16), HexDigit(x % 16)] + rest)) == [x] + PercentDecode(Encode(rest))
  {
    var hi, lo := HexDigit(x / 16), HexDigit(x % 16);
    assert ['%', hi, lo] + rest == ['%'] + ([hi] + ([lo] + rest));
    EncodeEscape(hi, lo, rest);
    var e := [PERCENT, hi as int, lo as int] + Encode(rest);
    assert e[3..] == Encode(rest);
  }

  /** Decoding undoes quoting, and the slashes are the ones of the text. */
  lemma {:induction false} UnquoteQuote(b: seq<byte>)
    ensures PercentDecode(Encode(Quote(b))) == b
  {
    if b != [] {
      UnquoteQuote(b[1..]);
      if Kept(b[0]) {
        UnquoteKept(b[0], Quote(b[1..]));
      } else {
        UnquoteEscaped(b[0], Quote(b[1..]));
      }
      assert b == [b[0]] + b[1..];
    }
  }

  function CountBytes(b: seq<byte>): nat {
    if b == [] then 0 else (if b[0] == SLASH then 1 else 0) + CountBytes(b[1..])
  }

  lemma {:induction false} CountQuote(b: seq<byte>)
    ensures Count(Quote(b)) == CountBytes(b)
  {
    if b != [] {
      CountQuote(b[1..]);
      var q := QuoteByte(b[0]);
      CountConcat(q, Quote(b[1..]));
      if b[0] == SLASH {
        assert q == "/" && q[1..] == "";
      } else {
        SplitPlain(q);
      }
    }
  }

  lemma {:induction false} CountEncode(s: string)
    ensures CountBytes(Encode(s)) == Count(s)
  {
    if s != "" {
      CountEncode(s[1..]);
      CountBytesConcat(EncodeScalar(s[0] as int), Encode(s[1..]));
      if s[0] as int < 0x80 {
        assert EncodeScalar(s[0] as int)[1..] == [];
      } else {
        NoSlash(EncodeScalar(s[0] as int));
      }
    }
  }

  lemma {:induction false} CountBytesConcat(a: seq<byte>, b: seq<byte>)
    ensures CountBytes(a + b) == CountBytes(a) + CountBytes(b)
  {
    if a == [] {
      assert a + b == b;
    } else {
      assert (a + b)[1..] == a[1..] + b;
      CountBytesConcat(a[1..], b);
    }
  }

  lemma {:induction false} NoSlash(b: seq<byte>)
    requires SLASH !in b
    ensures CountBytes(b) == 0
  {
    if b != [] { NoSlash(b[1..]); }
  }

  lemma QuotedDecodesSegmentwise(text: string)
    ensures Decoded(Quote(Encode(text))) == Some(text)
    ensures Count(Quote(Encode(text))) == Count(text)
    ensures DecodesSegmentwise(Quote(Encode(text)), text)
  {
    var b := Encode(text);
    UnquoteQuote(b);
    RoundTrip(text);
    CountQuote(b);
    CountEncode(text);
    DecodeCommutesWithSplit(Quote(b));
  }

  lemma RawSegments(path: string, text: string)
    requires DecodesSegmentwise(path, text) && Legal(text) && |path| >= 1 && path[0] == '/'
    ensures forall i :: 0 <= i < |Split(path)| ==> Split(path)[i] != "." && Split(path)[i] != ".."
    ensures !(|path| >= 2 && path[1] == '/')
  {
    DotsDecodeToThemselves();
    assert text == "" + "/" + text[1..] && path == "" + "/" + path[1..];
    SplitJoin("", text[1..]);
    SplitJoin("", path[1..]);
    assert Decoded(Split(path)[1]) == Some(Split(text)[1]);
    assert Split(path)[1] == Split(path[1..])[0];
    forall i | 0 <= i < |Split(path)| ensures Split(path)[i] != "." && Split(path)[i] != ".." {
      assert Decoded(Split(path)[i]) == Some(Split(text)[i]);
    }
  }

  lemma PlainHasNoScheme(s: string)
    requires Plain(s)
    ensures !HasScheme(s) && forall i :: 0 <= i < |s| ==> !Forbidden(s[i])
  {
    assert forall i :: 0 <= i < |s| ==> s[i] != ':';
  }

  /** Quoting any legal text gives a path that is accepted and decodes to that text. */
  lemma LegalTextIsReachable(text: string)
    requires Legal(text)
    ensures Accepted(Quote(Encode(text)))
    ensures Decoded(Quote(Encode(text))) == Some(text)
  {
    var path := Quote(Encode(text));
    QuotedDecodesSegmentwise(text);
    QuoteIsPlain(Encode(text));
    PlainHasNoScheme(path);
    assert text == ['/'] + text[1..];
    EncodeAscii('/', text[1..]);
    assert path[0] == '/';
    RawSegments(path, text);
  }

  lemma DotsDecodeToThemselves()
    ensures Decoded("") == Some("") && Decoded(".") == Some(".") && Decoded("..") == Some("..")
  {
    NothingToDecode("");
    NothingToDecode(".");
    NothingToDecode("..");
    RoundTrip("");
    RoundTrip(".");
    RoundTrip("..");
  }

  /** The decoded texts that can reach an Agent are exactly the legal ones. */
  lemma ReachableExactlyLegal(text: string)
    ensures (exists path :: Accepted(path) && Decoded(path) == Some(text)) <==> Legal(text)
  {
    forall path | Accepted(path) && Decoded(path) == Some(text) ensures Legal(text) {
      AcceptedPathsAreStable(path);
    }
    if Legal(text) { LegalTextIsReachable(text); }
  }
}
