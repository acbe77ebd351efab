/**
 * The byte scanner that bounds JSON nesting before a response of an Agent is
 * parsed (backend/ic_env_guard/agents/client.py), proved against the grammar of
 * RFC 8259.
 */
module JsonNesting {
  import opened Utf8

  const MAX_JSON_NESTING := 64

  const QUOTE: byte := 0x22
  const BACKSLASH: byte := 0x5C

  predicate Opens(x: byte) { x == 0x5B || x == 0x7B }

  predicate Closes(x: byte) { x == 0x5D || x == 0x7D }

  // ---------------------------------------------------------------------------
  // The grammar: JSON texts with every choice of white space and escaping.

  /** The white space on both sides of a structural character (section 2 of RFC 8259). */
  datatype Padding = Padding(before: seq<byte>, after: seq<byte>)

  /** One character of a string, as it is written (section 7 of RFC 8259). */
  datatype StringChar =
    | Unescaped(scalar: int)
    | Escape(letter: byte)
    | UnicodeEscape(hex: seq<byte>)

  datatype Value =
    | Word(text: seq<byte>)
    | Text(chars: seq<StringChar>)
    | EmptyArray(open: Padding, close: Padding)
    | Array(open: Padding, elements: Elements, close: Padding)
    | EmptyObject(open: Padding, close: Padding)
    | Object(open: Padding, members: Members, close: Padding)

  datatype Elements =
    | Last(value: Value)
    | Next(value: Value, comma: Padding, rest: Elements)

  datatype Members =
    | LastMember(key: seq<StringChar>, colon: Padding, value: Value)
    | NextMember(key: seq<StringChar>, colon: Padding, value: Value, comma: Padding, rest: Members)

  predicate IsSpace(s: seq<byte>) {
    forall i :: 0 <= i < |s| ==> s[i] == 0x20 || s[i] == 0x09 || s[i] == 0x0A || s[i] == 0x0D
  }

  /** The bytes of numbers and of the words true, false and null. */
  predicate IsWord(s: seq<byte>) {
    forall i :: 0 <= i < |s| ==>
      0x30 <= s[i] <= 0x39 || 0x61 <= s[i] <= 0x7A || s[i] == 0x45 || s[i] == 0x2B || s[i] == 0x2D || s[i] == 0x2E
  }

  predicate IsHexDigit(x: byte) {
    0x30 <= x <= 0x39 || 0x41 <= x <= 0x46 || 0x61 <= x <= 0x66
  }

  predicate IsStringChar(c: StringChar) {
    match c
    case Unescaped(n) => Scalar(n) && n >= 0x20 && n != QUOTE && n != BACKSLASH
    case Escape(x) => x in [QUOTE, BACKSLASH, 0x2F, 0x62, 0x66, 0x6E, 0x72, 0x74]
    case UnicodeEscape(h) => |h| == 4 && forall i :: 0 <= i < 4 ==> IsHexDigit(h[i])
  }

  predicate IsString(s: seq<StringChar>) {
    forall i :: 0 <= i < |s| ==> IsStringChar(s[i])
  }

  predicate IsPadding(p: Padding) { IsSpace(p.before) && IsSpace(p.after) }

  predicate IsValue(v: Value) {
    match v
    case Word(t) => IsWord(t)
    case Text(s) => IsString(s)
    case EmptyArray(o, c) => IsPadding(o) && IsPadding(c)
    case Array(o, es, c) => IsPadding(o) && AreElements(es) && IsPadding(c)
    case EmptyObject(o, c) => IsPadding(o) && IsPadding(c)
    case Object(o, ms, c) => IsPadding(o) && AreMembers(ms) && IsPadding(c)
  }

  predicate AreElements(es: Elements) {
    match es
    case Last(v) => IsValue(v)
    case Next(v, comma, rest) => IsValue(v) && IsPadding(comma) && AreElements(rest)
  }

  predicate AreMembers(ms: Members) {
    match ms
    case LastMember(k, colon, v) => IsString(k) && IsPadding(colon) && IsValue(v)
    case NextMember(k, colon, v, comma, rest) =>
      IsString(k) && IsPadding(colon) && IsValue(v) && IsPadding(comma) && AreMembers(rest)
  }

  function Around(p: Padding, x: byte): seq<byte> { p.before + [x] + p.after }

  function CharBytes(c: StringChar): seq<byte>
    requires IsStringChar(c)
  {
    match c
    case Unescaped(n) => EncodeScalar(n)
    case Escape(x) => [BACKSLASH, x]
    case UnicodeEscape(h) => [BACKSLASH, 0x75] + h
  }

  function CharsBytes(s: seq<StringChar>): seq<byte>
    requires IsString(s)
  {
    if s == [] then [] else CharBytes(s[0]) + CharsBytes(s[1..])
  }

  function StringBytes(s: seq<StringChar>): seq<byte>
    requires IsString(s)
  {
    [QUOTE] + (CharsBytes(s) + [QUOTE])
  }

  /** The UTF-8 text of a value. */
  function ValueBytes(v: Value): seq<byte>
    requires IsValue(v)
  {
    match v
    case Word(t) => t
    case Text(s) => StringBytes(s)
    case EmptyArray(o, c) => Around(o, 0x5B) + Around(c, 0x5D)
    case Array(o, es, c) => Around(o, 0x5B) + (ElementsBytes(es) + Around(c, 0x5D))
    case EmptyObject(o, c) => Around(o, 0x7B) + Around(c, 0x7D)
    case Object(o, ms, c) => Around(o, 0x7B) + (MembersBytes(ms) + Around(c, 0x7D))
  }

  function ElementsBytes(es: Elements): seq<byte>
    requires AreElements(es)
  {
    match es
    case Last(v) => ValueBytes(v)
    case Next(v, comma, rest) => ValueBytes(v) + (Around(comma, 0x2C) + ElementsBytes(rest))
  }

  function MembersBytes(ms: Members): seq<byte>
    requires AreMembers(ms)
  {
    match ms
    case LastMember(k, colon, v) => StringBytes(k) + (Around(colon, 0x3A) + ValueBytes(v))
    case NextMember(k, colon, v, comma, rest) =>
      StringBytes(k) + (Around(colon, 0x3A) + (ValueBytes(v) + (Around(comma, 0x2C) + MembersBytes(rest))))
  }

  function Max(a: nat, b: nat): nat { if a < b then b else a }

  /** How deeply arrays and objects are nested in a value. */
  function Depth(v: Value): nat {
    match v
    case Word(_) => 0
    case Text(_) => 0
    case EmptyArray(_, _) => 1
    case Array(_, es, _) => 1 + ElementsDepth(es)
    case EmptyObject(_, _) => 1
    case Object(_, ms, _) => 1 + MembersDepth(ms)
  }

  function ElementsDepth(es: Elements): nat {
    match es
    case Last(v) => Depth(v)
    case Next(v, _, rest) => Max(Depth(v), ElementsDepth(rest))
  }

  function MembersDepth(ms: Members): nat {
    match ms
    case LastMember(_, _, v) => Depth(v)
    case NextMember(_, _, v, _, rest) => Max(Depth(v), MembersDepth(rest))
  }

  // ---------------------------------------------------------------------------
  // The scanner.

  datatype Scanner = Scanning(depth: int, inString: bool, escaped: bool) | TooDeep

  function Step(st: Scanner, x: byte): Scanner {
    match st
    case TooDeep => TooDeep
    case Scanning(depth, inString, escaped) =>
      if inString then
        if escaped then Scanning(depth, true, false)
        else if x == BACKSLASH then Scanning(depth, true, true)
        else if x == QUOTE then Scanning(depth, false, false)
        else st
      else if x == QUOTE then Scanning(depth, true, escaped)
      else if Opens(x) then
        if depth + 1 > MAX_JSON_NESTING then TooDeep else Scanning(depth + 1, false, escaped)
      else if Closes(x) then Scanning(depth - 1, false, escaped)
      else st
  }

  function Scan(st: Scanner, bytes: seq<byte>): Scanner
    decreases |bytes|
  {
    if bytes == [] then st else Scan(Step(st, bytes[0]), bytes[1..])
  }

  /** The scan of a whole payload, as the loop over its bytes performs it. */
  method ValidateJsonNesting(payload: seq<byte>) returns (accepted: bool)
    ensures accepted <==> Scan(Scanning(0, false, false), payload).Scanning?
  {
    var depth, inString, escaped := 0, false, false;
    var i := 0;
    while i < |payload|
      invariant 0 <= i <= |payload|
      invariant Scan(Scanning(0, false, false), payload) == Scan(Scanning(depth, inString, escaped), payload[i..])
    {
      var value := payload[i];
      assert payload[i..][1..] == payload[i + 1..];
      i := i + 1;
      if inString {
        if escaped {
          escaped := false;
        } else if value == BACKSLASH {
          escaped := true;
        } else if value == QUOTE {
          inString := false;
        }
        continue;
      }
      if value == QUOTE {
        inString := true;
      } else if Opens(value) {
        depth := depth + 1;
        if depth > MAX_JSON_NESTING {
          ScanTooDeep(payload[i..]);
          return false;
        }
      } else if Closes(value) {
        depth := depth - 1;
      }
    }
    accepted := true;
  }

  lemma {:induction false} ScanTooDeep(bytes: seq<byte>)
    ensures Scan(TooDeep, bytes) == TooDeep
  {
    if bytes != [] {
      ScanTooDeep(bytes[1..]);
    }
  }

  lemma {:induction false} ScanConcat(st: Scanner, a: seq<byte>, b: seq<byte>)
    ensures Scan(st, a + b) == Scan(Scan(st, a), b)
    decreases |a|
  {
    if a == [] {
      assert a + b == b;
    } else {
      assert (a + b)[0] == a[0] && (a + b)[1..] == a[1..] + b;
      ScanConcat(Step(st, a[0]), a[1..], b);
    }
  }

  // ---------------------------------------------------------------------------
  // What the scanner does on each part of a JSON text.

  /** The scanner's state between tokens, at nesting depth `d`. */
  function At(d: int): Scanner { Scanning(d, false, false) }

  predicate Inert(x: byte) { x != QUOTE && !Opens(x) && !Closes(x) }

  lemma {:induction false} ScanInert(d: int, s: seq<byte>)
    requires forall i :: 0 <= i < |s| ==> Inert(s[i])
    ensures Scan(At(d), s) == At(d)
  {
    if s != [] {
      ScanInert(d, s[1..]);
    }
  }

  lemma ScanAround(d: int, p: Padding, x: byte)
    requires IsPadding(p) && x != QUOTE
    ensures Scan(At(d), Around(p, x)) ==
            if Opens(x) then (if d + 1 > MAX_JSON_NESTING then TooDeep else At(d + 1))
            else if Closes(x) then At(d - 1)
            else At(d)
  {
    ScanInert(d, p.before);
    ScanConcat(At(d), p.before, [x] + p.after);
    assert p.before + ([x] + p.after) == Around(p, x);
    ScanConcat(At(d), [x], p.after);
    var st := Step(At(d), x);
    assert Scan(At(d), [x]) == st;
    if st.TooDeep? { ScanTooDeep(p.after); } else { ScanInert(st.depth, p.after); }
  }

  /** Inside a string only an unescaped quote or a backslash matters. */
  lemma {:induction false} ScanInString(d: int, s: seq<byte>)
    requires forall i :: 0 <= i < |s| ==> s[i] != QUOTE && s[i] != BACKSLASH
    ensures Scan(Scanning(d, true, false), s) == Scanning(d, true, false)
  {
    if s != [] {
      ScanInString(d, s[1..]);
    }
  }

  lemma ScanTwo(st: Scanner, x: byte, y: byte)
    ensures Scan(st, [x, y]) == Step(Step(st, x), y)
  {
    ScanConcat(st, [x], [y]);
    assert [x] + [y] == [x, y];
    ScanOne(st, x);
    ScanOne(Step(st, x), y);
  }

  lemma ScanOne(st: Scanner, x: byte)
    ensures Scan(st, [x]) == Step(st, x)
  {
    assert [x][1..] == [];
  }

  lemma ScanChar(d: int, c: StringChar)
    requires IsStringChar(c)
    ensures Scan(Scanning(d, true, false), CharBytes(c)) == Scanning(d, true, false)
  {
    var inside := Scanning(d, true, false);
    match c
    case Unescaped(n) =>
      ScanInString(d, EncodeScalar(n));
    case Escape(x) =>
      ScanTwo(inside, BACKSLASH, x);
    case UnicodeEscape(h) =>
      ScanConcat(inside, [BACKSLASH, 0x75], h);
      ScanTwo(inside, BACKSLASH, 0x75);
      ScanInString(d, h);
  }

  lemma {:induction false} ScanChars(d: int, s: seq<StringChar>)
    requires IsString(s)
    ensures Scan(Scanning(d, true, false), CharsBytes(s)) == Scanning(d, true, false)
  {
    if s != [] {
      ScanChar(d, s[0]);
      ScanConcat(Scanning(d, true, false), CharBytes(s[0]), CharsBytes(s[1..]));
      ScanChars(d, s[1..]);
    }
  }

  /** A string leaves the scanner where it was, whatever it contains. */
  lemma ScanString(d: int, s: seq<StringChar>)
    requires IsString(s)
    ensures Scan(At(d), StringBytes(s)) == At(d)
  {
    var inside := Scanning(d, true, false);
    ScanConcat(At(d), [QUOTE], CharsBytes(s) + [QUOTE]);
    assert Scan(At(d), [QUOTE]) == inside;
    ScanConcat(inside, CharsBytes(s), [QUOTE]);
    ScanChars(d, s);
    assert Scan(inside, [QUOTE]) == At(d);
  }

  /** Scanning a part of nesting `n` from depth `d`. */
  function After(d: nat, n: nat): Scanner {
    if d + n <= MAX_JSON_NESTING then At(d) else TooDeep
  }

  lemma ScanThen(st: Scanner, a: seq<byte>, b: seq<byte>)
    ensures Scan(st, a + b) == if Scan(st, a).TooDeep? then TooDeep else Scan(Scan(st, a), b)
  {
    ScanConcat(st, a, b);
    ScanTooDeep(b);
  }

  /** A bracketed part: one level deeper than what it encloses. */
  lemma ScanBracketed(d: nat, o: Padding, open: byte, inner: seq<byte>, n: nat, c: Padding, close: byte)
    requires d <= MAX_JSON_NESTING && IsPadding(o) && IsPadding(c)
    requires open != QUOTE && close != QUOTE && Opens(open) && !Opens(close) && Closes(close)
    requires d + 1 <= MAX_JSON_NESTING ==> Scan(At(d + 1), inner) == After(d + 1, n)
    ensures Scan(At(d), Around(o, open) + (inner + Around(c, close))) == After(d, n + 1)
  {
    ScanAround(d, o, open);
    ScanAround(d + 1, c, close);
    ScanThen(At(d), Around(o, open), inner + Around(c, close));
    ScanThen(At(d + 1), inner, Around(c, close));
  }

  lemma {:induction false} ScanValue(d: nat, v: Value)
    requires IsValue(v) && d <= MAX_JSON_NESTING
    ensures Scan(At(d), ValueBytes(v)) == After(d, Depth(v))
    decreases v
  {
    match v
    case Word(t) => ScanInert(d, t);
    case Text(s) => ScanString(d, s);
    case EmptyArray(o, c) =>
      ScanBracketed(d, o, 0x5B, [], 0, c, 0x5D);
      assert [] + Around(c, 0x5D) == Around(c, 0x5D);
    case EmptyObject(o, c) =>
      ScanBracketed(d, o, 0x7B, [], 0, c, 0x7D);
      assert [] + Around(c, 0x7D) == Around(c, 0x7D);
    case Array(o, es, c) =>
      if d + 1 <= MAX_JSON_NESTING { ScanElements(d + 1, es); }
      ScanBracketed(d, o, 0x5B, ElementsBytes(es), ElementsDepth(es), c, 0x5D);
    case Object(o, ms, c) =>
      if d + 1 <= MAX_JSON_NESTING { ScanMembers(d + 1, ms); }
      ScanBracketed(d, o, 0x7B, MembersBytes(ms), MembersDepth(ms), c, 0x7D);
  }

  lemma {:induction false} ScanElements(d: nat, es: Elements)
    requires AreElements(es) && d <= MAX_JSON_NESTING
    ensures Scan(At(d), ElementsBytes(es)) == After(d, ElementsDepth(es))
    decreases es
  {
    ScanValue(d, es.value);
    if es.Next? {
      ScanAround(d, es.comma, 0x2C);
      ScanElements(d, es.rest);
      ScanThen(At(d), ValueBytes(es.value), Around(es.comma, 0x2C) + ElementsBytes(es.rest));
      ScanThen(At(d), Around(es.comma, 0x2C), ElementsBytes(es.rest));
    }
  }

  lemma {:induction false} ScanMembers(d: nat, ms: Members)
    requires AreMembers(ms) && d <= MAX_JSON_NESTING
    ensures Scan(At(d), MembersBytes(ms)) == After(d, MembersDepth(ms))
    decreases ms
  {
    ScanString(d, ms.key);
    ScanAround(d, ms.colon, 0x3A);
    ScanValue(d, ms.value);
    if ms.LastMember? {
      ScanThen(At(d), StringBytes(ms.key), Around(ms.colon, 0x3A) + ValueBytes(ms.value));
      ScanThen(At(d), Around(ms.colon, 0x3A), ValueBytes(ms.value));
    } else {
      ScanAround(d, ms.comma, 0x2C);
      ScanMembers(d, ms.rest);
      var tail := Around(ms.comma, 0x2C) + MembersBytes(ms.rest);
      ScanThen(At(d), StringBytes(ms.key), Around(ms.colon, 0x3A) + (ValueBytes(ms.value) + tail));
      ScanThen(At(d), Around(ms.colon, 0x3A), ValueBytes(ms.value) + tail);
      ScanThen(At(d), ValueBytes(ms.value), tail);
      ScanThen(At(d), Around(ms.comma, 0x2C), MembersBytes(ms.rest));
    }
  }

  /**
   * On every JSON text, however it is spaced and escaped, the scanner rejects
   * exactly when arrays and objects are nested more than 64 deep.
   */
  lemma RejectsExactlyDeepTexts(before: seq<byte>, v: Value, after: seq<byte>)
    requires IsSpace(before) && IsValue(v) && IsSpace(after)
    ensures Scan(At(0), before + (ValueBytes(v) + after)).TooDeep? <==> Depth(v) > MAX_JSON_NESTING
  {
    SpaceBefore(before, ValueBytes(v) + after);
    ScanValue(0, v);
    SpaceAfter(ValueBytes(v), after);
  }

  lemma SpaceBefore(before: seq<byte>, text: seq<byte>)
    requires IsSpace(before)
    ensures Scan(At(0), before + text) == Scan(At(0), text)
  {
    ScanInert(0, before);
    ScanConcat(At(0), before, text);
  }

  lemma SpaceAfter(text: seq<byte>, after: seq<byte>)
    requires IsSpace(after) && (Scan(At(0), text) == At(0) || Scan(At(0), text).TooDeep?)
    ensures Scan(At(0), text + after) == Scan(At(0), text)
  {
    ScanThen(At(0), text, after);
    ScanInert(0, after);
  }
}
