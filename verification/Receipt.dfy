/**
 * The receipt a consumed CLI enrollment leaves behind
 * (backend/ic_env_guard/enrollment/orchestrator.py, `_cli_accept_receipt`): a hash
 * over five length-prefixed fields, which must recognise exactly the client whose
 * claim was consumed.
 */
module Receipt {
  import opened Wrappers
  import opened Utf8

  /** The length of a field in four bytes, the most significant first. */
  function Length4(n: nat): (r: seq<byte>)
    requires n < 0x1_0000_0000
    ensures |r| == 4 && ReadLength(r) == n
  {
    var high := n / 256;
    [high / 256 / 256, high / 256 % 256, high % 256, n % 256]
  }

  function ReadLength(r: seq<byte>): int
    requires |r| == 4
  {
    256 * (256 * (256 * (r[0] as int) + (r[1] as int)) + (r[2] as int)) + (r[3] as int)
  }

  /** Python's `to_bytes(4)` takes no longer field. */
  predicate Frameable(values: seq<seq<byte>>) {
    forall i :: 0 <= i < |values| ==> |values[i]| < 0x1_0000_0000
  }

  /** The fields from `i` on, each after its length. */
  function Framed(values: seq<seq<byte>>, i: nat): seq<byte>
    requires i <= |values| && Frameable(values)
    decreases |values| - i
  {
    if i == |values| then [] else Length4(|values[i]|) + values[i] + Framed(values, i + 1)
  }

  lemma AppendField(m: seq<byte>, values: seq<seq<byte>>, i: nat)
    requires i < |values| && Frameable(values)
    ensures m + Framed(values, i) == m + Length4(|values[i]|) + values[i] + Framed(values, i + 1)
  {
    Reassociate(m, Length4(|values[i]|), values[i], Framed(values, i + 1));
  }

  lemma Reassociate(m: seq<byte>, a: seq<byte>, b: seq<byte>, c: seq<byte>)
    ensures m + (a + b + c) == m + a + b + c
  {
  }

  /** The bytes that are hashed, after a fixed prefix; none when a field is too long to be framed. */
  method HashedBytes(prefix: seq<byte>, values: seq<seq<byte>>) returns (r: Option<seq<byte>>)
    ensures r.Some? <==> Frameable(values)
    ensures r.Some? ==> r.value == prefix + Framed(values, 0)
  {
    var m := prefix;
    for i := 0 to |values|
      invariant forall k :: 0 <= k < i ==> |values[k]| < 0x1_0000_0000
      invariant Frameable(values) ==> m + Framed(values, i) == prefix + Framed(values, 0)
    {
      if |values[i]| >= 0x1_0000_0000 {
        return None;
      }
      ghost var before := m;
      m := m + Length4(|values[i]|);
      m := m + values[i];
      if Frameable(values) {
        AppendField(before, values, i);
      }
    }
    assert Framed(values, |values|) == [];
    return Some(m);
  }

  /** The framing is injective, field by field. */
  lemma {:induction false} FramedInjective(a: seq<seq<byte>>, b: seq<seq<byte>>, i: nat)
    requires |a| == |b| && i <= |a| && Frameable(a) && Frameable(b)
    requires Framed(a, i) == Framed(b, i)
    ensures a[i..] == b[i..]
    decreases |a| - i
  {
    if i < |a| {
      var m := Framed(a, i);
      assert m[..4] == Length4(|a[i]|) && m[..4] == Length4(|b[i]|);
      assert |a[i]| == |b[i]|;
      var n := |a[i]|;
      assert m[4..][..n] == a[i] && m[4..][..n] == b[i];
      assert m[4..][n..] == Framed(a, i + 1) && m[4..][n..] == Framed(b, i + 1);
      FramedInjective(a, b, i + 1);
      assert a[i..] == [a[i]] + a[i + 1..] && b[i..] == [b[i]] + b[i + 1..];
    }
  }

  // ---------------------------------------------------------------------------
  // Decimal numbers.

  function Digit(d: nat): char
    requires d < 10
  {
    '0' + d as char
  }

  /** Python's `str` of a non-negative number. */
  function Decimal(n: nat): (s: string)
    ensures s != ""
  {
    if n < 10 then [Digit(n)] else Decimal(n / 10) + [Digit(n % 10)]
  }

  lemma {:induction false} DecimalInjective(a: nat, b: nat)
    requires Decimal(a) == Decimal(b)
    ensures a == b
  {
    var s, t := Decimal(a), Decimal(b);
    assert s[|s| - 1] == Digit(a % 10) && t[|t| - 1] == Digit(b % 10);
    assert a % 10 == b % 10;
    if a >= 10 && b >= 10 {
      assert Decimal(a / 10) == s[..|s| - 1] && Decimal(b / 10) == t[..|t| - 1];
      DecimalInjective(a / 10, b / 10);
    }
  }

  lemma EncodeInjective(a: string, b: string)
    requires Encode(a) == Encode(b)
    ensures a == b
  {
    RoundTrip(a);
    RoundTrip(b);
  }

  // ---------------------------------------------------------------------------
  // The receipt of a claim.

  /** What a CLI client proves on reconnecting. */
  datatype Identity = Identity(nonce: string, peerUid: nat, fingerprint: string, pinned: string)

  function Fields(id: string, c: Identity): seq<seq<byte>> {
    [Encode(id), Encode(c.nonce), Encode(Decimal(c.peerUid)), Encode(c.fingerprint), Encode(c.pinned)]
  }

  /** Different clients, or the same client of different enrollments, have different bytes to hash. */
  lemma FieldsInjective(id: string, c: Identity, id': string, c': Identity)
    requires Frameable(Fields(id, c)) && Frameable(Fields(id', c'))
    requires Framed(Fields(id, c), 0) == Framed(Fields(id', c'), 0)
    ensures id == id' && c == c'
  {
    var a, b := Fields(id, c), Fields(id', c');
    FramedInjective(a, b, 0);
    assert a[0..] == a && b[0..] == b;
    assert a[0] == b[0] && a[1] == b[1] && a[2] == b[2] && a[3] == b[3] && a[4] == b[4];
    EncodeInjective(id, id');
    EncodeInjective(c.nonce, c'.nonce);
    EncodeInjective(Decimal(c.peerUid), Decimal(c'.peerUid));
    EncodeInjective(c.fingerprint, c'.fingerprint);
    EncodeInjective(c.pinned, c'.pinned);
    DecimalInjective(c.peerUid, c'.peerUid);
  }
}
