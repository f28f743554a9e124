/**
  Foundation's `UUID` as used for `Lens.id`: sixteen bytes, compared by
  value, whose `uuidString` is the upper-case hexadecimal 8-4-4-4-12 form.
  Where a UUID comes from (`UUID()` draws it at random) is left to callers:
  every operation that needs a fresh one takes it as a parameter.
*/
module Uuids {
  import opened Bytes

  type Uuid = s: seq<byte> | |s| == 16 witness seq(16, _ => 0 as byte)

  function HexDigit(d: int): (c: char)
    requires 0 <= d < 16
  {
    if d < 10 then (48 + d) as char else (55 + d) as char
  }

  /** Two upper-case hexadecimal digits per byte, high nibble first. */
  function Hex(bytes: seq<byte>): (s: string)
    ensures |s| == 2 * |bytes|
    ensures forall i :: 0 <= i < |s| ==> s[i] != '-'
  {
    if bytes == [] then []
    else [HexDigit(bytes[0] as int / 16), HexDigit(bytes[0] as int % 16)] + Hex(bytes[1..])
  }

  /** `uuid.uuidString`. */
  function UuidString(u: Uuid): (s: string)
    ensures |s| == 36
    ensures s[8] == '-' && s[13] == '-' && s[18] == '-' && s[23] == '-'
  {
    Hex(u[..4]) + "-" + Hex(u[4..6]) + "-" + Hex(u[6..8]) + "-" + Hex(u[8..10]) + "-" + Hex(u[10..])
  }

  lemma {:induction false} HexInjective(a: seq<byte>, b: seq<byte>)
    requires |a| == |b| && Hex(a) == Hex(b)
    ensures a == b
  {
    if a != [] {
      var ha, hb := Hex(a), Hex(b);
      assert ha[0] == hb[0] && ha[1] == hb[1];
      assert a[0] as int / 16 == b[0] as int / 16 && a[0] as int % 16 == b[0] as int % 16;
      assert ha[2..] == Hex(a[1..]) && hb[2..] == Hex(b[1..]);
      HexInjective(a[1..], b[1..]);
      assert a == [a[0]] + a[1..] && b == [b[0]] + b[1..];
    }
  }

  /** `uuidString` identifies the UUID: distinct UUIDs never print alike. */
  lemma UuidStringInjective(u: Uuid, v: Uuid)
    requires UuidString(u) == UuidString(v)
    ensures u == v
  {
    var s, t := UuidString(u), UuidString(v);
    assert s[..8] == Hex(u[..4]) && t[..8] == Hex(v[..4]);
    assert s[9..13] == Hex(u[4..6]) && t[9..13] == Hex(v[4..6]);
    assert s[14..18] == Hex(u[6..8]) && t[14..18] == Hex(v[6..8]);
    assert s[19..23] == Hex(u[8..10]) && t[19..23] == Hex(v[8..10]);
    assert s[24..] == Hex(u[10..]) && t[24..] == Hex(v[10..]);
    HexInjective(u[..4], v[..4]);
    HexInjective(u[4..6], v[4..6]);
    HexInjective(u[6..8], v[6..8]);
    HexInjective(u[8..10], v[8..10]);
    HexInjective(u[10..], v[10..]);
    assert u == u[..4] + u[4..6] + u[6..8] + u[8..10] + u[10..];
    assert v == v[..4] + v[4..6] + v[6..8] + v[8..10] + v[10..];
  }
}
