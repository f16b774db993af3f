/**
 * QMI messages: a seven-byte header followed by type-length-value elements.
 * The scanner is proved against a parser, the parser against the encoder in
 * both directions, and the builders write what the encoder says.
 */
module Qmi {
  import opened Basics

  const FLAG_REQ: byte := 0
  const HEADER: nat := 7

  datatype Tlv = Tlv(kind: byte, value: seq<byte>)

  function Le16(a: byte, b: byte): (r: u16)
  {
    a as int + 256 * (b as int)
  }

  function Le32(a: byte, b: byte, c: byte, d: byte): (r: u32)
  {
    Le16(a, b) as int + 0x1_0000 * (Le16(c, d) as int)
  }

  /** The two bytes that make up n, low byte first. What takes more than two bytes is not encoded. */
  ghost function Bytes16(n: nat): (r: (byte, byte))
    ensures n < 0x1_0000 ==> Le16(r.0, r.1) == n
  {
    if n < 0x1_0000 then
      assert Le16(n % 256, n / 256) == n;
      var lo: byte, hi: byte :| Le16(lo, hi) == n;
      (lo, hi)
    else (0, 0)
  }

  ghost function Low(n: nat): byte
  {
    Bytes16(n).0
  }

  ghost function High(n: nat): byte
  {
    Bytes16(n).1
  }

  /** What the builders store. */
  lemma Stored16(n: u16)
    ensures n % 256 == Low(n) && n / 256 == High(n)
  {
    Le16Unique(n % 256, n / 256, Low(n), High(n));
  }

  lemma Le16Unique(a: byte, b: byte, c: byte, d: byte)
    requires Le16(a, b) == Le16(c, d)
    ensures a == c && b == d
  {
  }

  // ----- encoding

  predicate Fits(t: Tlv)
  {
    |t.value| < 0x1_0000
  }

  predicate AllFit(ts: seq<Tlv>)
  {
    forall i :: 0 <= i < |ts| ==> Fits(ts[i])
  }

  ghost function Encode(t: Tlv): seq<byte>
  {
    [t.kind, Low(|t.value|), High(|t.value|)] + t.value
  }

  ghost function EncodeAll(ts: seq<Tlv>): seq<byte>
  {
    if |ts| == 0 then [] else Encode(ts[0]) + EncodeAll(ts[1..])
  }

  lemma {:induction false} EncodeAppend(ts: seq<Tlv>, us: seq<Tlv>)
    ensures EncodeAll(ts + us) == EncodeAll(ts) + EncodeAll(us)
  {
    if |ts| == 0 {
      assert ts + us == us;
    } else {
      assert (ts + us)[1..] == ts[1..] + us;
      EncodeAppend(ts[1..], us);
    }
  }

  lemma EncodeOne(t: Tlv)
    ensures EncodeAll([t]) == Encode(t)
  {
    assert [t][1..] == [];
  }

  ghost function Header(txid: u16, msgId: u16, bodyLen: u16): seq<byte>
  {
    [FLAG_REQ, Low(txid), High(txid), Low(msgId), High(msgId), Low(bodyLen), High(bodyLen)]
  }

  /** The bytes of a header: the flag, then three numbers, the low byte first. */
  lemma HeaderBytes(txid: u16, msgId: u16, bodyLen: u16)
    ensures Header(txid, msgId, bodyLen) ==
              [0, txid % 256, txid / 256, msgId % 256, msgId / 256, bodyLen % 256, bodyLen / 256]
  {
    Stored16(txid);
    Stored16(msgId);
    Stored16(bodyLen);
  }

  /** The bytes of an element: its kind, its length, the low byte first, its value. */
  lemma ElementBytes(t: Tlv)
    requires Fits(t)
    ensures Encode(t) == [t.kind, |t.value| % 256, |t.value| / 256] + t.value
  {
    Stored16(|t.value|);
  }

  // ----- parsing

  /** The declared length of the element at i. */
  function LengthAt(p: seq<byte>, i: nat): nat
    requires i + 3 <= |p|
  {
    Le16(p[i + 1], p[i + 2])
  }

  predicate WholeAt(p: seq<byte>, i: nat)
  {
    i + 3 <= |p| && i + 3 + LengthAt(p, i) <= |p|
  }

  function TlvAt(p: seq<byte>, i: nat): Tlv
    requires WholeAt(p, i)
  {
    Tlv(p[i], p[i + 3..i + 3 + LengthAt(p, i)])
  }

  /** The elements from offset i on, up to the first that is not whole. */
  function Parse(p: seq<byte>, i: nat): seq<Tlv>
    decreases |p| - i
  {
    if !WholeAt(p, i) then [] else [TlvAt(p, i)] + Parse(p, i + 3 + LengthAt(p, i))
  }

  /** What the elements leave over. */
  function Rest(p: seq<byte>, i: nat): nat
    requires i <= |p|
    decreases |p| - i
  {
    if !WholeAt(p, i) then i else Rest(p, i + 3 + LengthAt(p, i))
  }

  lemma LengthBytes(a: byte, b: byte)
    ensures Low(Le16(a, b)) == a && High(Le16(a, b)) == b
  {
    Le16Unique(Low(Le16(a, b)), High(Le16(a, b)), a, b);
  }

  lemma EncodeCons(t: Tlv, ts: seq<Tlv>)
    requires Fits(t) && AllFit(ts)
    ensures AllFit([t] + ts) && EncodeAll([t] + ts) == Encode(t) + EncodeAll(ts)
  {
    assert ([t] + ts)[1..] == ts;
  }

  /** A whole element, encoded again, is the bytes it takes up. */
  lemma EncodeWhole(p: seq<byte>, i: nat)
    requires WholeAt(p, i)
    ensures Fits(TlvAt(p, i)) && Encode(TlvAt(p, i)) == p[i..i + 3 + LengthAt(p, i)]
  {
    LengthBytes(p[i + 1], p[i + 2]);
  }

  lemma Join(p: seq<byte>, i: nat, j: nat, k: nat)
    requires i <= j <= k <= |p|
    ensures p[i..j] + p[j..k] == p[i..k]
  {
  }

  /** The elements found, encoded again, are the bytes up to the rest; no element starts there. */
  lemma {:induction false} EncodeParsed(p: seq<byte>, i: nat)
    requires i <= |p|
    ensures var r := Rest(p, i);
            i <= r <= |p| && AllFit(Parse(p, i)) && EncodeAll(Parse(p, i)) == p[i..r] && !WholeAt(p, r)
    decreases |p| - i
  {
    if WholeAt(p, i) {
      var j := i + 3 + LengthAt(p, i);
      EncodeParsed(p, j);
      EncodeWhole(p, i);
      EncodeCons(TlvAt(p, i), Parse(p, j));
      Join(p, i, j, Rest(p, j));
    }
  }

  /** Bytes that start with a head announcing the length of what follows. */
  lemma HeadIsWhole(p: seq<byte>, i: nat, kind: byte, lo: byte, hi: byte, value: seq<byte>, rest: seq<byte>)
    requires i <= |p| && Le16(lo, hi) == |value| && [kind, lo, hi] + value + rest <= p[i..]
    ensures WholeAt(p, i) && TlvAt(p, i) == Tlv(kind, value)
    ensures i + 3 + |value| + |rest| <= |p| && p[i + 3 + |value|..][..|rest|] == rest
  {
    var e := [kind, lo, hi] + value + rest;
    assert forall k :: 0 <= k < |e| ==> p[i + k] == p[i..][k] == e[k];
    assert p[i] == e[0] && p[i + 1] == e[1] && p[i + 2] == e[2];
    assert p[i + 3..i + 3 + |value|] == e[3..3 + |value|] == value;
    assert p[i + 3 + |value|..][..|rest|] == e[3 + |value|..] == rest;
  }

  /** Bytes that start with an encoded element have that element at their start. */
  lemma EncodedIsWhole(p: seq<byte>, i: nat, t: Tlv, rest: seq<byte>)
    requires i <= |p| && Fits(t) && Encode(t) + rest <= p[i..]
    ensures WholeAt(p, i) && TlvAt(p, i) == t
    ensures i + 3 + |t.value| + |rest| <= |p| && p[i + 3 + |t.value|..][..|rest|] == rest
  {
    HeadIsWhole(p, i, t.kind, Low(|t.value|), High(|t.value|), t.value, rest);
  }

  lemma ParseCons(p: seq<byte>, i: nat)
    requires WholeAt(p, i)
    ensures Parse(p, i) == [TlvAt(p, i)] + Parse(p, i + 3 + LengthAt(p, i))
  {
  }

  lemma SplitFirst(ts: seq<Tlv>)
    requires |ts| > 0 && AllFit(ts)
    ensures Fits(ts[0]) && AllFit(ts[1..]) && EncodeAll(ts) == Encode(ts[0]) + EncodeAll(ts[1..])
    ensures ts == [ts[0]] + ts[1..]
  {
  }

  lemma AfterHead(s: seq<byte>, n: nat, rest: seq<byte>)
    requires n + |rest| <= |s| && s[n..][..|rest|] == rest
    ensures rest <= s[n..] && (n + |rest| == |s| ==> s[n..] == rest)
  {
    if n + |rest| == |s| {
      assert s[n..][..|rest|] == s[n..];
    }
  }

  /** The elements ts stand one after another in p from offset i on. */
  predicate Stand(p: seq<byte>, i: nat, ts: seq<Tlv>)
    decreases |ts|
  {
    |ts| == 0 || (WholeAt(p, i) && TlvAt(p, i) == ts[0] && Stand(p, i + 3 + LengthAt(p, i), ts[1..]))
  }

  /** What p holds from i on, if it starts with encoded elements: the first of them, then the rest. */
  lemma Peel(p: seq<byte>, i: nat, t: Tlv, rest: seq<byte>)
    requires i <= |p| && Fits(t) && Encode(t) + rest <= p[i..]
    ensures WholeAt(p, i) && TlvAt(p, i) == t
    ensures var j := i + 3 + LengthAt(p, i); j <= |p| && rest <= p[j..]
  {
    EncodedIsWhole(p, i, t, rest);
    AfterHead(p, i + 3 + |t.value|, rest);
  }

  lemma {:induction false} EncodedStand(p: seq<byte>, i: nat, ts: seq<Tlv>)
    requires i <= |p| && AllFit(ts) && EncodeAll(ts) <= p[i..]
    ensures Stand(p, i, ts)
    decreases |ts|
  {
    if |ts| > 0 {
      SplitFirst(ts);
      Peel(p, i, ts[0], EncodeAll(ts[1..]));
      EncodedStand(p, i + 3 + LengthAt(p, i), ts[1..]);
    }
  }

  lemma PrefixCons(ts: seq<Tlv>, us: seq<Tlv>)
    requires |ts| > 0 && ts[1..] <= us
    ensures ts <= [ts[0]] + us
  {
    assert forall k :: 1 <= k < |ts| ==> ts[k] == ts[1..][k - 1] == us[k - 1];
  }

  lemma {:induction false} StandingParsed(p: seq<byte>, i: nat, ts: seq<Tlv>)
    requires Stand(p, i, ts)
    ensures ts <= Parse(p, i)
    decreases |ts|
  {
    if |ts| > 0 {
      var j := i + 3 + LengthAt(p, i);
      StandingParsed(p, j, ts[1..]);
      ParseCons(p, i);
      PrefixCons(ts, Parse(p, j));
    }
  }

  /** It is the longest such prefix: every list of elements that the bytes start with is its prefix. */
  lemma ParseLongest(p: seq<byte>, i: nat, ts: seq<Tlv>)
    requires i <= |p| && AllFit(ts) && EncodeAll(ts) <= p[i..]
    ensures ts <= Parse(p, i)
  {
    EncodedStand(p, i, ts);
    StandingParsed(p, i, ts);
  }

  /** Where they end. */
  function End(i: nat, ts: seq<Tlv>): nat
    decreases |ts|
  {
    if |ts| == 0 then i else End(i + 3 + |ts[0].value|, ts[1..])
  }

  lemma {:induction false} EncodedLength(i: nat, ts: seq<Tlv>)
    ensures End(i, ts) == i + |EncodeAll(ts)|
    decreases |ts|
  {
    if |ts| > 0 {
      EncodedLength(i + 3 + |ts[0].value|, ts[1..]);
    }
  }

  lemma {:induction false} StandingAll(p: seq<byte>, i: nat, ts: seq<Tlv>)
    requires Stand(p, i, ts) && End(i, ts) == |p|
    ensures Parse(p, i) == ts
    decreases |ts|
  {
    if |ts| > 0 {
      StandingAll(p, i + 3 + LengthAt(p, i), ts[1..]);
      ParseCons(p, i);
      assert ts == [ts[0]] + ts[1..];
    }
  }

  /** Parsing after encoding gives the elements back, wherever they start. */
  lemma ParseEncoded(p: seq<byte>, i: nat, ts: seq<Tlv>)
    requires i <= |p| && AllFit(ts) && p[i..] == EncodeAll(ts)
    ensures Parse(p, i) == ts
  {
    EncodedStand(p, i, ts);
    EncodedLength(i, ts);
    StandingAll(p, i, ts);
  }

  // ----- searching

  /** The first element of the given kind. */
  function First(ts: seq<Tlv>, kind: byte): Option<Tlv>
  {
    if |ts| == 0 then None
    else if ts[0].kind == kind then Some(ts[0])
    else First(ts[1..], kind)
  }

  lemma {:induction false} FirstFound(ts: seq<Tlv>, kind: byte)
    ensures First(ts, kind).None? <==> forall i :: 0 <= i < |ts| ==> ts[i].kind != kind
    ensures First(ts, kind).Some? ==>
              exists i :: 0 <= i < |ts| && ts[i] == First(ts, kind).value && ts[i].kind == kind
                          && forall j :: 0 <= j < i ==> ts[j].kind != kind
  {
    if |ts| > 0 && ts[0].kind != kind {
      FirstFound(ts[1..], kind);
      if First(ts[1..], kind).Some? {
        var i :| 0 <= i < |ts[1..]| && ts[1..][i] == First(ts, kind).value && ts[1..][i].kind == kind
                 && forall j :: 0 <= j < i ==> ts[1..][j].kind != kind;
        assert ts[i + 1] == ts[1..][i];
        assert forall j :: 1 <= j < i + 1 ==> ts[j] == ts[1..][j - 1];
      } else {
        assert forall j :: 1 <= j < |ts| ==> ts[j] == ts[1..][j - 1];
      }
    } else if |ts| > 0 {
      assert ts[0].kind == kind;
    }
  }

  /** The elements of a message. */
  function Body(p: seq<byte>): seq<Tlv>
  {
    Parse(p, HEADER)
  }

  /** Where the value of the first element of a kind starts. */
  function ValueOffset(p: seq<byte>, i: nat, kind: byte): (o: Option<nat>)
    ensures o.Some? ==> i + 3 <= o.value && WholeAt(p, o.value - 3) && p[o.value - 3] == kind
    decreases |p| - i
  {
    if !WholeAt(p, i) then None
    else if p[i] == kind then Some(i + 3)
    else ValueOffset(p, i + 3 + LengthAt(p, i), kind)
  }

  lemma {:induction false} StandSplit(p: seq<byte>, i: nat, ts: seq<Tlv>, us: seq<Tlv>)
    requires Stand(p, i, ts + us)
    ensures Stand(p, i, ts) && Stand(p, End(i, ts), us)
    decreases |ts|
  {
    if |ts| == 0 {
      assert ts + us == us;
    } else {
      assert (ts + us)[1..] == ts[1..] + us;
      StandSplit(p, i + 3 + LengthAt(p, i), ts[1..], us);
    }
  }

  /** The scan passes over elements of other kinds. */
  lemma {:induction false} OffsetSkips(p: seq<byte>, i: nat, ts: seq<Tlv>, kind: byte)
    requires Stand(p, i, ts) && First(ts, kind).None?
    ensures ValueOffset(p, i, kind) == ValueOffset(p, End(i, ts), kind)
    decreases |ts|
  {
    if |ts| > 0 {
      OffsetSkips(p, i + 3 + LengthAt(p, i), ts[1..], kind);
    }
  }

  lemma FirstCons(t: Tlv, ts: seq<Tlv>, kind: byte)
    ensures First([t] + ts, kind) == if t.kind == kind then Some(t) else First(ts, kind)
  {
    assert ([t] + ts)[1..] == ts;
  }

  /** That offset is the one of the first element of the kind among those parsed. */
  lemma {:induction false} OffsetOfFirst(p: seq<byte>, i: nat, kind: byte)
    ensures var o := ValueOffset(p, i, kind);
            First(Parse(p, i), kind) == if o.None? then None else Some(TlvAt(p, o.value - 3))
    decreases |p| - i
  {
    if WholeAt(p, i) {
      var j := i + 3 + LengthAt(p, i);
      FirstCons(TlvAt(p, i), Parse(p, j), kind);
      OffsetOfFirst(p, j, kind);
    }
  }

  lemma OffsetHere(m: seq<byte>, i: nat, kind: byte)
    requires WholeAt(m, i) && m[i] == kind
    ensures ValueOffset(m, i, kind) == Some(i + 3)
  {
  }

  lemma FirstAtOffset(m: seq<byte>, i: nat, kind: byte)
    requires ValueOffset(m, HEADER, kind) == Some(i + 3)
    ensures WholeAt(m, i) && First(Body(m), kind) == Some(TlvAt(m, i))
  {
    OffsetOfFirst(m, HEADER, kind);
  }

  lemma SliceOfPrefix(s: seq<byte>, n: nat, lo: nat, hi: nat)
    requires lo <= hi <= n <= |s|
    ensures s[..n][lo..hi] == s[lo..hi]
  {
  }

  /** qmi_tlv_find */
  method Find(p: array<byte>, n: nat, kind: byte) returns (found: bool, off: nat, len: nat)
    requires n <= p.Length
    ensures found <==> First(Body(p[..n]), kind).Some?
    ensures found ==>
      && HEADER + 3 <= off && off + len <= n
      && First(Body(p[..n]), kind) == Some(Tlv(kind, p[off..off + len]))
      && len == LengthAt(p[..n], off - 3)
    ensures ValueOffset(p[..n], HEADER, kind) == if found then Some(off) else None
  {
    ghost var m := p[..n];
    var i := HEADER;
    off, len := 0, 0;
    while i + 3 <= n
      invariant HEADER <= i
      invariant ValueOffset(m, HEADER, kind) == ValueOffset(m, i, kind)
      decreases n - i
    {
      var l := Le16(p[i + 1], p[i + 2]);
      assert l == LengthAt(m, i);
      if i + 3 + l > n {
        break;
      }
      if p[i] == kind {
        OffsetHere(m, i, kind);
        FirstAtOffset(m, i, kind);
        SliceOfPrefix(p[..], n, i + 3, i + 3 + l);
        return true, i + 3, l;
      }
      i := i + 3 + l;
    }
    OffsetOfFirst(m, HEADER, kind);
    found := false;
  }

  // ----- reading values

  function ReadU32(v: seq<byte>): u32
    requires |v| >= 4
  {
    Le32(v[0], v[1], v[2], v[3])
  }

  lemma Le32Unique(a: seq<byte>, b: seq<byte>)
    requires |a| == 4 && |b| == 4 && ReadU32(a) == ReadU32(b)
    ensures a == b
  {
    HalvesUnique(Le16(a[0], a[1]), Le16(a[2], a[3]), Le16(b[0], b[1]), Le16(b[2], b[3]));
    Le16Unique(a[0], a[1], b[0], b[1]);
    Le16Unique(a[2], a[3], b[2], b[3]);
  }

  lemma HalvesUnique(a: u16, b: u16, c: u16, d: u16)
    requires a as int + 0x1_0000 * (b as int) == c as int + 0x1_0000 * (d as int)
    ensures a == c && b == d
  {
  }

  /** The four bytes that a builder stores for v. */
  function Stored32(v: u32): seq<byte>
  {
    [v % 256, v / 256 % 256, v / 256 / 256 % 256, v / 256 / 256 / 256]
  }

  lemma Stored32Read(v: u32)
    ensures ReadU32(Stored32(v)) == v
  {
  }

  /** The four bytes that are read as v. */
  ghost function WriteU32(v: u32): (r: seq<byte>)
    ensures |r| == 4 && ReadU32(r) == v
  {
    Stored32Read(v);
    var r: seq<byte> :| |r| == 4 && ReadU32(r) == v;
    r
  }

  lemma U32RoundTrip(v: u32)
    ensures ReadU32(WriteU32(v)) == v && WriteU32(v) == Stored32(v)
  {
    Stored32Read(v);
    Le32Unique(WriteU32(v), Stored32(v));
  }

  /** The bytes of a u32, the low byte first. */
  lemma U32Bytes(v: u32)
    ensures WriteU32(v) == [v % 256, v / 256 % 256, v / 256 / 256 % 256, v / 256 / 256 / 256]
  {
    U32RoundTrip(v);
  }

  /** The value that qmi_tlv_get_u32 delivers for a body. */
  function U32In(ts: seq<Tlv>, kind: byte): Option<u32>
  {
    var t := First(ts, kind);
    if t.None? || |t.value.value| < 4 then None else Some(ReadU32(t.value.value))
  }

  /** qmi_tlv_get_u32 */
  method GetU32(p: array<byte>, n: nat, kind: byte) returns (r: Option<u32>)
    requires n <= p.Length
    ensures r == U32In(Body(p[..n]), kind)
  {
    var found, off, len := Find(p, n, kind);
    if !found || len < 4 {
      return None;
    }
    r := Some(Le32(p[off], p[off + 1], p[off + 2], p[off + 3]));
  }

  /** The error code of a body, or -1 without a complete result element. */
  function ResultCode(ts: seq<Tlv>): int
  {
    var t := First(ts, 0x02);
    if t.None? || |t.value.value| < 4 then -1 else Le16(t.value.value[2], t.value.value[3])
  }

  /** qmi_result */
  method Result(p: array<byte>, n: nat) returns (code: int)
    requires n <= p.Length
    ensures code == ResultCode(Body(p[..n]))
  {
    var found, off, len := Find(p, n, 0x02);
    if !found || len < 4 {
      return -1;
    }
    code := Le16(p[off + 2], p[off + 3]);
  }

  // ----- building

  /** The bytes of b before off are a header and these elements. */
  ghost predicate Holds(b: array<byte>, off: nat, header: seq<byte>, ts: seq<Tlv>)
    reads b
  {
    off <= b.Length && |header| == HEADER && AllFit(ts) && b[..off] == header + EncodeAll(ts)
  }

  /** qmi_hdr_req */
  method HdrReq(b: array<byte>, txid: u16, msgId: u16, bodyLen: u16) returns (off: nat)
    requires b.Length >= HEADER
    modifies b
    ensures off == HEADER && Holds(b, off, Header(txid, msgId, bodyLen), [])
    ensures b[HEADER..] == old(b[HEADER..])
  {
    b[0] := FLAG_REQ;
    b[1] := txid % 256;
    b[2] := txid / 256;
    b[3] := msgId % 256;
    b[4] := msgId / 256;
    b[5] := bodyLen % 256;
    b[6] := bodyLen / 256;
    Stored16(txid);
    Stored16(msgId);
    Stored16(bodyLen);
    off := 7;
    assert b[..7] == Header(txid, msgId, bodyLen) + [];
  }

  /** memcpy */
  method CopyIn(b: array<byte>, off: nat, data: seq<byte>)
    requires off + |data| <= b.Length
    modifies b
    ensures b[..off] == old(b[..off]) && b[off..off + |data|] == data
    ensures b[off + |data|..] == old(b[off + |data|..])
  {
    for k := 0 to |data|
      invariant b[..off] == old(b[..off]) && b[off..off + k] == data[..k]
      invariant b[off + |data|..] == old(b[off + |data|..])
    {
      b[off + k] := data[k];
    }
  }

  method WriteHead(b: array<byte>, off: nat, kind: byte, len: u16)
    requires off + 3 <= b.Length
    modifies b
    ensures b[..off + 3] == old(b[..off]) + [kind, Low(len), High(len)]
    ensures b[off + 3..] == old(b[off + 3..])
  {
    b[off] := kind;
    b[off + 1] := len % 256;
    b[off + 2] := len / 256;
    Stored16(len);
  }

  /** qmi_tlv_bytes: appends one element and nothing else. */
  method TlvBytes(b: array<byte>, off: nat, kind: byte, data: seq<byte>,
                  ghost header: seq<byte>, ghost ts: seq<Tlv>) returns (end: nat)
    requires |data| < 0x1_0000 && off + 3 + |data| <= b.Length
    requires Holds(b, off, header, ts)
    modifies b
    ensures end == off + 3 + |data| && Holds(b, end, header, ts + [Tlv(kind, data)])
    ensures b[end..] == old(b[end..])
  {
    end := off + 3 + |data|;
    ghost var tail := b[end..];
    WriteHead(b, off, kind, |data|);
    assert b[end..] == b[off + 3..][|data|..] == tail;
    ghost var head := b[..off + 3];
    CopyIn(b, off + 3, data);
    assert b[..end] == head + data;
    AppendedOne(b[..end], header, ts, Tlv(kind, data));
  }

  lemma AppendedOne(m: seq<byte>, header: seq<byte>, ts: seq<Tlv>, t: Tlv)
    requires AllFit(ts) && Fits(t) && m == header + EncodeAll(ts) + [t.kind, Low(|t.value|), High(|t.value|)] + t.value
    ensures AllFit(ts + [t]) && m == header + EncodeAll(ts + [t])
  {
    EncodeAppend(ts, [t]);
    EncodeOne(t);
    Regroup(header, EncodeAll(ts), [t.kind, Low(|t.value|), High(|t.value|)], t.value);
  }

  lemma Regroup(a: seq<byte>, b: seq<byte>, c: seq<byte>, d: seq<byte>)
    ensures a + b + c + d == a + (b + (c + d))
  {
  }

  /** qmi_tlv_u8 */
  method TlvU8(b: array<byte>, off: nat, kind: byte, v: byte,
               ghost header: seq<byte>, ghost ts: seq<Tlv>) returns (end: nat)
    requires off + 4 <= b.Length && Holds(b, off, header, ts)
    modifies b
    ensures end == off + 4 && Holds(b, end, header, ts + [Tlv(kind, [v])]) && b[end..] == old(b[end..])
  {
    end := TlvBytes(b, off, kind, [v], header, ts);
  }

  /** qmi_tlv_u16 */
  method TlvU16(b: array<byte>, off: nat, kind: byte, v: u16,
                ghost header: seq<byte>, ghost ts: seq<Tlv>) returns (end: nat)
    requires off + 5 <= b.Length && Holds(b, off, header, ts)
    modifies b
    ensures end == off + 5 && Holds(b, end, header, ts + [Tlv(kind, [Low(v), High(v)])])
    ensures b[end..] == old(b[end..])
  {
    Stored16(v);
    end := TlvBytes(b, off, kind, [v % 256, v / 256], header, ts);
  }

  /** qmi_tlv_u32 */
  method TlvU32(b: array<byte>, off: nat, kind: byte, v: u32,
                ghost header: seq<byte>, ghost ts: seq<Tlv>) returns (end: nat)
    requires off + 7 <= b.Length && Holds(b, off, header, ts)
    modifies b
    ensures end == off + 7 && Holds(b, end, header, ts + [Tlv(kind, WriteU32(v))]) && b[end..] == old(b[end..])
  {
    U32RoundTrip(v);
    end := TlvBytes(b, off, kind, Stored32(v), header, ts);
  }

  /** Whatever was appended to a header is what the scanner sees. */
  lemma BuiltIsRead(m: seq<byte>, header: seq<byte>, ts: seq<Tlv>)
    requires |header| == HEADER && AllFit(ts) && m == header + EncodeAll(ts)
    ensures Body(m) == ts
  {
    assert m[HEADER..] == EncodeAll(ts);
    ParseEncoded(m, HEADER, ts);
  }

  /** The first element of its kind that was appended to a header is found with its value. */
  lemma FirstAsSent(m: seq<byte>, header: seq<byte>, ts: seq<Tlv>, t: Tlv, us: seq<Tlv>)
    requires |header| == HEADER && AllFit(ts) && Fits(t) && AllFit(us) && First(ts, t.kind).None?
    requires m == header + EncodeAll(ts + ([t] + us))
    ensures First(Body(m), t.kind) == Some(t)
  {
    BuiltIsRead(m, header, ts + ([t] + us));
    FirstSkips(ts, [t] + us, t.kind);
    FirstCons(t, us, t.kind);
  }

  /** The modem's error code is the second little-endian number of its result element; one that is
      too short for it, or missing, gives -1. */
  lemma ResultAsSent(m: seq<byte>, header: seq<byte>, ts: seq<Tlv>, value: seq<byte>, us: seq<Tlv>)
    requires |header| == HEADER && AllFit(ts) && |value| < 0x1_0000 && AllFit(us) && First(ts, 0x02).None?
    requires m == header + EncodeAll(ts + ([Tlv(0x02, value)] + us))
    ensures ResultCode(Body(m)) == if |value| < 4 then -1 else value[2] as int + 256 * value[3] as int
  {
    FirstAsSent(m, header, ts, Tlv(0x02, value), us);
  }

  lemma NoResult(m: seq<byte>, header: seq<byte>, ts: seq<Tlv>)
    requires |header| == HEADER && AllFit(ts) && First(ts, 0x02).None? && m == header + EncodeAll(ts)
    ensures ResultCode(Body(m)) == -1
  {
    BuiltIsRead(m, header, ts);
  }

  /** A u32 is read from the first four bytes of its element, the low byte first; a shorter element
      gives nothing. */
  lemma U32AsSent(m: seq<byte>, header: seq<byte>, ts: seq<Tlv>, kind: byte, value: seq<byte>, us: seq<Tlv>)
    requires |header| == HEADER && AllFit(ts) && |value| < 0x1_0000 && AllFit(us) && First(ts, kind).None?
    requires m == header + EncodeAll(ts + ([Tlv(kind, value)] + us))
    ensures U32In(Body(m), kind) ==
              if |value| < 4 then None
              else Some(value[0] as int + 0x100 * value[1] as int + 0x1_0000 * value[2] as int
                        + 0x100_0000 * value[3] as int)
  {
    FirstAsSent(m, header, ts, Tlv(kind, value), us);
  }

  /** A u32 that was appended is read back, if no earlier element has its kind. */
  lemma U32Survives(m: seq<byte>, header: seq<byte>, ts: seq<Tlv>, kind: byte, v: u32, us: seq<Tlv>)
    requires |header| == HEADER && AllFit(ts) && AllFit(us) && First(ts, kind).None?
    requires m == header + EncodeAll(ts + ([Tlv(kind, WriteU32(v))] + us))
    ensures U32In(Body(m), kind) == Some(v)
  {
    var t := Tlv(kind, WriteU32(v));
    var all := ts + ([t] + us);
    BuiltIsRead(m, header, all);
    FirstSkips(ts, [t] + us, kind);
    assert First([t] + us, kind) == Some(t);
    U32RoundTrip(v);
  }

  lemma {:induction false} FirstSkips(ts: seq<Tlv>, us: seq<Tlv>, kind: byte)
    requires First(ts, kind).None?
    ensures First(ts + us, kind) == First(us, kind)
  {
    if |ts| == 0 {
      assert ts + us == us;
    } else {
      assert (ts + us)[1..] == ts[1..] + us;
      FirstSkips(ts[1..], us, kind);
    }
  }
}
