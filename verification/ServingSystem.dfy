/**
 * The NAS stage: the selection-preference request it builds, and the radio
 * interface it reads from a serving-system response.
 */
module ServingSystem {
  import opened Basics
  import opened Qmi

  const NONE: int := 0x00
  const GSM: byte := 0x04
  const UMTS: byte := 0x05
  const LTE: byte := 0x08
  const LTE_PREFERRED: u16 := 0x001C
  const SET_SYS_SEL_PREF: u16 := 0x0033

  /** A byte as a signed char. */
  function Signed(b: byte): int
  {
    if b < 128 then b else b - 256
  }

  /** The preference among the interfaces listed: LTE, else UMTS, else the first. */
  function Preferred(listed: seq<byte>): int
    requires |listed| > 0
  {
    if LTE in listed then LTE else if UMTS in listed then UMTS else Signed(listed[0])
  }

  /** The interfaces in a list of which off is the offset and len the announced length: the
      bytes that follow the count, wherever they lie. */
  function ListedFrom(m: seq<byte>, off: nat, len: nat): seq<byte>
    requires off + len <= |m|
  {
    if len < 5 || off + 5 + m[off + 4] > |m| then [] else m[off + 5..off + 5 + m[off + 4]]
  }

  /** The interfaces a response lists. */
  function Listed(m: seq<byte>): seq<byte>
  {
    match ValueOffset(m, HEADER, 0x01)
    case None => []
    case Some(off) => ListedFrom(m, off, LengthAt(m, off - 3))
  }

  /** What a response means. */
  function Decoded(m: seq<byte>): int
  {
    if ResultCode(Body(m)) != 0 then NONE
    else if First(Body(m), 0x15).Some? then LTE
    else Answer(Listed(m))
  }

  function Answer(listed: seq<byte>): int
  {
    if |listed| == 0 then NONE else Preferred(listed)
  }

  lemma OneMore(bs: seq<byte>, lo: nat, i: nat, b: byte)
    requires lo <= i < |bs|
    ensures b in bs[lo..i + 1] <==> b in bs[lo..i] || b == bs[i]
  {
    assert bs[lo..i + 1] == bs[lo..i] + [bs[i]];
  }

  /** The preference loop of poll_serving_system, over count interfaces from first on. */
  method Prefer(resp: array<byte>, first: nat, count: nat, ghost listed: seq<byte>) returns (best: int)
    requires 0 < count == |listed| && first + count <= resp.Length
    requires forall k :: 0 <= k < count ==> resp[first + k] == listed[k]
    ensures best == Preferred(listed)
  {
    best := Signed(resp[first]);
    for i := 1 to count
      invariant LTE !in listed[1..i]
      invariant best == if listed[0] != LTE && UMTS in listed[..i] then UMTS else Signed(listed[0])
    {
      var r := resp[first + i];
      assert r == listed[i];
      OneMore(listed, 0, i, UMTS);
      OneMore(listed, 1, i, LTE);
      if Signed(r) == LTE {
        return LTE;
      }
      if Signed(r) == UMTS && best != LTE {
        best := UMTS;
      }
    }
    assert listed[1..count] == listed[1..] && listed[..count] == listed;
    assert LTE in listed <==> listed[0] == LTE;
  }

  /** poll_serving_system, from the response of n bytes on */
  method Decode(resp: array<byte>, n: nat) returns (rat: int)
    requires n <= resp.Length
    ensures rat == Decoded(resp[..n])
  {
    var code := Result(resp, n);
    if code != 0 {
      return NONE;
    }
    var found, off, len := Find(resp, n, 0x15);
    if found {
      return LTE;
    }
    rat := DecodeInterfaces(resp, n);
  }

  /** The part of poll_serving_system that reads the list. */
  method DecodeInterfaces(resp: array<byte>, n: nat) returns (rat: int)
    requires n <= resp.Length
    ensures rat == Answer(Listed(resp[..n]))
  {
    var found, off, len := Find(resp, n, 0x01);
    if !found || len < 5 {
      return NONE;
    }
    var count := resp[off + 4];
    ghost var listed := ListedFrom(resp[..n], off, len);
    assert Listed(resp[..n]) == listed;
    if count == 0 || off + 5 + count > n {
      assert listed == [];
      return NONE;
    }
    rat := Prefer(resp, off + 5, count, listed);
  }

  /** The answer is LTE exactly if an LTE area code is present or an LTE interface is listed. */
  lemma LteExactly(m: seq<byte>)
    requires ResultCode(Body(m)) == 0
    ensures Decoded(m) == LTE <==> First(Body(m), 0x15).Some? || LTE in Listed(m)
  {
  }

  /** The answer is UMTS exactly if the modem reports success, no LTE area code, no LTE interface and
      a UMTS one. */
  lemma UmtsExactly(m: seq<byte>)
    ensures Decoded(m) == UMTS <==>
              ResultCode(Body(m)) == 0 && First(Body(m), 0x15).None? && LTE !in Listed(m) && UMTS in Listed(m)
  {
    var listed := Listed(m);
    if |listed| > 0 && UMTS !in listed {
      assert listed[0] in listed;
    }
  }

  /** With neither of them listed it is the first interface, as a signed char. */
  lemma FirstOtherwise(m: seq<byte>)
    requires ResultCode(Body(m)) == 0 && First(Body(m), 0x15).None?
    requires LTE !in Listed(m) && UMTS !in Listed(m) && |Listed(m)| > 0
    ensures -128 <= Decoded(m) < 128 && (Decoded(m) - Listed(m)[0]) % 256 == 0
  {
  }

  /** There is no answer exactly if the modem reports an error, or there is no area code and the list
      is empty or holds neither LTE nor UMTS and starts with the interface zero. */
  lemma NoneExactly(m: seq<byte>)
    ensures Decoded(m) == NONE <==>
              || ResultCode(Body(m)) != 0
              || (First(Body(m), 0x15).None?
                  && (|Listed(m)| == 0 || (LTE !in Listed(m) && UMTS !in Listed(m) && Listed(m)[0] == 0)))
  {
  }

  /** Where the first element of its kind stands. */
  lemma StandingPlace(m: seq<byte>, ts: seq<Tlv>, t: Tlv, us: seq<Tlv>)
    requires Stand(m, HEADER, ts + ([t] + us)) && First(ts, t.kind).None?
    ensures var e := End(HEADER, ts);
            ValueOffset(m, HEADER, t.kind) == Some(e + 3) && WholeAt(m, e) && LengthAt(m, e) == |t.value|
  {
    StandSplit(m, HEADER, ts, [t] + us);
    OffsetSkips(m, HEADER, ts, t.kind);
    OffsetHere(m, End(HEADER, ts), t.kind);
  }

  lemma ElementPlace(header: seq<byte>, ts: seq<Tlv>, t: Tlv, us: seq<Tlv>)
    requires |header| == HEADER && AllFit(ts) && Fits(t) && AllFit(us) && First(ts, t.kind).None?
    ensures var m := header + EncodeAll(ts + ([t] + us)); var e := HEADER + |EncodeAll(ts)|;
            && ValueOffset(m, HEADER, t.kind) == Some(e + 3)
            && WholeAt(m, e) && LengthAt(m, e) == |t.value|
  {
    var all := ts + ([t] + us);
    var m := header + EncodeAll(all);
    assert m[HEADER..] == EncodeAll(all);
    EncodedStand(m, HEADER, all);
    EncodedLength(HEADER, ts);
    StandingPlace(m, ts, t, us);
  }

  /** An element too short to hold a count lists nothing. */
  lemma ListedTooShort(header: seq<byte>, ts: seq<Tlv>, t: Tlv, us: seq<Tlv>)
    requires |header| == HEADER && t.kind == 0x01 && |t.value| < 5 && First(ts, 0x01).None?
    requires AllFit(ts) && AllFit(us)
    ensures Listed(header + EncodeAll(ts + ([t] + us))) == []
  {
    ElementPlace(header, ts, t, us);
  }

  lemma MessageTail(front: seq<byte>, head: seq<byte>, value: seq<byte>, rest: seq<byte>)
    requires |head| == 3 && 5 <= |value|
    ensures var m := front + (head + value + rest);
            |m| == |front| + 3 + |value| + |rest| && m[|front| + 8..] == (value + rest)[5..]
  {
  }

  lemma BuiltFront(header: seq<byte>, ts: seq<Tlv>, t: Tlv, us: seq<Tlv>)
    requires AllFit(ts) && Fits(t) && AllFit(us)
    ensures header + EncodeAll(ts + ([t] + us)) ==
              (header + EncodeAll(ts)) + (Encode(t)[..3] + t.value + EncodeAll(us))
  {
    EncodeAppend(ts, [t] + us);
    EncodeCons(t, us);
  }

  /** Where the first element 0x01 of a message lists interfaces, they follow its count. */
  lemma ListedFirst(header: seq<byte>, ts: seq<Tlv>, t: Tlv, us: seq<Tlv>)
    requires |header| == HEADER && t.kind == 0x01 && 5 <= |t.value| && First(ts, 0x01).None?
    requires AllFit(ts) && Fits(t) && AllFit(us)
    ensures var after := (t.value + EncodeAll(us))[5..]; var count := t.value[4] as int;
            Listed(header + EncodeAll(ts + ([t] + us))) == if count <= |after| then after[..count] else []
  {
    var m := header + EncodeAll(ts + ([t] + us));
    var front := header + EncodeAll(ts);
    ElementPlace(header, ts, t, us);
    BuiltFront(header, ts, t, us);
    MessageTail(front, Encode(t)[..3], t.value, EncodeAll(us));
    ListedTail(m, |front|, t.value, EncodeAll(us));
  }

  lemma ListedTail(m: seq<byte>, e: nat, value: seq<byte>, rest: seq<byte>)
    requires 5 <= |value| && |m| == e + 3 + |value| + |rest| && m[e + 8..] == (value + rest)[5..]
    requires ValueOffset(m, HEADER, 0x01) == Some(e + 3) && LengthAt(m, e) == |value| && m[e + 7] == value[4]
    ensures var after := (value + rest)[5..]; var count := value[4] as int;
            Listed(m) == if count <= |after| then after[..count] else []
  {
    var count := value[4] as int;
    if e + 8 + count <= |m| {
      assert m[e + 8..e + 8 + count] == m[e + 8..][..count];
    }
  }

  /** A response that lists its interfaces inside the element is read as it was built, whatever
      other elements stand before and after. */
  lemma ListedAsBuilt(header: seq<byte>, ts: seq<Tlv>, state: seq<byte>, listed: seq<byte>, us: seq<Tlv>)
    requires |header| == HEADER && |state| == 4 && 0 < |listed| < 256
    requires AllFit(ts) && AllFit(us) && First(ts, 0x01).None?
    ensures var count: byte := |listed|;
            Listed(header + EncodeAll(ts + ([Tlv(0x01, state + [count] + listed)] + us))) == listed
  {
    var count: byte := |listed|;
    var t := Tlv(0x01, state + [count] + listed);
    ListedFirst(header, ts, t, us);
    assert (t.value + EncodeAll(us))[5..][..count] == listed;
  }

  /** The count is checked against the message, not against the element: here the element ends
      right after the count, and the kind of the next element is taken for the interface. */
  lemma ListedBeyondElement(header: seq<byte>, ts: seq<Tlv>, state: seq<byte>, next: Tlv, us: seq<Tlv>)
    requires |header| == HEADER && |state| == 4 && Fits(next)
    requires AllFit(ts) && AllFit(us) && First(ts, 0x01).None?
    ensures Listed(header + EncodeAll(ts + ([Tlv(0x01, state + [1])] + ([next] + us)))) == [next.kind]
  {
    var t := Tlv(0x01, state + [1]);
    EncodeCons(next, us);
    ListedFirst(header, ts, t, [next] + us);
    assert (t.value + EncodeAll([next] + us))[5..][..1] == [next.kind];
  }

  /** The elements of the selection-preference request. */
  ghost const PREFERENCE: seq<Tlv> := [
    Tlv(0x11, [Low(LTE_PREFERRED), High(LTE_PREFERRED)]), Tlv(0x16, [0, 0, 0, 0, 0]), Tlv(0x17, [0]),
    Tlv(0x1E, [3, LTE, UMTS, GSM])]

  method AppendPreference(req: array<byte>, start: nat, ghost h: seq<byte>) returns (off: nat)
    requires req.Length == 128 && start == HEADER && Holds(req, start, h, [])
    modifies req
    ensures HEADER <= off && Holds(req, off, h, PREFERENCE)
  {
    off := TlvU16(req, start, 0x11, LTE_PREFERRED, h, []);
    assert [] + [Tlv(0x11, [Low(LTE_PREFERRED), High(LTE_PREFERRED)])] == PREFERENCE[..1];
    off := TlvBytes(req, off, 0x16, [0, 0, 0, 0, 0], h, PREFERENCE[..1]);
    assert PREFERENCE[..1] + [Tlv(0x16, [0, 0, 0, 0, 0])] == PREFERENCE[..2];
    off := TlvU8(req, off, 0x17, 0, h, PREFERENCE[..2]);
    assert PREFERENCE[..2] + [Tlv(0x17, [0])] == PREFERENCE[..3];
    off := TlvBytes(req, off, 0x1E, [3, LTE, UMTS, GSM], h, PREFERENCE[..3]);
    assert PREFERENCE[..3] + [Tlv(0x1E, [3, LTE, UMTS, GSM])] == PREFERENCE;
  }

  /** issue_set_sys_sel_pref, up to the transaction: what the modem parses, and a header that
      carries the length of the body. */
  method BuildPreference(req: array<byte>, txid: u16) returns (off: nat)
    requires req.Length == 128
    modifies req
    ensures HEADER <= off <= 128
    ensures Body(req[..off]) == PREFERENCE
    ensures req[..HEADER] == Header(txid, SET_SYS_SEL_PREF, off - HEADER)
  {
    off := HdrReq(req, txid, SET_SYS_SEL_PREF, 0);
    var afterHdr := off;
    ghost var h := Header(txid, SET_SYS_SEL_PREF, 0);
    off := AppendPreference(req, off, h);
    assert req[..HEADER] == req[..off][..HEADER] == h;
    ghost var tail := req[..off][HEADER..];
    assert tail == EncodeAll(PREFERENCE);
    var body: u16 := off - afterHdr;
    req[5] := body % 256;
    req[6] := body / 256;
    Stored16(body);
    ghost var h' := Header(txid, SET_SYS_SEL_PREF, body);
    assert req[..HEADER] == h';
    assert req[..off] == req[..HEADER] + req[..off][HEADER..];
    assert req[..off][HEADER..] == tail;
    BuiltIsRead(req[..off], h', PREFERENCE);
  }
}
