/**
 * nmap/icmp.go: building ICMP echo requests and reading echo replies.
 *
 * A message is the 8-byte header of an ICMP information message (type,
 * code, checksum, identifier, sequence number; RFC 792) followed by the
 * filler repeated.  The IPv4 echo request (type 8, RFC 792) carries the
 * Internet checksum of RFC 1071; the IPv6 one (type 128, section 4.1 of
 * RFC 4443) leaves the checksum to the kernel.  Sockets are not modelled:
 * the listen, resolve and write results are inputs.
 */
module Nmap {
  import opened Common

  const Icmp4EchoRequest: Byte := 8
  const Icmp4EchoReply: Byte := 0
  const Icmp6EchoRequest: Byte := 128
  const Icmp6EchoReply: Byte := 129

  /** syscall.AF_INET and syscall.AF_INET6, as Linux numbers them. */
  const AfInet: int := 2
  const AfInet6: int := 10

  const Two32: int := 0x1_0000_0000

  /** a ^ b on two bytes. */
  function Xor8(a: Byte, b: Byte): Byte
  {
    ((a as bv8) ^ (b as bv8)) as int
  }

  // ---------------------------------------------------------------------
  // The information message
  // ---------------------------------------------------------------------

  /** bytes.Repeat: `count` copies of `filler`, one after the other. */
  function RepeatBytes(filler: seq<Byte>, count: nat): (r: seq<Byte>)
    ensures |r| == count * |filler|
  {
    if count == 0 then [] else RepeatBytes(filler, count - 1) + filler
  }

  lemma MulMono(a: int, b: int, f: int)
    requires a <= b && f >= 0
    ensures a * f <= b * f
  {
    assert b * f - a * f == (b - a) * f;
  }

  /** Byte r of copy q of the repetition is byte r of the filler. */
  lemma {:induction false} RepeatCopy(filler: seq<Byte>, count: nat, q: int, r: int)
    requires 0 <= q < count && 0 <= r < |filler|
    ensures q * |filler| + r < count * |filler|
    ensures RepeatBytes(filler, count)[q * |filler| + r] == filler[r]
    decreases count
  {
    var f := |filler|;
    assert count * f == (count - 1) * f + f;
    if q < count - 1 {
      MulMono(q + 1, count - 1, f);
      assert (q + 1) * f == q * f + f;
      RepeatCopy(filler, count - 1, q, r);
    }
  }

  /** Byte k of the repetition is byte k mod |filler| of the filler. */
  lemma RepeatIndex(filler: seq<Byte>, count: nat, k: int)
    requires |filler| > 0 && 0 <= k < count * |filler|
    ensures RepeatBytes(filler, count)[k] == filler[k % |filler|]
  {
    var f := |filler|;
    var q := k / f;
    assert k == q * f + k % f;
    if q >= count {
      MulMono(count, q, f);
    }
    RepeatCopy(filler, count, q, k % f);
  }

  /** The repetition the source copies is long enough: (n / f + 1) copies of f bytes exceed n. */
  lemma RepeatCovers(n: nat, f: int)
    requires f > 0
    ensures n < (n / f + 1) * f
  {
    assert (n / f + 1) * f == (n / f) * f + f;
    assert n == (n / f) * f + n % f;
  }

  /** The filler laid out over n bytes, starting again from its first byte. */
  function Filled(filler: seq<Byte>, n: nat): (r: seq<Byte>)
    requires |filler| > 0
    ensures |r| == n
  {
    seq(n, k requires 0 <= k < n => filler[k % |filler|])
  }

  /**
   * newICMPInfoMessage: type, code and checksum zero, the identifier and the
   * sequence number big-endian (each truncated to 16 bits), then the filler.
   */
  function InfoMessage(id: int, seqnum: int, msglen: int, filler: seq<Byte>): (r: seq<Byte>)
    requires msglen >= 8 && |filler| > 0
    ensures |r| == msglen
  {
    [0, 0, 0, 0, (id / 0x100) % 0x100, id % 0x100, (seqnum / 0x100) % 0x100, seqnum % 0x100] + Filled(filler, msglen - 8)
  }

  /**
   * The message in a fresh byte array: make, copy of bytes.Repeat into
   * b[8:], then the eight header writes.  The source panics for a message
   * shorter than its header or for an empty filler.
   */
  method NewInfoMessage(id: int, seqnum: int, msglen: int, filler: seq<Byte>) returns (b: array<Byte>)
    requires msglen >= 8 && |filler| > 0
    ensures fresh(b) && b[..] == InfoMessage(id, seqnum, msglen, filler)
  {
    b := new Byte[msglen](_ => 0);
    var count := (msglen - 8) / |filler| + 1;
    var repeated := RepeatBytes(filler, count);
    RepeatCovers(msglen - 8, |filler|);
    var k := 0;
    while k < msglen - 8
      invariant 0 <= k <= msglen - 8
      invariant forall j | 0 <= j < k :: b[8 + j] == filler[j % |filler|]
    {
      RepeatIndex(filler, count, k);
      b[8 + k] := repeated[k];
      k := k + 1;
    }
    b[0] := 0;
    b[1] := 0;
    b[2] := 0;
    b[3] := 0;
    b[4] := (id / 0x100) % 0x100;
    b[5] := id % 0x100;
    b[6] := (seqnum / 0x100) % 0x100;
    b[7] := seqnum % 0x100;
    assert b[8..] == Filled(filler, msglen - 8);
    assert b[..] == b[..8] + b[8..];
  }

  /** What parseICMPEchoReply reads: type, code, identifier, sequence number and body. */
  datatype EchoFields = EchoFields(msgType: int, code: int, id: int, seqnum: int, body: seq<Byte>)

  /** parseICMPEchoReply; the source panics on fewer than 8 bytes. */
  function ParseEchoReply(b: seq<Byte>): (r: EchoFields)
    requires |b| >= 8
    ensures 0 <= r.id < 0x10000 && 0 <= r.seqnum < 0x10000
    ensures |r.body| == |b| - 8
  {
    // int(b[4])<<8 | int(b[5]): the two bytes do not overlap, so | is +.
    EchoFields(b[0], b[1], (b[4] as int) * 0x100 + b[5], (b[6] as int) * 0x100 + b[7], b[8..])
  }

  /** A 16-bit value written as two bytes, big-endian, reads back as itself. */
  lemma ByteSplit(x: int)
    ensures ((x / 0x100) % 0x100) * 0x100 + x % 0x100 == x % 0x10000
  {
    var q := x / 0x100;
    var r := x % 0x100;
    assert x == q * 0x100 + r;
    var qq := q / 0x100;
    var qr := q % 0x100;
    assert q == qq * 0x100 + qr;
    assert x == qq * 0x10000 + (qr * 0x100 + r);
    assert 0 <= qr * 0x100 + r < 0x10000;
  }

  /** Parsing an information message gives back its fields, each modulo 2^16, and the filler. */
  lemma ParseInfoMessage(id: int, seqnum: int, msglen: int, filler: seq<Byte>)
    requires msglen >= 8 && |filler| > 0
    ensures ParseEchoReply(InfoMessage(id, seqnum, msglen, filler)) ==
            EchoFields(0, 0, id % 0x10000, seqnum % 0x10000, Filled(filler, msglen - 8))
  {
    ByteSplit(id);
    ByteSplit(seqnum);
    assert InfoMessage(id, seqnum, msglen, filler)[8..] == Filled(filler, msglen - 8);
  }

  // ---------------------------------------------------------------------
  // The Internet checksum (RFC 1071)
  // ---------------------------------------------------------------------

  /** The sum of the 16-bit words before byte i, each read with its second byte high. */
  function PairSum(b: seq<Byte>, i: int): (r: nat)
    requires 0 <= i <= |b| && i % 2 == 0
    decreases i
  {
    if i == 0 then 0 else PairSum(b, i - 2) + (b[i - 1] as int) * 0x100 + b[i - 2]
  }

  /** The sum of all the words, an odd last byte counting as the low byte of a word. */
  function WordSum(b: seq<Byte>): nat
  {
    PairSum(b, |b| - |b| % 2) + (if |b| % 2 == 1 then b[|b| - 1] else 0)
  }

  /** The two folds of the source: the carries added back into the low 16 bits. */
  function Fold(s: int): int
  {
    var s1 := s / 0x10000 + s % 0x10000;
    s1 + s1 / 0x10000
  }

  /** ^s on a uint32. */
  function Not32(s: int): int
  {
    Two32 - 1 - s
  }

  /** The ones'-complement sum with end-around carry, folded until it fits 16 bits. */
  function EndAround(x: nat): (r: nat)
    decreases x
  {
    if x < 0x10000 then x else EndAround(x / 0x10000 + x % 0x10000)
  }

  /**
   * newICMPv4EchoRequest: type 8, and the complement of the folded word sum
   * of the message (taken modulo 2^32, as the uint32 accumulator keeps it)
   * xored into bytes 2 and 3, low byte first.
   */
  function V4EchoRequest(id: int, seqnum: int, msglen: int, filler: seq<Byte>): (r: seq<Byte>)
    requires msglen >= 8 && |filler| > 0
    ensures |r| == msglen
  {
    var b := InfoMessage(id, seqnum, msglen, filler)[0 := Icmp4EchoRequest];
    var s := Fold(WordSum(b) % Two32);
    b[2 := Xor8(b[2], Not32(s) % 0x100)][3 := Xor8(b[3], (Not32(s) / 0x100) % 0x100)]
  }

  lemma AddMod(a: int, w: int)
    ensures (a % Two32 + w) % Two32 == (a + w) % Two32
  {
  }

  /** The summing loop of newICMPv4EchoRequest: the words of the message added into a uint32. */
  method SumWords(b: array<Byte>) returns (s: int)
    ensures s == WordSum(b[..]) % Two32
  {
    var cklen := b.Length;
    s := 0;
    var i := 0;
    while i < cklen - 1
      invariant 0 <= i <= cklen && i % 2 == 0
      invariant s == PairSum(b[..], i) % Two32
    {
      // uint32(b[i+1])<<8 | uint32(b[i]): the two bytes do not overlap, so | is +.
      AddMod(PairSum(b[..], i), (b[i + 1] as int) * 0x100 + b[i]);
      s := (s + ((b[i + 1] as int) * 0x100 + b[i])) % Two32;
      i := i + 2;
    }
    if i != cklen {
      assert i == cklen - 1 && cklen % 2 == 1;
      AddMod(PairSum(b[..], i), b[cklen - 1]);
      s := (s + b[cklen - 1]) % Two32;
    }
  }

  /** newICMPv4EchoRequest, on the array the information message is built in. */
  method NewV4EchoRequest(id: int, seqnum: int, msglen: int, filler: seq<Byte>) returns (msg: seq<Byte>)
    requires msglen >= 8 && |filler| > 0
    ensures msg == V4EchoRequest(id, seqnum, msglen, filler)
  {
    var b := NewInfoMessage(id, seqnum, msglen, filler);
    b[0] := Icmp4EchoRequest;
    var s := SumWords(b);
    s := s / 0x10000 + s % 0x10000;
    s := s + s / 0x10000;
    b[2] := Xor8(b[2], Not32(s) % 0x100);
    b[3] := Xor8(b[3], (Not32(s) / 0x100) % 0x100);
    msg := b[..];
  }

  // ---------------------------------------------------------------------
  // What the checksum promises
  // ---------------------------------------------------------------------

  lemma {:induction false} ModPlusMultiple(y: int, q: nat)
    ensures (y + q * 0xFFFF) % 0xFFFF == y % 0xFFFF
    decreases q
  {
    if q > 0 {
      ModPlusMultiple(y, q - 1);
      assert y + q * 0xFFFF == (y + (q - 1) * 0xFFFF) + 0xFFFF;
    }
  }

  /** One end-around step shrinks the value and keeps it modulo 0xFFFF (2^16 is 1 modulo 0xFFFF). */
  lemma FoldStep(x: nat)
    requires x >= 0x10000
    ensures 0 < x / 0x10000 + x % 0x10000 < x
    ensures (x / 0x10000 + x % 0x10000) % 0xFFFF == x % 0xFFFF
  {
    var q := x / 0x10000;
    var r := x % 0x10000;
    assert x == (q + r) + q * 0xFFFF;
    ModPlusMultiple(q + r, q);
  }

  /** End-around folding keeps the value modulo 0xFFFF, fits 16 bits, and is zero only for zero. */
  lemma {:induction false} EndAroundProps(x: nat)
    ensures EndAround(x) <= 0xFFFF
    ensures EndAround(x) % 0xFFFF == x % 0xFFFF
    ensures EndAround(x) == 0 <==> x == 0
    decreases x
  {
    if x >= 0x10000 {
      FoldStep(x);
      EndAroundProps(x / 0x10000 + x % 0x10000);
    }
  }

  /** The first fold of a uint32 is at most 0x1FFFE, and leaves a 16-bit value alone. */
  lemma FirstFold(s: int)
    requires 0 <= s < Two32
    ensures s / 0x10000 + s % 0x10000 <= 0x1FFFE
    ensures s < 0x10000 ==> s / 0x10000 + s % 0x10000 == s
  {
  }

  /** A value between 2^16 and 0x1FFFE carries exactly once. */
  lemma CarryOnce(s1: int)
    requires 0x10000 <= s1 <= 0x1FFFE
    ensures s1 / 0x10000 == 1 && s1 % 0x10000 == s1 - 0x10000
    ensures (s1 + 1) % 0x10000 == s1 + 1 - 0x10000
  {
  }

  /** The source's two folds are end-around folding, for any uint32. */
  lemma FoldIsEndAround(s: int)
    requires 0 <= s < Two32
    ensures 0 <= Fold(s) < Two32 && Fold(s) % 0x10000 == EndAround(s)
  {
    var s1 := s / 0x10000 + s % 0x10000;
    FirstFold(s);
    if s1 < 0x10000 {
      assert Fold(s) == s1;
      assert EndAround(s) == s1;
    } else {
      CarryOnce(s1);
      assert Fold(s) == s1 + 1;
      assert EndAround(s) == EndAround(s1);
      assert EndAround(s1) == EndAround(1 + (s1 - 0x10000));
    }
  }

  lemma {:induction false} PairSumBound(b: seq<Byte>, i: int)
    requires 0 <= i <= |b| && i % 2 == 0
    ensures PairSum(b, i) <= (i / 2) * 0xFFFF
    decreases i
  {
    if i > 0 {
      PairSumBound(b, i - 2);
    }
  }

  /** Messages of at most 2^17 bytes sum below 2^32, so the uint32 accumulator never wraps. */
  lemma WordSumBound(b: seq<Byte>)
    requires |b| <= 0x20000
    ensures WordSum(b) < Two32
  {
    PairSumBound(b, |b| - |b| % 2);
  }

  /** Changing bytes 2 and 3 changes the word sum by the change in the word they form. */
  lemma {:induction false} PairSumReplace(b: seq<Byte>, m: seq<Byte>, i: int)
    requires |b| == |m| && 4 <= i <= |b| && i % 2 == 0
    requires forall k | 0 <= k < |b| && k != 2 && k != 3 :: m[k] == b[k]
    ensures PairSum(m, i) == PairSum(b, i) - b[2] - 0x100 * (b[3] as int) + m[2] + 0x100 * (m[3] as int)
    decreases i
  {
    if i > 4 {
      PairSumReplace(b, m, i - 2);
    } else {
      assert PairSum(m, 2) == PairSum(b, 2);
    }
  }

  lemma WordSumReplace(b: seq<Byte>, m: seq<Byte>)
    requires |b| == |m| && 4 <= |b|
    requires forall k | 0 <= k < |b| && k != 2 && k != 3 :: m[k] == b[k]
    ensures WordSum(m) == WordSum(b) - b[2] - 0x100 * (b[3] as int) + m[2] + 0x100 * (m[3] as int)
  {
    PairSumReplace(b, m, |b| - |b| % 2);
  }

  /** The bytes the source writes hold the complement of the low 16 bits of s. */
  lemma ChecksumBytes(s: int)
    requires 0 <= s < Two32
    ensures ((Not32(s) / 0x100) % 0x100) * 0x100 + Not32(s) % 0x100 == 0xFFFF - s % 0x10000
  {
    ByteSplit(Not32(s));
    var q := s / 0x10000;
    var r := s % 0x10000;
    assert Not32(s) == (0xFFFF - q) * 0x10000 + (0xFFFF - r);
  }

  /** A sum and the complement of its folded form add up to all ones. */
  lemma OnesComplementCloses(x: nat)
    ensures EndAround(x) <= 0xFFFF
    ensures EndAround(x + 0xFFFF - EndAround(x)) == 0xFFFF
  {
    EndAroundProps(x);
    var e := EndAround(x);
    var t := x + 0xFFFF - e;
    var k := x / 0xFFFF - e / 0xFFFF + 1;
    assert x == (x / 0xFFFF) * 0xFFFF + x % 0xFFFF;
    assert e == (e / 0xFFFF) * 0xFFFF + x % 0xFFFF;
    assert t == k * 0xFFFF;
    ModPlusMultiple(0, k);
    EndAroundProps(t);
  }

  lemma Xor8Zero(v: Byte)
    ensures Xor8(0, v) == v
  {
  }

  /** The arithmetic of the checksum, on any message whose bytes 2 and 3 start at zero. */
  lemma ChecksumCloses(b: seq<Byte>, m: seq<Byte>)
    requires |b| == |m| && 4 <= |b| <= 0x20000 && b[2] == 0 && b[3] == 0
    requires forall k | 0 <= k < |b| && k != 2 && k != 3 :: m[k] == b[k]
    requires var s := Fold(WordSum(b) % Two32);
             m[2] == Not32(s) % 0x100 && m[3] == (Not32(s) / 0x100) % 0x100
    ensures EndAround(WordSum(m)) == 0xFFFF
  {
    var sum := WordSum(b);
    WordSumBound(b);
    assert sum % Two32 == sum;
    var s := Fold(sum);
    FoldIsEndAround(sum);
    var e := EndAround(sum);
    assert s % 0x10000 == e;
    ChecksumBytes(s);
    assert (m[3] as int) * 0x100 + m[2] == 0xFFFF - e;
    WordSumReplace(b, m);
    assert WordSum(m) == sum + 0xFFFF - e;
    OnesComplementCloses(sum);
  }

  /**
   * RFC 1071: the ones'-complement sum of the finished v4 request, checksum
   * included, is all ones -- as long as the uint32 accumulator does not wrap,
   * which holds for messages of at most 2^17 bytes.
   */
  lemma V4ChecksumVerifies(id: int, seqnum: int, msglen: int, filler: seq<Byte>)
    requires 8 <= msglen <= 0x20000 && |filler| > 0
    ensures EndAround(WordSum(V4EchoRequest(id, seqnum, msglen, filler))) == 0xFFFF
  {
    var b := InfoMessage(id, seqnum, msglen, filler)[0 := Icmp4EchoRequest];
    var s := Fold(WordSum(b) % Two32);
    Xor8Zero(Not32(s) % 0x100);
    Xor8Zero((Not32(s) / 0x100) % 0x100);
    ChecksumCloses(b, V4EchoRequest(id, seqnum, msglen, filler));
  }

  /** The v4 request reads back as an echo request (type 8, code 0) with the message's fields. */
  lemma V4Fields(id: int, seqnum: int, msglen: int, filler: seq<Byte>)
    requires msglen >= 8 && |filler| > 0
    ensures ParseEchoReply(V4EchoRequest(id, seqnum, msglen, filler)) ==
            EchoFields(Icmp4EchoRequest, 0, id % 0x10000, seqnum % 0x10000, Filled(filler, msglen - 8))
  {
    ParseInfoMessage(id, seqnum, msglen, filler);
    assert V4EchoRequest(id, seqnum, msglen, filler)[8..] == InfoMessage(id, seqnum, msglen, filler)[8..];
  }

  // ---------------------------------------------------------------------
  // The v6 request and the dispatch on the address family
  // ---------------------------------------------------------------------

  /** newICMPv6EchoRequest: type 128; the checksum is left zero for the kernel to fill. */
  function V6EchoRequest(id: int, seqnum: int, msglen: int, filler: seq<Byte>): (r: seq<Byte>)
    requires msglen >= 8 && |filler| > 0
    ensures |r| == msglen
  {
    InfoMessage(id, seqnum, msglen, filler)[0 := Icmp6EchoRequest]
  }

  method NewV6EchoRequest(id: int, seqnum: int, msglen: int, filler: seq<Byte>) returns (msg: seq<Byte>)
    requires msglen >= 8 && |filler| > 0
    ensures msg == V6EchoRequest(id, seqnum, msglen, filler)
  {
    var b := NewInfoMessage(id, seqnum, msglen, filler);
    b[0] := Icmp6EchoRequest;
    msg := b[..];
  }

  /** The v6 request reads back as type 128, code 0, checksum zero, with the message's fields. */
  lemma V6Fields(id: int, seqnum: int, msglen: int, filler: seq<Byte>)
    requires msglen >= 8 && |filler| > 0
    ensures V6EchoRequest(id, seqnum, msglen, filler)[2] == 0 && V6EchoRequest(id, seqnum, msglen, filler)[3] == 0
    ensures ParseEchoReply(V6EchoRequest(id, seqnum, msglen, filler)) ==
            EchoFields(Icmp6EchoRequest, 0, id % 0x10000, seqnum % 0x10000, Filled(filler, msglen - 8))
  {
    ParseInfoMessage(id, seqnum, msglen, filler);
    assert V6EchoRequest(id, seqnum, msglen, filler)[8..] == InfoMessage(id, seqnum, msglen, filler)[8..];
  }

  /** The request for an address family: the v6 builder exactly for AF_INET6. */
  function EchoRequest(family: int, id: int, seqnum: int, msglen: int, filler: seq<Byte>): (r: seq<Byte>)
    requires msglen >= 8 && |filler| > 0
    ensures family == AfInet6 ==> r == V6EchoRequest(id, seqnum, msglen, filler)
    ensures family != AfInet6 ==> r == V4EchoRequest(id, seqnum, msglen, filler)
  {
    if family == AfInet6 then V6EchoRequest(id, seqnum, msglen, filler) else V4EchoRequest(id, seqnum, msglen, filler)
  }

  /** newICMPEchoRequest. */
  method NewEchoRequest(family: int, id: int, seqnum: int, msglen: int, filler: seq<Byte>) returns (msg: seq<Byte>)
    requires msglen >= 8 && |filler| > 0
    ensures msg == EchoRequest(family, id, seqnum, msglen, filler)
    ensures msg[0] == (if family == AfInet6 then Icmp6EchoRequest else Icmp4EchoRequest)
  {
    if family == AfInet6 {
      msg := NewV6EchoRequest(id, seqnum, msglen, filler);
      return;
    }
    msg := NewV4EchoRequest(id, seqnum, msglen, filler);
  }

  // ---------------------------------------------------------------------
  // Address families and the ICMP endpoint
  // ---------------------------------------------------------------------

  /** net.IP.To4: a 4-byte address, or the last four bytes of an IPv4-mapped 16-byte one. */
  function To4(ip: seq<Byte>): (r: Option<seq<Byte>>)
    ensures r.Some? <==> |ip| == 4 || (|ip| == 16 && ip[..12] == [0, 0, 0, 0, 0, 0, 0, 0, 0, 0, 0xff, 0xff])
    ensures r.Some? ==> |r.value| == 4 && r.value == ip[|ip| - 4..]
  {
    if |ip| == 4 then Some(ip)
    else if |ip| == 16 && ip[..12] == [0, 0, 0, 0, 0, 0, 0, 0, 0, 0, 0xff, 0xff] then Some(ip[12..])
    else None
  }

  /** family: AF_INET for no address, a short one or an IPv4-mapped one; AF_INET6 otherwise. */
  function Family(a: Option<seq<Byte>>): (r: int)
    ensures r == AfInet || r == AfInet6
    ensures r == AfInet6 <==> a.Some? && |a.value| > 4 && To4(a.value).None?
  {
    if a.None? || |a.value| <= 4 then AfInet
    else if To4(a.value).Some? then AfInet
    else AfInet6
  }

  /** The family NewICMP gives a network name, if it accepts the name. */
  function NetworkFamily(network: string): (r: Option<int>)
    ensures r.Some? <==> network == "ip4:icmp" || network == "ip6:icmp"
    ensures r == Some(AfInet6) <==> network == "ip6:icmp"
  {
    if network == "ip4:icmp" then Some(AfInet)
    else if network == "ip6:icmp" then Some(AfInet6)
    else None
  }

  /** %q, without the escaping of special characters. */
  function Quote(s: string): string
  {
    "\"" + s + "\""
  }

  /** The sequence number a new endpoint starts from. */
  const FirstSeqnum: int := 61455

  /** The request Send writes: its identifier and sequence number, the header and one copy of the filler. */
  function SendRequest(family: int, id: int, seqnum: int, filler: seq<Byte>): (r: seq<Byte>)
    requires |filler| > 0
    ensures |r| == 8 + |filler|
  {
    EchoRequest(family, id, seqnum, 8 + |filler|, filler)
  }

  /** Send's request reads back with the endpoint's identifier, the new sequence number and the filler. */
  lemma SendRequestFields(family: int, id: int, seqnum: int, filler: seq<Byte>)
    requires |filler| > 0
    ensures var f := ParseEchoReply(SendRequest(family, id, seqnum, filler));
            f.id == id % 0x10000 && f.seqnum == seqnum % 0x10000 && f.body == filler && f.code == 0
  {
    assert Filled(filler, |filler|) == filler;
    if family == AfInet6 {
      V6Fields(id, seqnum, 8 + |filler|, filler);
    } else {
      V4Fields(id, seqnum, 8 + |filler|, filler);
    }
  }

  /**
   * The request as Send builds it in the source, which passes
   * (family, id, seqnum, filler) to newRequest(id, seqnum, msglen, filler).
   */
  function SendRequestAsWritten(family: int, id: int, seqnum: int, filler: seq<Byte>): (r: seq<Byte>)
    requires seqnum >= 8 && |filler| > 0
    ensures |r| == seqnum
  {
    EchoRequest(family, family, id, seqnum, filler)
  }

  /** As written, the identifier field carries the family and the sequence number field the identifier. */
  lemma SendAsWrittenShiftsFields(family: int, id: int, seqnum: int, filler: seq<Byte>)
    requires seqnum >= 8 && |filler| > 0
    ensures var f := ParseEchoReply(SendRequestAsWritten(family, id, seqnum, filler));
            f.id == family % 0x10000 && f.seqnum == id % 0x10000 && |f.body| == seqnum - 8
  {
    if family == AfInet6 {
      V6Fields(family, id, seqnum, filler);
    } else {
      V4Fields(family, id, seqnum, filler);
    }
  }

  /** The first v4 request of an endpoint with identifier 1234: its identifier field reads 2, not 1234. */
  lemma SendAsWrittenExample()
    ensures ParseEchoReply(SendRequestAsWritten(AfInet, 1234, FirstSeqnum + 1, [0x41])).id == 2
    ensures |SendRequestAsWritten(AfInet, 1234, FirstSeqnum + 1, [0x41])| == 61456
  {
    SendAsWrittenShiftsFields(AfInet, 1234, FirstSeqnum + 1, [0x41]);
  }

  /** The ICMP endpoint; the packet connection is not modelled, only what was written to it. */
  class Icmp {
    const family: int
    const network: string
    var seqnum: int
    const id: int
    const echo: seq<Byte>
    /** The requests written, in order. */
    var written: seq<seq<Byte>>

    constructor (family: int, network: string, id: int, echo: seq<Byte>)
      ensures this.family == family && this.network == network && this.id == id && this.echo == echo
      ensures seqnum == FirstSeqnum && written == []
    {
      this.family := family;
      this.network := network;
      this.id := id;
      this.echo := echo;
      seqnum := FirstSeqnum;
      written := [];
    }

    /**
     * Send: the next sequence number, the given filler or else the
     * endpoint's, the request built for the endpoint's family, then the
     * resolve and write results (inputs) decide the error.
     */
    method Send(raddr: string, echo: Option<seq<Byte>>, resolveErr: Option<string>, writeErr: Option<string>)
        returns (err: Option<string>)
      requires if echo.Some? then |echo.value| > 0 else |this.echo| > 0
      modifies this
      ensures seqnum == old(seqnum) + 1
      ensures resolveErr.Some? ==>
                err == Some("ResolveIPAddr(" + Quote(network) + ", " + Quote(raddr) + ") failed: " + resolveErr.value) &&
                written == old(written)
      ensures resolveErr.None? && writeErr.Some? ==> err == Some("WriteTo failed: " + writeErr.value) && written == old(written)
      ensures resolveErr.None? && writeErr.None? ==>
                err.None? &&
                written == old(written) + [SendRequest(family, id, seqnum, if echo.Some? then echo.value else this.echo)]
    {
      seqnum := seqnum + 1;
      var filler := this.echo;
      if echo.Some? {
        filler := echo.value;
      }
      var bytes := NewEchoRequest(family, id, seqnum, 8 + |filler|, filler);
      if resolveErr.Some? {
        return Some("ResolveIPAddr(" + Quote(network) + ", " + Quote(raddr) + ") failed: " + resolveErr.value);
      }
      if writeErr.Some? {
        return Some("WriteTo failed: " + writeErr.value);
      }
      written := written + [bytes];
      return None;
    }
  }

  /**
   * NewICMP: "ip4:icmp" and "ip6:icmp" only; the packet listener's error
   * (an input) fails it; the endpoint's identifier is the process id's
   * low 16 bits.
   */
  method NewIcmp(network: string, laddr: string, echo: seq<Byte>, listenErr: Option<string>, pid: nat)
      returns (icmp: Icmp?, err: Option<string>)
    ensures NetworkFamily(network).None? ==> icmp == null && err == Some("Unsupported network - " + network)
    ensures NetworkFamily(network).Some? && listenErr.Some? ==>
              icmp == null && err == Some("ListenPacket(" + Quote(network) + ", " + Quote(laddr) + ") failed: " + listenErr.value)
    ensures NetworkFamily(network).Some? && listenErr.None? ==>
              err.None? && icmp != null && fresh(icmp) &&
              icmp.family == NetworkFamily(network).value && icmp.network == network &&
              icmp.id == pid % 0x10000 && icmp.echo == echo && icmp.seqnum == FirstSeqnum && icmp.written == []
  {
    var family := AfInet;
    if network == "ip4:icmp" {
      family := AfInet;
    } else if network == "ip6:icmp" {
      family := AfInet6;
    } else {
      return null, Some("Unsupported network - " + network);
    }
    if listenErr.Some? {
      return null, Some("ListenPacket(" + Quote(network) + ", " + Quote(laddr) + ") failed: " + listenErr.value);
    }
    icmp := new Icmp(family, network, pid % 0x10000, echo);
    err := None;
  }
}
