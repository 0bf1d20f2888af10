// The wire protocol: in-memory integers, the 16-byte header, packets, and the
// reusable packet buffer (include/spraybus/networking/protocol.hpp).

module Wrappers {
  datatype Option<+T> = None | Some(value: T)

  // A call that either returns or throws.
  datatype Result<+T> = Returned(value: T) | Thrown
}

module Protocol {
  const TWO16: nat := 0x1_0000
  const TWO32: nat := 0x1_0000_0000
  const TWO64: nat := 0x1_0000_0000_0000_0000

  type Byte = x: int | 0 <= x < 0x100
  type Bytes = seq<Byte>
  type U16 = x: int | 0 <= x < TWO16
  type U32 = x: int | 0 <= x < TWO32

  // uint64_t: topic keys and client ids
  type Key = x: int | 0 <= x < TWO64

  // uint64_t increment, wrapping
  function Inc(k: Key): Key { (k + 1) % TWO64 }

  // ---------- integers in memory ----------

  datatype Endian = Little | Big

  function Pow256(n: nat): (p: nat)
    ensures p > 0
  {
    if n == 0 then 1 else 256 * Pow256(n - 1)
  }

  function BigBytes(n: nat, v: nat): (s: Bytes)
    ensures |s| == n
  {
    if n == 0 then [] else BigBytes(n - 1, v / 256) + [v % 256]
  }

  function LittleBytes(n: nat, v: nat): (s: Bytes)
    ensures |s| == n
  {
    if n == 0 then [] else [v % 256] + LittleBytes(n - 1, v / 256)
  }

  function BigValue(s: Bytes): (v: nat)
    ensures v < Pow256(|s|)
  {
    if s == [] then 0 else 256 * BigValue(s[..|s| - 1]) + s[|s| - 1]
  }

  function LittleValue(s: Bytes): (v: nat)
    ensures v < Pow256(|s|)
  {
    if s == [] then 0 else s[0] + 256 * LittleValue(s[1..])
  }

  // The n bytes a host keeps in memory for the integer v, and back.
  function Store(e: Endian, n: nat, v: nat): (s: Bytes)
    ensures |s| == n
  {
    if e.Big? then BigBytes(n, v) else LittleBytes(n, v)
  }

  function Load(e: Endian, s: Bytes): (v: nat)
    ensures v < Pow256(|s|)
  {
    if e.Big? then BigValue(s) else LittleValue(s)
  }

  lemma {:induction false} BigRoundTrip(n: nat, v: nat)
    requires v < Pow256(n)
    ensures BigValue(BigBytes(n, v)) == v
  {
    if n > 0 {
      BigRoundTrip(n - 1, v / 256);
      var s := BigBytes(n, v);
      assert s[..n - 1] == BigBytes(n - 1, v / 256);
    }
  }

  lemma {:induction false} LittleRoundTrip(n: nat, v: nat)
    requires v < Pow256(n)
    ensures LittleValue(LittleBytes(n, v)) == v
  {
    if n > 0 {
      LittleRoundTrip(n - 1, v / 256);
      var s := LittleBytes(n, v);
      assert s[1..] == LittleBytes(n - 1, v / 256);
    }
  }

  lemma {:induction false} BigRestore(s: Bytes)
    ensures BigBytes(|s|, BigValue(s)) == s
  {
    if s != [] {
      var front, last := s[..|s| - 1], s[|s| - 1];
      BigRestore(front);
      assert BigValue(s) / 256 == BigValue(front) && BigValue(s) % 256 == last;
      assert s == front + [last];
    }
  }

  lemma {:induction false} LittleRestore(s: Bytes)
    ensures LittleBytes(|s|, LittleValue(s)) == s
  {
    if s != [] {
      LittleRestore(s[1..]);
      assert LittleValue(s) / 256 == LittleValue(s[1..]) && LittleValue(s) % 256 == s[0];
      assert s == [s[0]] + s[1..];
    }
  }

  lemma StoreLoad(e: Endian, n: nat, v: nat)
    requires v < Pow256(n)
    ensures Load(e, Store(e, n, v)) == v
  {
    BigRoundTrip(n, v);
    LittleRoundTrip(n, v);
  }

  lemma LoadStore(e: Endian, s: Bytes)
    ensures Store(e, |s|, Load(e, s)) == s
  {
    BigRestore(s);
    LittleRestore(s);
  }

  lemma Pow256Values()
    ensures Pow256(2) == TWO16 && Pow256(4) == TWO32 && Pow256(8) == TWO64
  {
    assert Pow256(1) == 256;
    assert Pow256(2) == TWO16;
    assert Pow256(3) == 256 * TWO16;
    assert Pow256(4) == TWO32;
    assert Pow256(5) == 256 * TWO32;
    assert Pow256(6) == TWO16 * TWO32;
    assert Pow256(7) == 256 * (TWO16 * TWO32);
  }

  // ---------- the byte swap applied to topic keys ----------

  // The n low bytes of v in the opposite order, by shifts.
  function SwapBytes(n: nat, v: nat): (r: nat)
    ensures r < Pow256(n)
  {
    if n == 0 then 0
    else
      var low := SwapBytes(n - 1, v / 256);
      MulBound(v % 256, Pow256(n - 1), low);
      v % 256 * Pow256(n - 1) + low
  }

  lemma MulBound(b: Byte, p: nat, low: nat)
    requires low < p
    ensures b * p + low < 256 * p
  {
    assert b * p <= 255 * p by { assert (255 - b) * p >= 0; }
  }

  lemma {:induction false} LittleBytesTop(n: nat, low: nat, b: Byte)
    requires low < Pow256(n)
    ensures LittleBytes(n + 1, b * Pow256(n) + low) == LittleBytes(n, low) + [b]
  {
    var v := b * Pow256(n) + low;
    if n == 0 {
      assert LittleBytes(1, v) == [v % 256] + LittleBytes(0, v / 256);
    } else {
      var q := b * Pow256(n - 1);
      assert b * Pow256(n) == 256 * q by {
        assert b * (256 * Pow256(n - 1)) == 256 * (b * Pow256(n - 1));
      }
      assert v % 256 == low % 256 && v / 256 == q + low / 256;
      LittleBytesTop(n - 1, low / 256, b);
      assert LittleBytes(n, low) == [low % 256] + LittleBytes(n - 1, low / 256);
    }
  }

  // Storing the swapped value on a little-endian host lays out the bytes big-endian first.
  lemma {:induction false} SwapStoresBig(n: nat, v: nat)
    ensures LittleBytes(n, SwapBytes(n, v)) == BigBytes(n, v)
  {
    if n > 0 {
      SwapStoresBig(n - 1, v / 256);
      LittleBytesTop(n - 1, SwapBytes(n - 1, v / 256), v % 256);
    }
  }

  function HostToNetwork64(e: Endian, v: Key): Key
  {
    Pow256Values();
    if e.Little? then SwapBytes(8, v) else v
  }

  function NetworkToHost64(e: Endian, v: Key): Key
  {
    HostToNetwork64(e, v)
  }

  lemma NetworkOrderInMemory(e: Endian, v: Key)
    ensures Store(e, 8, HostToNetwork64(e, v)) == BigBytes(8, v)
  {
    SwapStoresBig(8, v);
  }

  function Reversed(s: Bytes): (r: Bytes)
    ensures |r| == |s|
    ensures forall i :: 0 <= i < |s| ==> r[i] == s[|s| - 1 - i]
  {
    if s == [] then [] else Reversed(s[1..]) + [s[0]]
  }

  lemma {:induction false} BigLittleMirror(n: nat, v: nat)
    ensures BigBytes(n, v) == Reversed(LittleBytes(n, v))
  {
    if n > 0 {
      BigLittleMirror(n - 1, v / 256);
      assert LittleBytes(n, v)[1..] == LittleBytes(n - 1, v / 256);
    }
  }

  // Swapping twice is the identity, so the accessor undoes the factory.
  lemma SwapTwice(n: nat, v: nat)
    requires v < Pow256(n)
    ensures SwapBytes(n, SwapBytes(n, v)) == v
  {
    var w := SwapBytes(n, v);
    calc {
      LittleBytes(n, SwapBytes(n, w));
      { SwapStoresBig(n, w); }
      BigBytes(n, w);
      { BigLittleMirror(n, w); }
      Reversed(LittleBytes(n, w));
      { SwapStoresBig(n, v); }
      Reversed(BigBytes(n, v));
      { BigLittleMirror(n, v); }
      Reversed(Reversed(LittleBytes(n, v)));
      LittleBytes(n, v);
    }
    LittleRoundTrip(n, SwapBytes(n, w));
    LittleRoundTrip(n, v);
  }

  lemma ByteOrderRoundTrip(e: Endian, v: Key)
    ensures NetworkToHost64(e, HostToNetwork64(e, v)) == v
  {
    Pow256Values();
    SwapTwice(8, v);
  }

  // ---------- headers and packets ----------

  const HEADER_SIZE: nat := 16
  const VERSION_1: U16 := 1

  // Origin
  const FROM_CLIENT: Byte := 1
  const FROM_SERVER: Byte := 2

  // Type
  const TOPIC_REQUEST: Byte := 1
  const TOPIC_RESPONSE: Byte := 2
  const PUBLISH: Byte := 3
  const SUBSCRIBE: Byte := 4
  const UNSUBSCRIBE: Byte := 5
  const FANOUT: Byte := 6

  // The packed struct; storedKey is m_topic_key_, the key after host_to_network64.
  datatype Header = Header(reserved: U32, version: U16, origin: Byte, kind: Byte, storedKey: Key)

  function MakeHeader(e: Endian, origin: Byte, kind: Byte, key: Key): Header
  {
    Header(0, VERSION_1, origin, kind, HostToNetwork64(e, key))
  }

  function TopicKey(e: Endian, h: Header): Key { NetworkToHost64(e, h.storedKey) }

  // The header's object representation on a host.
  function HeaderBytes(e: Endian, h: Header): (s: Bytes)
    ensures |s| == HEADER_SIZE
  {
    Store(e, 4, h.reserved) + Store(e, 2, h.version) + [h.origin, h.kind] + Store(e, 8, h.storedKey)
  }

  function ParseHeader(e: Endian, data: Bytes): Header
    requires |data| >= HEADER_SIZE
  {
    Pow256Values();
    Header(Load(e, data[0..4]), Load(e, data[4..6]), data[6], data[7], Load(e, data[8..16]))
  }

  function Construct(e: Endian, h: Header, payload: Bytes): Bytes
  {
    HeaderBytes(e, h) + payload
  }

  function PacketOf(e: Endian, origin: Byte, kind: Byte, key: Key, payload: Bytes): Bytes
  {
    Construct(e, MakeHeader(e, origin, kind, key), payload)
  }

  // What any reader sees in a packet of at least 16 bytes.
  predicate HasHeader(m: Bytes) { |m| >= HEADER_SIZE }

  function KindOf(m: Bytes): Byte
    requires HasHeader(m)
  {
    m[7]
  }

  // The key as a big-endian number in bytes 8..15.
  function KeyOf(m: Bytes): Key
    requires HasHeader(m)
  {
    Pow256Values();
    BigValue(m[8..16])
  }

  function PayloadOf(m: Bytes): Bytes
    requires HasHeader(m)
  {
    m[HEADER_SIZE..]
  }

  // Parsing what was built returns the header and the payload, for every header.
  lemma ParseConstructed(e: Endian, h: Header, payload: Bytes)
    ensures HasHeader(Construct(e, h, payload))
    ensures ParseHeader(e, Construct(e, h, payload)) == h
    ensures PayloadOf(Construct(e, h, payload)) == payload
  {
    var m := Construct(e, h, payload);
    Pow256Values();
    assert m[0..4] == Store(e, 4, h.reserved);
    assert m[4..6] == Store(e, 2, h.version);
    assert m[8..16] == Store(e, 8, h.storedKey);
    StoreLoad(e, 4, h.reserved);
    StoreLoad(e, 2, h.version);
    StoreLoad(e, 8, h.storedKey);
  }

  // Rebuilding what was parsed returns the same bytes, for every packet with a header.
  lemma ConstructParsed(e: Endian, m: Bytes)
    requires HasHeader(m)
    ensures Construct(e, ParseHeader(e, m), PayloadOf(m)) == m
  {
    LoadStore(e, m[0..4]);
    LoadStore(e, m[4..6]);
    LoadStore(e, m[8..16]);
    assert m == m[0..4] + m[4..6] + [m[6], m[7]] + m[8..16] + m[16..];
  }

  // A little-endian load followed by the swap is a big-endian load.
  lemma SwappedLoad(s: Bytes)
    ensures SwapBytes(|s|, LittleValue(s)) == BigValue(s)
  {
    var n, stored := |s|, LittleValue(s);
    var v := SwapBytes(n, stored);
    calc {
      BigBytes(n, v);
      { BigLittleMirror(n, v); }
      Reversed(LittleBytes(n, v));
      { SwapStoresBig(n, stored); }
      Reversed(BigBytes(n, stored));
      { BigLittleMirror(n, stored); }
      Reversed(Reversed(LittleBytes(n, stored)));
      { LittleRestore(s); }
      Reversed(Reversed(s));
      s;
    }
    BigRoundTrip(n, v);
  }

  // On either kind of host the key accessor reads bytes 8..15 as a big-endian number.
  lemma KeyReadsBigEndian(e: Endian, m: Bytes)
    requires HasHeader(m)
    ensures TopicKey(e, ParseHeader(e, m)) == KeyOf(m)
    ensures ParseHeader(e, m).kind == KindOf(m)
  {
    Pow256Values();
    SwappedLoad(m[8..16]);
  }

  // A packet built on a host of one byte order is read the same on a host of any byte order.
  lemma PacketFields(e: Endian, origin: Byte, kind: Byte, key: Key, payload: Bytes)
    ensures var m := PacketOf(e, origin, kind, key, payload);
            HasHeader(m) && KindOf(m) == kind && KeyOf(m) == key && PayloadOf(m) == payload
            && m[8..16] == BigBytes(8, key)
  {
    var m := PacketOf(e, origin, kind, key, payload);
    Pow256Values();
    NetworkOrderInMemory(e, key);
    assert m[8..16] == BigBytes(8, key);
    BigRoundTrip(8, key);
  }

  // The bytes of a packet: four of zero, the version in the order of the host, the
  // origin, the type, the key big end first, and the payload.
  lemma PacketLayout(e: Endian, origin: Byte, kind: Byte, key: Key, payload: Bytes)
    ensures PacketOf(e, origin, kind, key, payload)
         == [0, 0, 0, 0] + (if e.Big? then [0, 1] else [1, 0]) + [origin, kind] + BigBytes(8, key) + payload
  {
    NetworkOrderInMemory(e, key);
    SmallStore(e);
  }

  lemma SmallStore(e: Endian)
    ensures Store(e, 4, 0) == [0, 0, 0, 0] && Store(e, 2, 1) == if e.Big? then [0, 1] else [1, 0]
  {
    if e.Big? {
      assert BigBytes(0, 0) == [] && BigBytes(1, 0) == [0] && BigBytes(2, 0) == [0, 0] && BigBytes(3, 0) == [0, 0, 0];
      assert BigBytes(2, 1) == [0, 1];
    } else {
      assert LittleBytes(0, 0) == [] && LittleBytes(1, 0) == [0] && LittleBytes(2, 0) == [0, 0];
      assert LittleBytes(3, 0) == [0, 0, 0];
      assert LittleBytes(2, 1) == [1, 0];
    }
  }
}
