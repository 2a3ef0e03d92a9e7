/** The relay between the local game and the LAN (network_bridge.c): the
    bridge tags every local datagram with its machine id before
    broadcasting it, drops broadcasts that mention its own id, and hands
    the payload of the others back to the local game. Sockets and
    `select` are left out; a datagram is the text the socket call
    returns. */
module Bridge {
  import opened Base
  import opened Text

  /** `BUFFER_SIZE`: each receive reads at most one byte less. */
  const BufferSize := 65507
  /** The size of `machine_id`. */
  const IdBufferSize := 37
  /** The room the tagged buffer has beyond `BUFFER_SIZE`. */
  const TagRoom := 100
  /** The largest payload of one IPv4 UDP datagram: 65535 bytes less the
      20-byte IP header and the 8-byte UDP header. `sendto` refuses a longer
      one with EMSGSIZE. */
  const MaxDatagram := 65507

  newtype u64 = x: int | 0 <= x < 0x1_0000_0000_0000_0000
  newtype u32 = x: int | 0 <= x < 0x1_0000_0000

  // ---------------------------------------------------------------------
  // Machine id

  function HexDigit(d: nat): (c: char)
    requires d < 16
    ensures c != '"' && c != '\0' && c != '}' && c != '-'
  {
    "0123456789abcdef"[d]
  }

  /** `%x` / `%lx`: lower-case hex digits without leading zeros. */
  function Hex(n: nat): (s: string)
    ensures |s| >= 1
    ensures forall i :: 0 <= i < |s| ==> s[i] != '"' && s[i] != '\0' && s[i] != '-'
  {
    if n < 16 then [HexDigit(n)] else Hex(n / 16) + [HexDigit(n % 16)]
  }

  /** Distinct digits print differently. */
  lemma HexDigitInjective(d: nat, e: nat)
    requires d < 16 && e < 16 && HexDigit(d) == HexDigit(e)
    ensures d == e
  {
  }

  /** `%x` prints distinct numbers differently: the last digit fixes the
      remainder and the rest fixes the quotient. */
  lemma {:induction false} HexInjective(n: nat, m: nat)
    requires Hex(n) == Hex(m)
    ensures n == m
    decreases n
  {
    if n < 16 && m < 16 {
      HexDigitInjective(n, m);
    } else if n < 16 || m < 16 {
      // one prints one digit and the other at least two
    } else {
      var a, b := Hex(n / 16), Hex(m / 16);
      assert Hex(n) == a + [HexDigit(n % 16)] && Hex(m) == b + [HexDigit(m % 16)];
      assert HexDigit(n % 16) == Hex(n)[|Hex(n)| - 1] == Hex(m)[|Hex(m)| - 1] == HexDigit(m % 16);
      HexDigitInjective(n % 16, m % 16);
      assert a == Hex(n)[..|Hex(n)| - 1] == Hex(m)[..|Hex(m)| - 1] == b;
      HexInjective(n / 16, m / 16);
    }
  }

  function Pow16(k: nat): nat {
    if k == 0 then 1 else 16 * Pow16(k - 1)
  }

  /** A number below 16^k prints in at most k hex digits. */
  lemma {:induction false} HexLength(n: nat, k: nat)
    requires k >= 1 && n < Pow16(k)
    ensures |Hex(n)| <= k
    decreases k
  {
    if n >= 16 {
      assert n / 16 < Pow16(k - 1);
      HexLength(n / 16, k - 1);
    }
  }

  lemma Pow16Bounds()
    ensures Pow16(8) == 0x1_0000_0000 && Pow16(16) == 0x1_0000_0000_0000_0000
  {
    assert Pow16(2) == 0x100;
    assert Pow16(4) == 0x1_0000;
    assert Pow16(6) == 0x100_0000;
    assert Pow16(8) == 0x1_0000_0000;
    assert Pow16(10) == 0x100_0000_0000;
    assert Pow16(12) == 0x1_0000_0000_0000;
    assert Pow16(14) == 0x100_0000_0000_0000;
  }

  const IdPrefix := "bridge-"

  /** The characters a machine id may hold. */
  predicate IdShaped(id: string) {
    StartsWith(id, IdPrefix) && forall i :: 0 <= i < |id| ==> id[i] != '"' && id[i] != '\0'
  }

  /** `generate_machine_id`: the time and a random number, both in hex.
      The time is an `unsigned long` and `rand()` is printed as an
      `unsigned int`, so the id needs at most 7 + 16 + 1 + 8 characters and
      fits its buffer with the terminator. */
  function MachineId(time: u64, rand: u32): (id: string)
    ensures IdShaped(id)
    ensures |id| <= 32 && |id| < IdBufferSize
  {
    Pow16Bounds();
    HexLength(time as nat, 16);
    HexLength(rand as nat, 8);
    IdPrefix + Hex(time as nat) + "-" + Hex(rand as nat)
  }

  /** One C library's `rand()` right after `srand(seed)`: its first value
      for that seed. */
  type FirstRand = u32 -> u32

  /** `generate_machine_id`: the generator is seeded with the current
      second, cut to an `unsigned int`, just before `rand()` is called, so
      the id is a function of the second and of the C library. */
  function GenerateMachineId(now: u64, rand: FirstRand): (id: string)
    ensures IdShaped(id) && |id| <= 32
    ensures StartsWith(id, IdPrefix + Hex(now as nat) + "-")
  {
    MachineId(now, rand((now as int % 0x1_0000_0000) as u32))
  }

  // ---------------------------------------------------------------------
  // C strings and datagrams

  /** What `%s`, `strlen` and `strstr` see: the text before the first NUL. */
  function CStr(s: string): (r: string)
    ensures '\0' !in r && |r| <= |s|
    ensures '\0' !in s ==> r == s
  {
    match IndexOf(s, '\0')
    case None => s
    case Some(i) => s[..i]
  }

  /** `recvfrom` into a buffer of `BUFFER_SIZE - 1` bytes: a longer datagram
      is cut. */
  function Recv(d: string): (r: string)
    ensures |r| <= BufferSize - 1
    ensures |d| <= BufferSize - 1 ==> r == d
  {
    if |d| <= BufferSize - 1 then d else d[..BufferSize - 1]
  }

  // ---------------------------------------------------------------------
  // Wrap and unwrap

  const WrapHead := "{\"bridge_id\":\""
  const DataKey := "\"data\":"

  /** The tag put around a local datagram. */
  function Wrap(id: string, payload: string): (s: string)
    ensures |s| == |payload| + |id| + 24
  {
    WrapHead + id + "\"," + DataKey + payload + "}"
  }

  /** `snprintf` into the tagged buffer: at most its size less one. */
  function Truncate(s: string, n: nat): (r: string)
    ensures |r| <= n
    ensures |s| <= n ==> r == s
  {
    if |s| <= n then s else s[..n]
  }

  /** The bridge: its id and whether it runs (`--run`). */
  datatype Relay = Relay(id: string, runMode: bool)

  /** A datagram from the local game: what is broadcast, if anything. The
      result of `sendto` is not checked, so a tagged datagram longer than
      one IPv4 datagram is silently not sent. */
  function FromLocal(b: Relay, d: string): (r: Option<string>)
    ensures r.Some? ==> b.runMode && |d| > 0 && |r.value| <= MaxDatagram
    ensures |b.id| <= 32 ==>
              (r.Some? <==> b.runMode && |d| > 0 && |Wrap(b.id, CStr(Recv(d)))| <= MaxDatagram)
    ensures r.Some? && |b.id| <= 32 ==> r.value == Wrap(b.id, CStr(Recv(d)))
  {
    if |d| == 0 || !b.runMode then None
    else
      var tagged := Truncate(Wrap(b.id, CStr(Recv(d))), BufferSize + TagRoom - 1);
      if |tagged| > MaxDatagram then None else Some(tagged)
  }

  /** The payload of a tagged datagram: after the first `"data":`, up to
      the last '}' if there is one. */
  function Unwrap(buf: string): (r: Option<string>)
    ensures r.None? <==> !Contains(buf, DataKey)
    ensures r.Some? ==> |r.value| + |DataKey| <= |buf|
  {
    match Find(buf, DataKey)
    case None => None
    case Some(i) =>
      var rest := buf[i + |DataKey|..];
      match LastIndexOf(rest, '}')
      case None => Some(rest)
      case Some(j) => Some(rest[..j])
  }

  /** A broadcast datagram: what is handed to the local game, if anything. */
  function FromNetwork(b: Relay, d: string): (r: Option<string>)
    ensures |d| == 0 || !b.runMode ==> r.None?
    ensures Contains(CStr(Recv(d)), b.id) ==> r.None?
    ensures !Contains(CStr(Recv(d)), DataKey) ==> r.None?
    ensures r.Some? ==> '\0' !in r.value && |r.value| < |d|
  {
    if |d| == 0 then None
    else
      var buf := CStr(Recv(d));
      if Contains(buf, b.id) then None
      else
        match Unwrap(buf)
        case None => None
        case Some(out) => if b.runMode then Some(out) else None
  }

  // ---------------------------------------------------------------------
  // Properties

  /** The first occurrence is the one no earlier occurrence precedes. */
  lemma FindIs(s: string, p: string, i: nat)
    requires OccursAt(s, p, i) && forall k :: 0 <= k < i ==> !OccursAt(s, p, k)
    ensures Find(s, p) == Some(i)
  {
  }

  /** `"data":` cannot start where no quote is followed by a `d`. */
  lemma NotKeyAt(s: string, k: nat)
    requires k + 1 < |s| && (s[k] != '"' || s[k + 1] != 'd')
    ensures !OccursAt(s, DataKey, k)
  {
    if k + |DataKey| <= |s| {
      assert s[k..k + |DataKey|][0] == s[k] && s[k..k + |DataKey|][1] == s[k + 1];
    }
  }

  /** No quote of the tag head is followed by a `d`. */
  lemma HeadHasNoKey(k: nat)
    requires k + 1 < |WrapHead|
    ensures WrapHead[k] != '"' || WrapHead[k + 1] != 'd'
  {
  }

  /** A well-shaped id never lets `"data":` start inside the tag head. */
  lemma DataKeyAfterId(id: string, payload: string)
    requires IdShaped(id)
    ensures Find(Wrap(id, payload), DataKey) == Some(|WrapHead| + |id| + 2)
  {
    var s := Wrap(id, payload);
    var h := |WrapHead| + |id|;
    assert s == WrapHead + id + ("\"," + DataKey + payload + "}");
    assert s[h] == '"' && s[h + 1] == ',';
    assert s[h + 2..h + 9] == DataKey;
    forall k | 0 <= k < h + 2 ensures !OccursAt(s, DataKey, k) {
      if k + 1 < |WrapHead| {
        assert s[k] == WrapHead[k] && s[k + 1] == WrapHead[k + 1];
        HeadHasNoKey(k);
      } else if k + 1 == |WrapHead| {
        assert s[k + 1] == id[0] == id[..|IdPrefix|][0];
      } else if k < h {
        assert s[k] == id[k - |WrapHead|];
      }
      NotKeyAt(s, k);
    }
    FindIs(s, DataKey, h + 2);
  }

  /** Unwrapping a wrapped datagram gives back exactly its payload,
      whatever the payload holds. */
  lemma UnwrapWrap(id: string, payload: string)
    requires IdShaped(id)
    ensures Unwrap(Wrap(id, payload)) == Some(payload)
  {
    var s := Wrap(id, payload);
    DataKeyAfterId(id, payload);
    var rest := s[|WrapHead| + |id| + 2 + |DataKey|..];
    assert rest == payload + "}";
    assert LastIndexOf(rest, '}') == Some(|payload|);
    assert rest[..|payload|] == payload;
  }

  /** The tagged datagram always fits its buffer: even a full local read
      with the longest id stays under the room left for the tag. */
  lemma WrapNeverTruncates(id: string, d: string)
    requires |id| <= 32
    ensures |Wrap(id, CStr(Recv(d)))| <= BufferSize + TagRoom - 1
  {
  }

  /** A well-shaped wrapped datagram holds no NUL, so `strlen` sends all of
      it. */
  lemma WrapHasNoNul(id: string, payload: string)
    requires IdShaped(id) && '\0' !in payload
    ensures '\0' !in Wrap(id, payload)
  {
    var s := Wrap(id, payload);
    forall k | 0 <= k < |s| ensures s[k] != '\0' {
      if |WrapHead| <= k < |WrapHead| + |id| {
        assert s[k] == id[k - |WrapHead|];
      } else if |WrapHead| + |id| + 9 <= k < |WrapHead| + |id| + 9 + |payload| {
        assert s[k] == payload[k - |WrapHead| - |id| - 9];
      }
    }
  }

  /** Every datagram that mentions this bridge's id is dropped, including
      another bridge's datagram whose payload merely names it. */
  lemma MentionDropped(b: Relay, other: string, payload: string)
    requires '\0' !in payload && '\0' !in other && |Wrap(other, payload)| <= BufferSize - 1
    requires Contains(payload, b.id)
    ensures FromNetwork(b, Wrap(other, payload)) == None
  {
    var pre := WrapHead + other + "\"," + DataKey;
    var s := Wrap(other, payload);
    assert s == pre + payload + "}";
    assert '\0' !in pre;
    assert CStr(Recv(s)) == s;
    var i := Find(payload, b.id).value;
    OccursInside(pre, payload, "}", b.id, i);
  }

  /** A bridge whose id is the start of another bridge's id drops all of
      the other's traffic: the filter looks for the id anywhere. */
  lemma PrefixIdDropsPeer(mine: string, theirs: string, payload: string)
    requires IdShaped(theirs) && StartsWith(theirs, mine)
    requires '\0' !in payload && |Wrap(theirs, payload)| <= BufferSize - 1
    ensures FromNetwork(Relay(mine, true), Wrap(theirs, payload)) == None
  {
    var s := Wrap(theirs, payload);
    WrapHasNoNul(theirs, payload);
    assert s[|WrapHead|..|WrapHead| + |mine|] == theirs[..|mine|];
    assert OccursAt(s, mine, |WrapHead|);
  }

  /** Ids printed for different seconds never start one another: the dash
      after the time is not a hex digit, so the times print alike. */
  lemma IdPrefixSameSecond(t1: u64, r1: u32, t2: u64, r2: u32)
    requires StartsWith(MachineId(t2, r2), MachineId(t1, r1))
    ensures t1 == t2
  {
    var id1, id2 := MachineId(t1, r1), MachineId(t2, r2);
    var a, b := Hex(t1 as nat), Hex(t2 as nat);
    var p := |IdPrefix|;
    assert id1 == IdPrefix + a + "-" + Hex(r1 as nat);
    assert id2 == IdPrefix + b + "-" + Hex(r2 as nat);
    assert id1[p + |a|] == '-' && id2[p + |b|] == '-';
    if |a| != |b| {
      // the dash after the shorter time meets a digit of the longer one
    } else {
      assert a == id1[p..p + |a|] == id2[p..p + |b|] == b;
      HexInjective(t1 as nat, t2 as nat);
    }
  }

  /** With one C library, a bridge's id starts another's only when the two
      ids are the same. */
  lemma OneLibraryIdsNeverPrefix(t1: u64, t2: u64, rand: FirstRand)
    requires StartsWith(GenerateMachineId(t2, rand), GenerateMachineId(t1, rand))
    ensures GenerateMachineId(t1, rand) == GenerateMachineId(t2, rand)
  {
    IdPrefixSameSecond(t1, rand((t1 as int % 0x1_0000_0000) as u32), t2, rand((t2 as int % 0x1_0000_0000) as u32));
  }

  /** Two bridges started in the same second with one C library get the
      same id, and each drops every datagram the other broadcasts. */
  lemma SameSecondPeersDeaf(now: u64, rand: FirstRand, payload: string)
    requires '\0' !in payload && |Wrap(GenerateMachineId(now, rand), payload)| <= BufferSize - 1
    ensures FromNetwork(Relay(GenerateMachineId(now, rand), true), Wrap(GenerateMachineId(now, rand), payload)) == None
  {
    var id := GenerateMachineId(now, rand);
    assert id[..|id|] == id;
    PrefixIdDropsPeer(id, id, payload);
  }

  /** Two ids where one starts the other. They need two different first
      `rand()` values for one second, which only two C libraries give. */
  lemma PrefixIdsExist()
    ensures StartsWith(MachineId(1, 0x23), MachineId(1, 2))
  {
    assert Hex(0x23) == Hex(2) + "3";
  }

  /** End to end between two running bridges: what one broadcasts, the
      other hands to its game unchanged, as long as the tagged datagram
      fits the receiver's read and does not mention the receiver. */
  lemma RelayRoundTrip(src: Relay, dst: Relay, d: string)
    requires src.runMode && dst.runMode && IdShaped(src.id) && |src.id| <= 32
    requires |d| > 0 && '\0' !in d && |d| + |src.id| + 24 <= BufferSize - 1
    requires !Contains(Wrap(src.id, d), dst.id)
    ensures FromLocal(src, d).Some? && FromNetwork(dst, FromLocal(src, d).value) == Some(d)
  {
    var s := Wrap(src.id, d);
    assert Recv(d) == d && CStr(Recv(d)) == d;
    WrapHasNoNul(src.id, d);
    assert Recv(s) == s && CStr(Recv(s)) == s;
    UnwrapWrap(src.id, d);
  }

  /** A local datagram whose tagged form exceeds one IPv4 datagram is never
      broadcast. */
  lemma LongPayloadNotSent(src: Relay, d: string)
    requires |src.id| <= 32 && '\0' !in d && |d| <= BufferSize - 1
    requires |d| + |src.id| + 24 > MaxDatagram
    ensures FromLocal(src, d) == None
  {
    assert Recv(d) == d && CStr(Recv(d)) == d;
  }

  /** The first occurrence in a text is the first occurrence in any
      prefix long enough to hold it. */
  lemma FindInPrefix(s: string, n: nat, p: string, i: nat)
    requires n <= |s| && Find(s, p) == Some(i) && i + |p| <= n
    ensures Find(s[..n], p) == Some(i)
  {
    var t := s[..n];
    assert t[i..i + |p|] == s[i..i + |p|];
    forall k | 0 <= k < i ensures !OccursAt(t, p, k) {
      assert !OccursAt(s, p, k) by {
        assert Find(s, p) == FindFrom(s, p, 0);
      }
      if k + |p| <= n {
        assert t[k..k + |p|] == s[k..k + |p|];
      }
    }
    FindIs(t, p, i);
  }

  /** A wrapped datagram missing its last byte unwraps to the payload cut
      at its own last '}'. */
  lemma UnclosedUnwrap(id: string, d: string)
    requires IdShaped(id) && '}' in d
    ensures var s := Wrap(id, d);
            Unwrap(s[..|s| - 1]).Some? && |Unwrap(s[..|s| - 1]).value| < |d|
  {
    var s := Wrap(id, d);
    var h := |WrapHead| + |id| + 2;
    DataKeyAfterId(id, d);
    FindInPrefix(s, |s| - 1, DataKey, h);
    assert s == WrapHead + id + "\"," + DataKey + d + "}";
    assert s[..|s| - 1][h + |DataKey|..] == d;
  }

  /** The longest tagged datagram that is sent is one byte longer than a
      receive reads, so the tag's closing brace is lost and the payload's
      own last '}' is cut instead: a payload holding a '}' does not arrive
      intact. */
  lemma LongPayloadCut(src: Relay, dst: Relay, d: string)
    requires src.runMode && IdShaped(src.id) && |src.id| <= 32
    requires '\0' !in d && '}' in d && |d| + |src.id| + 24 == MaxDatagram
    ensures FromLocal(src, d).Some? && FromNetwork(dst, FromLocal(src, d).value) != Some(d)
  {
    var s := Wrap(src.id, d);
    assert Recv(d) == d && CStr(Recv(d)) == d;
    WrapHasNoNul(src.id, d);
    UnclosedUnwrap(src.id, d);
    var cut := Recv(s);
    assert cut == s[..|s| - 1];
    assert '\0' !in cut by {
      forall k | 0 <= k < |cut| ensures cut[k] != '\0' {
        assert cut[k] == s[k];
      }
    }
    assert CStr(cut) == cut;
  }

  // ---------------------------------------------------------------------
  // Broadcast address

  /** `ip | ~netmask`: the network's broadcast address. */
  function BroadcastAddress(ip: bv32, mask: bv32): (b: bv32)
    ensures b & mask == ip & mask
    ensures b | mask == 0xFFFF_FFFF
  {
    ip | !mask
  }

  /** An interface: its IPv4 address and netmask, if it has one. Addresses
      are written with the first octet in the high byte. */
  datatype Iface = Iface(inet: Option<(bv32, bv32)>)

  predicate Loopback(ip: bv32) {
    ip >> 24 == 127
  }

  predicate Usable(f: Iface) {
    f.inet.Some? && !Loopback(f.inet.value.0)
  }

  /** `get_broadcast_address`: the first IPv4 interface that is not a
      loopback one decides. */
  function ChooseInterface(ifs: seq<Iface>): (r: Option<nat>)
    ensures r.Some? ==> r.value < |ifs| && Usable(ifs[r.value])
    ensures r.Some? ==> forall k :: 0 <= k < r.value ==> !Usable(ifs[k])
    ensures r.None? ==> forall k :: 0 <= k < |ifs| ==> !Usable(ifs[k])
  {
    if |ifs| == 0 then None
    else if Usable(ifs[0]) then Some(0)
    else
      match ChooseInterface(ifs[1..])
      case None => None
      case Some(k) => Some(k + 1)
  }

  /** The broadcast address of the chosen interface. */
  function Broadcast(ifs: seq<Iface>): (r: Option<bv32>)
    ensures r.Some? <==> exists k :: 0 <= k < |ifs| && Usable(ifs[k])
    ensures r.Some? ==> var f := ifs[ChooseInterface(ifs).value].inet.value;
                        r.value & f.1 == f.0 & f.1 && !Loopback(f.0)
    ensures r.Some? ==> var f := ifs[ChooseInterface(ifs).value].inet.value;
                        r.value == BroadcastAddress(f.0, f.1)
  {
    match ChooseInterface(ifs)
    case None => None
    case Some(k) =>
      var f := ifs[k].inet.value;
      Some(BroadcastAddress(f.0, f.1))
  }
}
