/** The Wake-on-LAN "Magic Packet": six synchronisation bytes 0xFF followed by
    the target's 6-byte hardware address sixteen times, 102 bytes in all. */
module MagicPacket {

  /** A hardware (MAC) address. */
  type Mac = m: seq<bv8> | |m| == 6 witness [0, 0, 0, 0, 0, 0]

  const SyncLength: nat := 6
  const Repeats: nat := 16
  const PacketLength: nat := 102

  /** `n` copies of the address, one after the other. */
  function MacBlocks(mac: Mac, n: nat): (r: seq<bv8>)
    ensures |r| == 6 * n
  {
    if n == 0 then [] else MacBlocks(mac, n - 1) + mac
  }

  /** The magic packet for `mac`, as a value. */
  function Packet(mac: Mac): seq<bv8> {
    [0xFF, 0xFF, 0xFF, 0xFF, 0xFF, 0xFF] + MacBlocks(mac, Repeats)
  }

  /** A receiver's view of a magic packet: its length, its synchronisation
      stream and every later byte equal to the matching address byte. */
  ghost predicate IsMagicPacketFor(p: seq<bv8>, mac: Mac) {
    && |p| == PacketLength
    && (forall i :: 0 <= i < SyncLength ==> p[i] == 0xFF)
    && (forall i :: SyncLength <= i < PacketLength ==> p[i] == mac[i % 6])
  }

  /** Block `k` of a packet: bytes [6k, 6k+6). */
  function Block(p: seq<bv8>, k: nat): seq<bv8>
    requires 6 * k + 6 <= |p|
  {
    p[6 * k .. 6 * k + 6]
  }

  /** The address a packet carries in its first address block. */
  function MacOf(p: seq<bv8>): (mac: Mac)
    requires |p| == PacketLength
    ensures mac == Block(p, 1)
  {
    p[6..12]
  }

  /** Every byte of `n` address copies is the address byte at its offset. */
  lemma {:induction false} MacBlocksAt(mac: Mac, n: nat, i: nat)
    requires i < 6 * n
    ensures MacBlocks(mac, n)[i] == mac[i % 6]
  {
    if i < 6 * (n - 1) {
      MacBlocksAt(mac, n - 1, i);
    } else {
      assert i - 6 * (n - 1) == i % 6;
    }
  }

  /** `Packet` is a magic packet for its address. */
  lemma PacketIsMagic(mac: Mac)
    ensures IsMagicPacketFor(Packet(mac), mac)
  {
    var p := Packet(mac);
    forall i | SyncLength <= i < PacketLength
      ensures p[i] == mac[i % 6]
    {
      MacBlocksAt(mac, Repeats, i - 6);
      assert (i - 6) % 6 == i % 6;
    }
  }

  /** A magic packet for an address is determined by it: the receiver's
      check accepts `Packet(mac)` and nothing else. */
  lemma MagicPacketUnique(p: seq<bv8>, mac: Mac)
    ensures IsMagicPacketFor(p, mac) <==> p == Packet(mac)
  {
    PacketIsMagic(mac);
    if IsMagicPacketFor(p, mac) {
      var q := Packet(mac);
      assert forall i :: 0 <= i < PacketLength ==> p[i] == q[i];
    }
  }

  /** Sixteen copies of the address stand in blocks 1 to 16, and the address
      read back from the packet is the one it was built for. */
  lemma PacketBlocks(mac: Mac)
    ensures |Packet(mac)| == PacketLength
    ensures forall k :: 1 <= k <= Repeats ==> Block(Packet(mac), k) == mac
    ensures MacOf(Packet(mac)) == mac
  {
    var p := Packet(mac);
    PacketIsMagic(mac);
    forall k | 1 <= k <= Repeats
      ensures Block(p, k) == mac
    {
      forall j | 0 <= j < 6
        ensures Block(p, k)[j] == mac[j]
      {
        assert (6 * k + j) % 6 == j;
      }
    }
  }

  /** Builds the packet in a 102-byte buffer: the first six bytes set to 0xFF,
      then the address copied into each of the blocks 1 to 16. */
  method BuildPacket(mac: Mac) returns (packet: array<bv8>)
    ensures packet.Length == PacketLength
    ensures packet[..] == Packet(mac)
  {
    packet := new bv8[PacketLength];
    for i := 0 to SyncLength
      invariant forall j :: 0 <= j < i ==> packet[j] == 0xFF
    {
      packet[i] := 0xFF;
    }
    for k := 1 to Repeats + 1
      invariant forall j :: 0 <= j < SyncLength ==> packet[j] == 0xFF
      invariant forall j :: SyncLength <= j < 6 * k ==> packet[j] == mac[j % 6]
    {
      for b := 0 to 6
        invariant forall j :: 0 <= j < SyncLength ==> packet[j] == 0xFF
        invariant forall j :: SyncLength <= j < 6 * k + b ==> packet[j] == mac[j % 6]
      {
        assert (6 * k + b) % 6 == b;
        packet[6 * k + b] := mac[b];
      }
    }
    MagicPacketUnique(packet[..], mac);
  }
}
