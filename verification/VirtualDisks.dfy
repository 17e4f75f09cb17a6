/** The image of a disk, seen as sectors: two bytes of header, the payload, then a checksum. */
module VirtualDisks {
  import opened Bytes

  datatype Layout = Layout(tracks: Byte, sectors: Byte, sectorSize: Byte)

  function SectorCount(l: Layout): nat { l.tracks * l.sectors }

  function GetIndex(l: Layout, track: nat, sector: nat, index: nat): nat {
    l.sectorSize * (track * l.sectors + sector) + index
  }

  function GetData(image: seq<Byte>, l: Layout, track: nat, sector: nat, index: nat): Byte {
    var k := GetIndex(l, track, sector, index);
    if k < |image| then image[k] else 0
  }

  // The payload of a sector.
  function Payload(image: seq<Byte>, l: Layout, track: nat, sector: nat): (p: seq<Byte>)
    ensures |p| == l.sectorSize
  {
    seq(l.sectorSize, k requires 0 <= k < l.sectorSize => GetData(image, l, track, sector, k))
  }

  // The byte of a sum in two's complement, one more when the sum of the signed bytes overflows: the
  // operands have the same sign bit, and their sum has the other one.
  function ChecksumStep(checksum: Byte, read: Byte): Byte {
    var overflow := read / 128 == checksum / 128 && (read + checksum) / 128 % 2 != read / 128;
    Wrap(checksum + read + (if overflow then 1 else 0))
  }

  function Checksum(bytes: seq<Byte>): Byte
    decreases |bytes|
  {
    if bytes == [] then 0 else ChecksumStep(Checksum(bytes[..|bytes| - 1]), bytes[|bytes| - 1])
  }

  function Signed(x: Byte): int { if x < 128 then x else x - 256 }

  lemma WrapsAround(x: int)
    ensures Wrap(x) == Wrap(x - 256) == Wrap(x - 512)
  {
  }

  // The step adds one exactly when the signed sum does not fit.
  lemma StepIsSignedSum(checksum: Byte, read: Byte)
    ensures var sum := Signed(checksum) + Signed(read);
            ChecksumStep(checksum, read) == Wrap(sum + (if -128 <= sum < 128 then 0 else 1))
  {
    hide Wrap;
    var x := checksum + read;
    WrapsAround(x);
    WrapsAround(x + 1);
    if read < 128 && checksum < 128 {
      assert x / 128 % 2 == 0 <==> x < 128;
    } else if read >= 128 && checksum >= 128 {
      assert x / 128 % 2 == 1 <==> x >= 384;
    }
  }

  // The sums of the source, without the loop that takes them.

  function SignedTotal(bytes: seq<Byte>): int
    decreases |bytes|
  {
    if bytes == [] then 0 else SignedTotal(bytes[..|bytes| - 1]) + Signed(bytes[|bytes| - 1])
  }

  // At how many places a running sum in a signed byte overflows, each overflow adding one.
  function Overflows(bytes: seq<Byte>): nat
    decreases |bytes|
  {
    if bytes == [] then 0
    else
      var before := bytes[..|bytes| - 1];
      var sum := Signed((SignedTotal(before) + Overflows(before)) % 256) + Signed(bytes[|bytes| - 1]);
      Overflows(before) + if -128 <= sum < 128 then 0 else 1
  }

  lemma SignedModulo(x: Byte, y: int)
    ensures (Signed(x) + y) % 256 == (x + y) % 256
  {
  }

  lemma SumModulo(x: int, y: int)
    ensures (x % 256 + y) % 256 == (x + y) % 256
  {
    var q := x / 256;
    assert x + y == 256 * q + (x % 256 + y);
  }

  // The checksum is the signed total and the overflows, in a byte.
  lemma {:induction false} ChecksumIsTotal(bytes: seq<Byte>)
    ensures Checksum(bytes) == (SignedTotal(bytes) + Overflows(bytes)) % 256
    decreases |bytes|
  {
    hide Signed, ChecksumStep;
    if bytes != [] {
      var before, last := bytes[..|bytes| - 1], bytes[|bytes| - 1];
      ChecksumIsTotal(before);
      var c := Checksum(before);
      var one := if -128 <= Signed(c) + Signed(last) < 128 then 0 else 1;
      StepIsSignedSum(c, last);
      WrapIsModulo(Signed(c) + Signed(last) + one);
      SignedModulo(c, Signed(last) + one);
      SumModulo(SignedTotal(before) + Overflows(before), Signed(last) + one);
    }
  }

  lemma WrapIsModulo(x: int)
    ensures Wrap(x) == x % 256
  {
  }

  // A sector of zeroes has the checksum zero.
  lemma {:induction false} ZeroChecksum(bytes: seq<Byte>)
    requires forall k :: 0 <= k < |bytes| ==> bytes[k] == 0
    ensures Checksum(bytes) == 0
    decreases |bytes|
  {
    if bytes != [] {
      ZeroChecksum(bytes[..|bytes| - 1]);
    }
  }

  class VirtualDisk {
    const data: array<Byte>
    const checksums: array<Byte>
    const layout: Layout

    ghost predicate Valid()
      reads this, data, checksums
    {
      && data != checksums
      && checksums.Length == SectorCount(layout)
      && forall t, s :: 0 <= t < layout.tracks && 0 <= s < layout.sectors ==>
           Position(layout, t, s) < checksums.Length
           && checksums[Position(layout, t, s)] == Checksum(Payload(data[..], layout, t, s))
    }

    constructor (image: seq<Byte>, layout: Layout)
      ensures Valid() && this.layout == layout && data[..] == image && fresh(data) && fresh(checksums)
    {
      this.layout := layout;
      data := new Byte[|image|](k requires 0 <= k < |image| => image[k]);
      checksums := new Byte[SectorCount(layout)](_ => 0);
      new;
      assert data[..] == image;
      InitializeChecksums();
    }

    method InitializeChecksums()
      requires data != checksums && checksums.Length == SectorCount(layout)
      modifies checksums
      ensures Valid()
    {
      for track := 0 to layout.tracks
        invariant forall t, s :: 0 <= t < track && 0 <= s < layout.sectors ==>
                    Position(layout, t, s) < checksums.Length
                    && checksums[Position(layout, t, s)] == Checksum(Payload(data[..], layout, t, s))
      {
        for sector := 0 to layout.sectors
          invariant forall t, s :: 0 <= t < layout.tracks && 0 <= s < layout.sectors
                                   && (t < track || (t == track && s < sector)) ==>
                      Position(layout, t, s) < checksums.Length
                      && checksums[Position(layout, t, s)] == Checksum(Payload(data[..], layout, t, s))
        {
          var sectorChecksum := ComputeSectorChecksum(track, sector);
          PositionInRange(layout, track, sector);
          ghost var before := checksums[..];
          checksums[Position(layout, track, sector)] := sectorChecksum;
          forall t, s | 0 <= t < layout.tracks && 0 <= s < layout.sectors && (t < track || (t == track && s < sector))
            ensures Position(layout, t, s) < checksums.Length
            ensures checksums[Position(layout, t, s)] == before[Position(layout, t, s)]
          {
            PositionOnce(layout, t, s, track, sector);
            PositionInRange(layout, t, s);
          }
        }
      }
    }

    method ComputeSectorChecksum(track: nat, sector: nat) returns (checksum: Byte)
      requires track < layout.tracks && sector < layout.sectors
      ensures checksum == Checksum(Payload(data[..], layout, track, sector))
    {
      checksum := 0;
      ghost var payload := Payload(data[..], layout, track, sector);
      for index := 0 to layout.sectorSize
        invariant checksum == Checksum(payload[..index])
      {
        var read := GetByte(track, sector, index);
        assert payload[..index + 1][..index] == payload[..index];
        checksum := ChecksumStep(checksum, read);
      }
      assert payload[..layout.sectorSize] == payload;
    }

    method GetByte(track: nat, sector: nat, index: nat) returns (read: Byte)
      requires track < layout.tracks && sector < layout.sectors && index < layout.sectorSize + 3
      ensures read == GetData(data[..], layout, track, sector, index)
    {
      var globalIndex := GetIndex(layout, track, sector, index);
      read := if globalIndex < data.Length then data[globalIndex] else 0;
    }

    // What the disk reader reads at an index of a sector.
    method Get(track: nat, sector: nat, indexInSector: Byte) returns (read: Byte)
      requires Valid() && track < layout.tracks && sector < layout.sectors
      ensures var payload := Payload(data[..], layout, track, sector);
              read == if 2 <= indexInSector < layout.sectorSize + 2 then payload[indexInSector - 2]
                      else if indexInSector == layout.sectorSize + 2 then Checksum(payload)
                      else 0xFF - indexInSector
    {
      if indexInSector >= 2 && indexInSector < layout.sectorSize + 2 {
        read := GetByte(track, sector, indexInSector - 2);
      } else if indexInSector == layout.sectorSize + 2 {
        assert Position(layout, track, sector) < checksums.Length;
        read := checksums[Position(layout, track, sector)];
      } else {
        read := 0xFF - indexInSector;
      }
    }
  }

  function Position(l: Layout, track: nat, sector: nat): nat { track * l.sectors + sector }

  lemma PositionInRange(l: Layout, track: nat, sector: nat)
    requires track < l.tracks && sector < l.sectors
    ensures Position(l, track, sector) < SectorCount(l)
  {
    assert (track + 1) * l.sectors <= l.tracks * l.sectors;
  }

  lemma PositionOnce(l: Layout, t1: nat, s1: nat, t2: nat, s2: nat)
    requires s1 < l.sectors && s2 < l.sectors && (t1, s1) != (t2, s2)
    ensures Position(l, t1, s1) != Position(l, t2, s2)
  {
    if t1 < t2 {
      assert (t1 + 1) * l.sectors <= t2 * l.sectors;
    } else if t2 < t1 {
      assert (t2 + 1) * l.sectors <= t1 * l.sectors;
    }
  }

  function PayloadOf(image: seq<Byte>, l: Layout, n: nat): seq<Byte>
    requires l.sectors > 0
  {
    Payload(image, l, n / l.sectors, n % l.sectors)
  }

  function Capacity(l: Layout, n: nat): nat { l.sectorSize * n }

  // The payloads of the n first sectors, in the order of the tracks and of the sectors in each.
  function Payloads(image: seq<Byte>, l: Layout, n: nat): seq<Byte>
    requires l.sectors > 0
  {
    if n == 0 then [] else Payloads(image, l, n - 1) + PayloadOf(image, l, n - 1)
  }

  // The image, cut or padded with zeroes.
  function Fitted(image: seq<Byte>, size: nat): (r: seq<Byte>)
    ensures |r| == size
  {
    seq(size, k requires 0 <= k < size => if k < |image| then image[k] else 0)
  }

  lemma SectorIndex(l: Layout, n: nat)
    requires l.sectors > 0
    ensures n / l.sectors * l.sectors + n % l.sectors == n
  {
  }

  lemma Grows(l: Layout, n: nat)
    ensures Capacity(l, n + 1) == Capacity(l, n) + l.sectorSize && Capacity(l, 0) == 0
  {
  }

  lemma IndexOf(l: Layout, n: nat, k: nat)
    requires l.sectors > 0
    ensures GetIndex(l, n / l.sectors, n % l.sectors, k) == l.sectorSize * n + k
  {
    SectorIndex(l, n);
  }

  // A payload is the part of the image that starts at a position.
  predicate StartsAt(image: seq<Byte>, p: seq<Byte>, base: nat) {
    forall k :: 0 <= k < |p| ==> p[k] == if base + k < |image| then image[base + k] else 0
  }

  lemma PayloadAt(image: seq<Byte>, l: Layout, n: nat)
    requires l.sectors > 0
    ensures |PayloadOf(image, l, n)| == l.sectorSize && StartsAt(image, PayloadOf(image, l, n), Capacity(l, n))
  {
    hide GetIndex;
    forall k | 0 <= k < l.sectorSize
      ensures GetIndex(l, n / l.sectors, n % l.sectors, k) == Capacity(l, n) + k
    {
      IndexOf(l, n, k);
    }
  }

  lemma FittedGrows(image: seq<Byte>, before: nat, p: seq<Byte>)
    requires StartsAt(image, p, before)
    ensures Fitted(image, before + |p|) == Fitted(image, before) + p
  {
  }

  lemma FittedNone(image: seq<Byte>)
    ensures Fitted(image, 0) == []
  {
  }

  // The sectors of the disk, one after the other, are the image cut or padded to its capacity.
  lemma {:induction false} PayloadsAreImage(image: seq<Byte>, l: Layout, n: nat)
    requires l.sectors > 0
    ensures Payloads(image, l, n) == Fitted(image, Capacity(l, n))
  {
    hide PayloadOf, Fitted, StartsAt, Capacity;
    if n > 0 {
      PayloadsAreImage(image, l, n - 1);
      Grows(l, n - 1);
      PayloadAt(image, l, n - 1);
      FittedGrows(image, Capacity(l, n - 1), PayloadOf(image, l, n - 1));
    } else {
      Grows(l, 0);
      FittedNone(image);
    }
  }
}
