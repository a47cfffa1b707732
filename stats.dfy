/**
 * The statistics part of the dmp target: the four counters of
 * `struct statistics`, the classification `dmp_map` makes of each bio, the
 * effect of one admitted bio on the counters, and the arithmetic that
 * `dmp_stat_show` performs on them.
 */
module Stats {
  import opened Types

  /** SECTOR_SIZE of the block layer, 1 << 9 */
  const SECTOR_SIZE: u64 := 512

  /** Operation codes of `enum req_op` that the target tells apart */
  const REQ_OP_READ: u8 := 0
  const REQ_OP_WRITE: u8 := 1

  /** A copy of `struct statistics`, field for field. */
  datatype Snapshot = Snapshot(
    writeQueryCount: u64,
    readQueryCount: u64,
    writeSectorsCount: u64,
    readSectorsCount: u64)

  /** The initial value of `dmp_stat`. */
  const Zero: Snapshot := Snapshot(0, 0, 0, 0)

  /** The three ways the switch in `dmp_map` can go. */
  datatype Direction = Read(sectors: u64) | Write(sectors: u64) | Unsupported

  /** `bio_sectors`: the byte size `bi_size` shifted right by 9. */
  function BioSectors(size: u32): (n: u64)
    ensures n * 512 <= size < (n + 1) * 512
  {
    size / 512
  }

  /** The switch on `bio_op(bio)` in `dmp_map`. */
  function Classify(op: u8, size: u32): (d: Direction)
    ensures d.Read? <==> op == REQ_OP_READ
    ensures d.Write? <==> op == REQ_OP_WRITE
    ensures d.Unsupported? <==> op != REQ_OP_READ && op != REQ_OP_WRITE
    ensures !d.Unsupported? ==> d.sectors * 512 <= size < (d.sectors + 1) * 512
  {
    if op == REQ_OP_READ then Read(BioSectors(size))
    else if op == REQ_OP_WRITE then Write(BioSectors(size))
    else Unsupported
  }

  /** What one bio does to the counters: a read or a write adds 1 to its
      request counter and its sectors to its sector counter, modulo 2^64, and
      leaves the other direction alone; an unsupported one does nothing. */
  function Account(s: Snapshot, d: Direction): (t: Snapshot)
    ensures d.Read? ==>
      t.readQueryCount == Add64(s.readQueryCount, 1) &&
      t.readSectorsCount == Add64(s.readSectorsCount, d.sectors) &&
      t.writeQueryCount == s.writeQueryCount && t.writeSectorsCount == s.writeSectorsCount
    ensures d.Write? ==>
      t.writeQueryCount == Add64(s.writeQueryCount, 1) &&
      t.writeSectorsCount == Add64(s.writeSectorsCount, d.sectors) &&
      t.readQueryCount == s.readQueryCount && t.readSectorsCount == s.readSectorsCount
    ensures d.Unsupported? ==> t == s
  {
    match d
    case Read(n) =>
      s.(readQueryCount := Add64(s.readQueryCount, 1),
         readSectorsCount := Add64(s.readSectorsCount, n))
    case Write(n) =>
      s.(writeQueryCount := Add64(s.writeQueryCount, 1),
         writeSectorsCount := Add64(s.writeSectorsCount, n))
    case Unsupported => s
  }

  /** The counters after a series of bios have been mapped, in order.  A
      series of unsupported bios leaves them as they were. */
  function Replay(s: Snapshot, ds: seq<Direction>): (r: Snapshot)
    ensures (forall i | 0 <= i < |ds| :: ds[i].Unsupported?) ==> r == s
  {
    if ds == [] then s else Account(Replay(s, ds[..|ds| - 1]), ds[|ds| - 1])
  }

  /** Number of reads in a series of bios. */
  function Reads(ds: seq<Direction>): (n: nat) {
    if ds == [] then 0 else Reads(ds[..|ds| - 1]) + (if ds[|ds| - 1].Read? then 1 else 0)
  }

  /** Number of writes in a series of bios. */
  function Writes(ds: seq<Direction>): (n: nat) {
    if ds == [] then 0 else Writes(ds[..|ds| - 1]) + (if ds[|ds| - 1].Write? then 1 else 0)
  }

  /** Total sectors of the reads in a series of bios. */
  function ReadSectors(ds: seq<Direction>): (n: nat) {
    if ds == [] then 0
    else ReadSectors(ds[..|ds| - 1]) + (if ds[|ds| - 1].Read? then ds[|ds| - 1].sectors else 0)
  }

  /** Total sectors of the writes in a series of bios. */
  function WriteSectors(ds: seq<Direction>): (n: nat) {
    if ds == [] then 0
    else WriteSectors(ds[..|ds| - 1]) + (if ds[|ds| - 1].Write? then ds[|ds| - 1].sectors else 0)
  }

  /** Adding to a wrapped total is wrapping the sum. */
  lemma AddWrapped(x: nat, y: u64)
    ensures Add64(Wrap64(x), y) == Wrap64(x + y)
  {
  }

  /** Counting correctness: after any series of bios, each request counter
      has grown by the number of bios of its direction and each sector
      counter by their sectors, modulo 2^64; unsupported bios count for nothing. */
  lemma {:induction false} ReplayCounts(s: Snapshot, ds: seq<Direction>)
    ensures Replay(s, ds) == Snapshot(
      Wrap64(s.writeQueryCount + Writes(ds)),
      Wrap64(s.readQueryCount + Reads(ds)),
      Wrap64(s.writeSectorsCount + WriteSectors(ds)),
      Wrap64(s.readSectorsCount + ReadSectors(ds)))
  {
    if ds != [] {
      var init := ds[..|ds| - 1];
      ReplayCounts(s, init);
      match ds[|ds| - 1]
      case Read(n) =>
        AddWrapped(s.readQueryCount + Reads(init), 1);
        AddWrapped(s.readSectorsCount + ReadSectors(init), n);
      case Write(n) =>
        AddWrapped(s.writeQueryCount + Writes(init), 1);
        AddWrapped(s.writeSectorsCount + WriteSectors(init), n);
      case Unsupported =>
    }
  }

  /** From the initial record, and as long as no total reaches 2^64, the
      counters are exactly the number of reads and writes and their sectors. */
  lemma CountsFromZero(ds: seq<Direction>)
    requires Reads(ds) < U64_MODULUS && Writes(ds) < U64_MODULUS
    requires ReadSectors(ds) < U64_MODULUS && WriteSectors(ds) < U64_MODULUS
    ensures Replay(Zero, ds) == Snapshot(Writes(ds), Reads(ds), WriteSectors(ds), ReadSectors(ds))
  {
    ReplayCounts(Zero, ds);
  }

  /** No counter ever decreases while the two counters the bio adds to do
      not pass 2^64. */
  lemma AccountMonotone(s: Snapshot, d: Direction)
    requires d.Read? ==>
      s.readQueryCount + 1 < U64_MODULUS && s.readSectorsCount + d.sectors < U64_MODULUS
    requires d.Write? ==>
      s.writeQueryCount + 1 < U64_MODULUS && s.writeSectorsCount + d.sectors < U64_MODULUS
    ensures var t := Account(s, d);
      s.readQueryCount <= t.readQueryCount && s.readSectorsCount <= t.readSectorsCount &&
      s.writeQueryCount <= t.writeQueryCount && s.writeSectorsCount <= t.writeSectorsCount
  {
  }

  /** Average bytes per request of one direction, as `dmp_stat_show` computes
      it: `sectors * SECTOR_SIZE / queries` in 64-bit arithmetic, or 0 when
      there was no request.  The product is taken modulo 2^64 before the
      division; it is exact while `sectors` stays below 2^55. */
  function AvgBlockSize(sectors: u64, queries: u64): (r: u64)
    ensures queries == 0 ==> r == 0
    ensures queries > 0 ==> r * queries <= Mul64(sectors, SECTOR_SIZE) < (r + 1) * queries
    ensures queries > 0 && sectors * 512 < U64_MODULUS ==>
      r * queries <= sectors * 512 < (r + 1) * queries
  {
    if queries > 0 then Mul64(sectors, SECTOR_SIZE) / queries else 0
  }

  /** The six values `dmp_stat_show` prints, in the order it prints them. */
  datatype Report = Report(
    readReqs: u64, readAvg: u64,
    writeReqs: u64, writeAvg: u64,
    totalReqs: u64, totalAvg: u64)

  /** The computation of `dmp_stat_show` over one snapshot.  The combined
      average is the mean of the two per-direction averages, not a sector
      weighted average. */
  function StatShow(s: Snapshot): (r: Report)
    ensures r.readReqs == s.readQueryCount && r.writeReqs == s.writeQueryCount
    ensures r.readAvg == AvgBlockSize(s.readSectorsCount, s.readQueryCount)
    ensures r.writeAvg == AvgBlockSize(s.writeSectorsCount, s.writeQueryCount)
    ensures r.totalReqs == Add64(r.readReqs, r.writeReqs)
    ensures r.totalReqs == 0 ==> r.totalAvg == 0
    ensures r.totalReqs > 0 && r.readAvg + r.writeAvg < U64_MODULUS ==>
      2 * r.totalAvg <= r.readAvg + r.writeAvg < 2 * r.totalAvg + 2
    ensures r.totalReqs > 0 && r.readAvg + r.writeAvg < U64_MODULUS ==>
      (r.readAvg <= r.totalAvg <= r.writeAvg || r.writeAvg <= r.totalAvg <= r.readAvg)
    ensures r.totalReqs > 0 && r.readAvg + r.writeAvg >= U64_MODULUS ==>
      2 * r.totalAvg + U64_MODULUS <= r.readAvg + r.writeAvg < 2 * r.totalAvg + U64_MODULUS + 2
  {
    var avgRead := AvgBlockSize(s.readSectorsCount, s.readQueryCount);
    var avgWrite := AvgBlockSize(s.writeSectorsCount, s.writeQueryCount);
    var total := Add64(s.readQueryCount, s.writeQueryCount);
    var avg := if total > 0 then Add64(avgRead, avgWrite) / 2 else 0;
    Report(s.readQueryCount, avgRead, s.writeQueryCount, avgWrite, total, avg)
  }

  /** When the two averages sum past 2^64 the 64-bit sum wraps, and the
      combined average falls below both of them: 2^55 - 1 sectors in one read
      and in one write give averages of 2^64 - 512 and a combined 2^63 - 512. */
  lemma ShowCombinedWraps()
    ensures var r := StatShow(Snapshot(1, 1, 0x7F_FFFF_FFFF_FFFF, 0x7F_FFFF_FFFF_FFFF));
      r.readAvg == r.writeAvg == 0xFFFF_FFFF_FFFF_FE00 &&
      r.totalAvg == 0x7FFF_FFFF_FFFF_FE00 && r.totalAvg < r.readAvg
  {
  }

  /** With no request at all every reported value is 0: no division by zero. */
  lemma ShowInitial()
    ensures StatShow(Zero) == Report(0, 0, 0, 0, 0, 0)
  {
  }

  /** With requests in one direction only, the combined average is half the
      average of that direction, because the other average counts as 0. */
  lemma ShowOneDirection(s: Snapshot)
    requires s.writeQueryCount == 0 && s.readQueryCount > 0
    ensures StatShow(s).totalAvg == StatShow(s).readAvg / 2
  {
  }

  /** One read of 16 sectors and one write of 8 sectors. */
  lemma ShowReadAndWrite()
    ensures StatShow(Replay(Zero, [Read(16), Write(8)])) == Report(1, 8192, 1, 4096, 2, 6144)
  {
    var ds := [Read(16), Write(8)];
    assert ds[..1] == [Read(16)];
    assert [Read(16)][..0] == [];
  }

  /** The combined average differs from the sector-weighted one: one read of
      16 sectors and three writes of 8 sectors give 6144, whereas 40 sectors
      over 4 requests would give 5120. */
  lemma ShowIsNotWeighted()
    ensures var s := Snapshot(3, 1, 24, 16);
      StatShow(s).totalAvg == 6144 &&
      (s.readSectorsCount + s.writeSectorsCount) * 512 / StatShow(s).totalReqs == 5120
  {
  }

  /** `dmp_stat_store`: the attribute ignores what is written to it and
      reports the whole buffer as consumed.  The C function returns the
      `size_t` count as an `ssize_t`, which would turn negative from 2^63 on;
      sysfs never passes more than one page, so the result is `count`. */
  function StatStore(buf: string, count: u64): (r: u64)
    ensures r == count
  {
    count
  }

  /** The global `dmp_stat`: the four counters the map path updates in place. */
  class CounterStore {
    var writeQueryCount: u64
    var readQueryCount: u64
    var writeSectorsCount: u64
    var readSectorsCount: u64

    /** The static initialiser: all four counters 0. */
    constructor ()
      ensures Snap() == Zero
    {
      writeQueryCount, readQueryCount := 0, 0;
      writeSectorsCount, readSectorsCount := 0, 0;
    }

    function Snap(): (s: Snapshot)
      reads this
    {
      Snapshot(writeQueryCount, readQueryCount, writeSectorsCount, readSectorsCount)
    }

    /** `dmp_stat_show`: copy the counters, compute, and report the six values.
        It modifies nothing. */
    method Show() returns (r: Report)
      ensures r == StatShow(Snap())
    {
      var s := Snapshot(writeQueryCount, readQueryCount, writeSectorsCount, readSectorsCount);
      r := StatShow(s);
    }
  }
}
