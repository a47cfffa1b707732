/**
 * The target part of the dmp device-mapper target: the constructor, the
 * destructor and the map function.  The kernel services they call
 * (`kmalloc`/`kfree`, `dm_get_device`/`dm_put_device`, `submit_bio`) are
 * modelled by the state they change in a `Kernel` object: the live
 * allocations, the device references held, and the bios submitted.
 */
module Target {
  import opened Types
  import opened Stats
  import opened Scan

  const EINVAL: int := 22
  const ENOMEM: int := 12

  /** A `struct block_device`, known by identity only. */
  datatype BlockDevice = BlockDevice(id: nat)

  /** A `struct dm_dev`: the device path it was opened by and its block device. */
  datatype DmDev = DmDev(name: string, bdev: BlockDevice)

  /** The fields of `struct bio` that the target reads or writes. */
  class Bio {
    var op: u8           // bio_op(bio)
    var sector: u64      // bi_iter.bi_sector
    var size: u32        // bi_iter.bi_size, in bytes
    var bdev: BlockDevice

    constructor (op: u8, sector: u64, size: u32, bdev: BlockDevice)
      ensures this.op == op && this.sector == sector && this.size == size && this.bdev == bdev
    {
      this.op, this.sector, this.size, this.bdev := op, sector, size, bdev;
    }
  }

  /** `struct my_dm_target`: the backing device and the start sector. */
  class Context {
    var dev: Option<DmDev>
    var start: u64

    constructor ()
      ensures dev == None && start == 0
    {
      dev, start := None, 0;
    }
  }

  /** The fields of `struct dm_target` that the target reads or writes. */
  class DmTarget {
    var private: Context?
    var error: string

    constructor ()
      ensures private == null && error == ""
    {
      private, error := null, "";
    }
  }

  /** DM_MAPIO_SUBMITTED and DM_MAPIO_KILL */
  datatype MapResult = Submitted | Kill

  /** The kernel state the target acts on. */
  class Kernel {
    /** The device paths `dm_get_device` can resolve, and what they resolve to. */
    const devices: map<string, BlockDevice>
    /** Contexts allocated by `kmalloc` and not yet freed. */
    var live: set<Context>
    /** One entry per reference taken by `dm_get_device` and not yet put. */
    var refs: multiset<string>
    /** The bios passed to `submit_bio`, in order. */
    var submitted: seq<Bio>

    constructor (devices: map<string, BlockDevice>)
      ensures this.devices == devices && live == {} && refs == multiset{} && submitted == []
    {
      this.devices := devices;
      live, refs, submitted := {}, multiset{}, [];
    }

    /** `kmalloc`; whether memory is available is decided by the caller. */
    method KMalloc(available: bool) returns (p: Context?)
      modifies this`live
      ensures available ==> p != null && fresh(p) && p.dev == None && live == old(live) + {p}
      ensures !available ==> p == null && live == old(live)
    {
      if available {
        p := new Context();
        live := live + {p};
      } else {
        p := null;
      }
    }

    method KFree(p: Context)
      requires p in live
      modifies this`live
      ensures live == old(live) - {p}
    {
      live := live - {p};
    }

    /** `dm_get_device`: succeeds exactly for the paths it can resolve, and
        then holds one more reference. */
    method GetDevice(path: string) returns (d: Option<DmDev>)
      modifies this`refs
      ensures path in devices ==> d == Some(DmDev(path, devices[path])) && refs == old(refs) + multiset{path}
      ensures path !in devices ==> d == None && refs == old(refs)
    {
      if path in devices {
        d := Some(DmDev(path, devices[path]));
        refs := refs + multiset{path};
      } else {
        d := None;
      }
    }

    /** `dm_put_device`: gives back one reference. */
    method PutDevice(d: DmDev)
      requires d.name in refs
      modifies this`refs
      ensures refs == old(refs) - multiset{d.name}
    {
      refs := refs - multiset{d.name};
    }

    method SubmitBio(b: Bio)
      modifies this`submitted
      ensures submitted == old(submitted) + [b]
    {
      submitted := submitted + [b];
    }
  }

  /** A target that was constructed and not yet destroyed: its context is
      live and holds a reference to its device. */
  ghost predicate Bound(ti: DmTarget, k: Kernel)
    reads ti, ti.private, k
  {
    ti.private != null && ti.private in k.live &&
    ti.private.dev.Some? && ti.private.dev.value.name in k.refs
  }

  /** `dmp_ctr`: `argv` is `[device path, start sector]`.  Every failure
      returns a negative error code and leaves no allocation and no device
      reference behind; success leaves exactly one of each, in `ti.private`. */
  method Ctr(ti: DmTarget, argv: seq<string>, k: Kernel, memoryAvailable: bool) returns (r: int)
    modifies ti, k
    ensures |argv| != 2 ==> r == -EINVAL && ti.error == "Invalid argument count"
    ensures |argv| == 2 && !memoryAvailable ==>
      r == -ENOMEM && ti.error == "dm-basic_target: Cannot allocate linear context"
    ensures |argv| == 2 && memoryAvailable && ParseULL(argv[1]).None? ==>
      r == -EINVAL && ti.error == "dm-basic_target: Invalid device sector"
    ensures |argv| == 2 && memoryAvailable && ParseULL(argv[1]).Some? && argv[0] !in k.devices ==>
      r == -EINVAL && ti.error == "dm-basic_target: Device lookup failed"
    ensures r == 0 <==>
      |argv| == 2 && memoryAvailable && ParseULL(argv[1]).Some? && argv[0] in k.devices
    ensures r != 0 ==>
      ti.private == old(ti.private) && k.live == old(k.live) && k.refs == old(k.refs)
    ensures r == 0 ==>
      ti.private != null && fresh(ti.private) && ti.error == old(ti.error) &&
      ti.private.dev == Some(DmDev(argv[0], k.devices[argv[0]])) &&
      ti.private.start == ParseULL(argv[1]).value &&
      k.live == old(k.live) + {ti.private} && k.refs == old(k.refs) + multiset{argv[0]}
    ensures r == 0 ==> Bound(ti, k)
    ensures k.submitted == old(k.submitted)
  {
    if |argv| != 2 {
      ti.error := "Invalid argument count";
      return -EINVAL;
    }
    var mdt := k.KMalloc(memoryAvailable);
    if mdt == null {
      ti.error := "dm-basic_target: Cannot allocate linear context";
      return -ENOMEM;
    }
    var start := ParseULL(argv[1]);
    if start.None? {
      ti.error := "dm-basic_target: Invalid device sector";
      k.KFree(mdt);
      return -EINVAL;
    }
    mdt.start := start.value;
    var dev := k.GetDevice(argv[0]);
    if dev.None? {
      ti.error := "dm-basic_target: Device lookup failed";
      k.KFree(mdt);
      return -EINVAL;
    }
    mdt.dev := dev;
    ti.private := mdt;
    return 0;
  }

  /** `dmp_dtr`: gives back the one device reference and frees the context.
      `ti.private` is left pointing at the freed context, so the target is
      no longer `Bound` and cannot be destroyed a second time. */
  method Dtr(ti: DmTarget, k: Kernel)
    requires Bound(ti, k)
    modifies k
    ensures k.live == old(k.live) - {ti.private}
    ensures k.refs == old(k.refs) - multiset{ti.private.dev.value.name}
    ensures k.submitted == old(k.submitted)
    ensures !Bound(ti, k)
  {
    var mdt := ti.private;
    k.PutDevice(mdt.dev.value);
    k.KFree(mdt);
  }

  /** A construction followed, when it succeeded, by the destruction leaves
      the kernel with exactly the allocations and references it had. */
  method CtrThenDtr(ti: DmTarget, argv: seq<string>, k: Kernel, memoryAvailable: bool) returns (r: int)
    modifies ti, k
    ensures r == 0 <==>
      |argv| == 2 && memoryAvailable && ParseULL(argv[1]).Some? && argv[0] in k.devices
    ensures k.live == old(k.live) && k.refs == old(k.refs)
  {
    r := Ctr(ti, argv, k, memoryAvailable);
    if r == 0 {
      Dtr(ti, k);
    }
  }

  /** `dmp_map`: send the bio to the backing device, count it if it is a
      read or a write, and submit it; kill any other operation uncounted.
      The bio's sector and size are not touched: the start sector is not added. */
  method Map(ti: DmTarget, bio: Bio, store: CounterStore, k: Kernel) returns (r: MapResult)
    requires Bound(ti, k)
    modifies bio, store, k
    ensures Bound(ti, k)
    ensures bio.bdev == ti.private.dev.value.bdev
    ensures bio.op == old(bio.op) && bio.sector == old(bio.sector) && bio.size == old(bio.size)
    ensures old(bio.op) == REQ_OP_READ ==>
      r == Submitted &&
      store.readQueryCount == Add64(old(store.readQueryCount), 1) &&
      store.readSectorsCount == Add64(old(store.readSectorsCount), BioSectors(bio.size)) &&
      store.writeQueryCount == old(store.writeQueryCount) &&
      store.writeSectorsCount == old(store.writeSectorsCount)
    ensures old(bio.op) == REQ_OP_WRITE ==>
      r == Submitted &&
      store.writeQueryCount == Add64(old(store.writeQueryCount), 1) &&
      store.writeSectorsCount == Add64(old(store.writeSectorsCount), BioSectors(bio.size)) &&
      store.readQueryCount == old(store.readQueryCount) &&
      store.readSectorsCount == old(store.readSectorsCount)
    ensures old(bio.op) != REQ_OP_READ && old(bio.op) != REQ_OP_WRITE ==>
      r == Kill && store.Snap() == old(store.Snap())
    ensures store.Snap() == Account(old(store.Snap()), Classify(bio.op, bio.size))
    ensures k.submitted == if r == Submitted then old(k.submitted) + [bio] else old(k.submitted)
    ensures k.live == old(k.live) && k.refs == old(k.refs)
  {
    var mdt := ti.private;
    bio.bdev := mdt.dev.value.bdev;
    if bio.op == REQ_OP_READ {
      store.readQueryCount := Add64(store.readQueryCount, 1);
      store.readSectorsCount := Add64(store.readSectorsCount, BioSectors(bio.size));
    } else if bio.op == REQ_OP_WRITE {
      store.writeQueryCount := Add64(store.writeQueryCount, 1);
      store.writeSectorsCount := Add64(store.writeSectorsCount, BioSectors(bio.size));
    } else {
      return Kill;
    }
    k.SubmitBio(bio);
    return Submitted;
  }

  /** A construction on "/dev/sdb 0", one read of 16 sectors and one write of
      8 sectors, then a status query. */
  method ReadWriteSession() returns (report: Report, submitted: nat)
    ensures report == Report(1, 8192, 1, 4096, 2, 6144)
    ensures submitted == 2
  {
    var k := new Kernel(map["/dev/sdb" := BlockDevice(1)]);
    var store := new CounterStore();
    var ti := new DmTarget();
    ParseDecimal("", 0, "");
    assert "" + Decimal(0) + "" == "0";
    var rc := Ctr(ti, ["/dev/sdb", "0"], k, true);
    var rd := new Bio(REQ_OP_READ, 100, 16 * 512, BlockDevice(7));
    var r1 := Map(ti, rd, store, k);
    var wr := new Bio(REQ_OP_WRITE, 200, 8 * 512, BlockDevice(7));
    var r2 := Map(ti, wr, store, k);
    report := store.Show();
    submitted := |k.submitted|;
  }

  /** A flush (operation code 2) is killed: nothing is counted or submitted. */
  method FlushSession() returns (r: MapResult, report: Report, submitted: nat)
    ensures r == Kill
    ensures report == Report(0, 0, 0, 0, 0, 0)
    ensures submitted == 0
  {
    var k := new Kernel(map["/dev/sdb" := BlockDevice(1)]);
    var store := new CounterStore();
    var ti := new DmTarget();
    ParseDecimal("", 0, "");
    assert "" + Decimal(0) + "" == "0";
    var rc := Ctr(ti, ["/dev/sdb", "0"], k, true);
    var fl := new Bio(2, 0, 0, BlockDevice(7));
    r := Map(ti, fl, store, k);
    report := store.Show();
    submitted := |k.submitted|;
  }
}
