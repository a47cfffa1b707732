# dmp: a device-mapper proxy target, modelled in Dafny

`dmp.c` is a Linux device-mapper target that passes every read and write bio
through to one backing device and fails every other bio with `DM_MAPIO_KILL`.
It counts read and write requests, and their sectors, in one
global record, and a sysfs attribute reports the totals and the average
request size. This project models that target sequentially and proves
properties of the model:

- `types.dfy` (module `Types`) holds the machine integers: `unsigned long long`
  as `u64` with 64-bit wrap-around written out (`Wrap64`, `Add64`, `Mul64`),
  and `unsigned int` as `u32`.
- `scan.dfy` (module `Scan`) is the kernel's `sscanf(arg, "%llu", &start)`
  that the constructor calls. It skips white space, needs one or more decimal
  digits, converts the longest run of digits modulo 2^64 and ignores whatever
  follows. A round-trip lemma ties it to decimal rendering.
- `stats.dfy` (module `Stats`) holds the counter record `struct statistics`:
  - as a value (`Snapshot`) and as the mutable global `dmp_stat`
    (`CounterStore`, a class with the four fields);
  - the three-way switch of the map path (`Classify`, giving `Direction`);
  - the effect of one bio on the record (`Account`) and of a series of bios
    (`Replay`);
  - the arithmetic of `dmp_stat_show` (`AvgBlockSize`, `StatShow`, six values
    in `Report`) and `dmp_stat_store`.
- `target.dfy` (module `Target`) holds the constructor, destructor and map
  function (`Ctr`, `Dtr`, `Map`). They act on `DmTarget` (`struct dm_target`),
  `Context` (`struct my_dm_target`) and `Bio`, and on a `Kernel` object that
  stands for the kernel services they call:
  - `kmalloc`/`kfree` change the set of live contexts;
  - `dm_get_device`/`dm_put_device` change a multiset of held device
    references;
  - `submit_bio` appends to a sequence of submitted bios.

  Whether `kmalloc` finds memory is a parameter of `Ctr`. Which device paths
  `dm_get_device` can resolve is fixed when the `Kernel` is created.

The counters are one record shared by every dmp target of the module, as in
the code, so `Map` takes the one `CounterStore` as an argument. They are not
one record per target. All counter arithmetic wraps modulo 2^64, as in C.
This includes `read_sectors_count * SECTOR_SIZE`, which wraps before the
division once a sector count reaches 2^55. The counter updates, the
per-direction averages and the combined average are each stated in their
wrapped form and also in their exact form where no sum reaches 2^64
(`ShowCombinedWraps` exhibits the wrapped combined average). `Mul64` and
`AccountMonotone` are stated only for the case where nothing wraps. The
combined average is kept exactly as the code computes it: the mean of the two
per-direction averages, not an average weighted by sectors
(`ShowIsNotWeighted` shows that the two differ).

## Model

| member | source | states |
|---|---|---|
| Types.Add64 | dmp.c:193-201 | `+=` on an `unsigned long long` counter is exact below 2^64 and otherwise wraps once |
| Types.Mul64 | dmp.c:52 | the product `sectors * SECTOR_SIZE` is exact while it stays below 2^64 |
| Scan.ParseULL | dmp.c:145 | `sscanf("%llu")` yields a number exactly when, after white space, the text starts with a decimal digit |
| Scan.SkippedAreSpaces | dmp.c:145 | the white space skipped before the number is a prefix made only of white space; the rest is kept unchanged |
| Scan.ParseDecimal | dmp.c:145 | any 64-bit start sector written in decimal, with leading white space and trailing non-digits, is read back unchanged |
| Scan.ParseRejects | dmp.c:145-149 | text whose first character after white space is not a digit is refused, so the constructor fails there |
| Stats.BioSectors | dmp.c:194 | `bio_sectors`: the number of whole 512-byte sectors in the bio's byte size |
| Stats.Classify | dmp.c:189-207 | read exactly for REQ_OP_READ, write exactly for REQ_OP_WRITE, unsupported for every other code; the sectors are `bio_sectors` |
| Stats.Account | dmp.c:189-206 | a read adds 1 to the read requests and its sectors to the read sectors, modulo 2^64, and leaves both write counters; a write does the mirror; an unsupported bio changes nothing |
| Stats.Replay | dmp.c:189-206 | the counters after a series of bios, one `Account` step per bio in order; a series of unsupported bios leaves them unchanged |
| Stats.ReplayCounts | dmp.c:189-203 | after any series of bios, each request counter has grown by the number of bios of its direction and each sector counter by their sectors, modulo 2^64; unsupported bios add nothing |
| Stats.CountsFromZero | dmp.c:29-35 | from the zero record, with no total reaching 2^64, the counters equal the read and write counts and their sector totals exactly |
| Stats.AccountMonotone | dmp.c:193-201 | no counter decreases as long as the two counters the bio adds to do not wrap |
| Stats.AvgBlockSize | dmp.c:50-62 | a direction's average is 0 with no request; otherwise it is the floor of (sectors*512 mod 2^64)/requests, which is the exact floor of sectors*512/requests when the product fits; no division by zero |
| Stats.StatShow | dmp.c:50-72 | the six values are read reqs, read avg, write reqs, write avg, total reqs and total avg; total reqs is the 64-bit sum of the two counts; total avg is 0 when total reqs is 0; otherwise, when the two averages sum below 2^64, it is the floor of their mean and lies between them, and when they sum to 2^64 or more it is the floor of (sum - 2^64)/2 |
| Stats.ShowCombinedWraps | dmp.c:64-69 | two averages of 2^64 - 512 give a combined average of 2^63 - 512, below both, because their 64-bit sum wraps |
| Stats.ShowInitial | dmp.c:29-72 | on the zero record every reported value is 0 |
| Stats.ShowOneDirection | dmp.c:64-72 | with reads only, the combined average is half the read average |
| Stats.ShowReadAndWrite | dmp.c:50-72 | one 16-sector read and one 8-sector write report (1, 8192, 1, 4096, 2, 6144) |
| Stats.ShowIsNotWeighted | dmp.c:67-69 | the combined average is not the sector-weighted average: 6144 against 5120 for one 16-sector read and three 8-sector writes |
| Stats.StatStore | dmp.c:99-105 | writing to the attribute returns `count` and changes nothing |
| Stats.CounterStore.constructor | dmp.c:29-35 | the counter record starts with all four counters 0 |
| Stats.CounterStore.Show | dmp.c:37-97 | the status query reports the computation on the current counters and modifies nothing |
| Target.Ctr | dmp.c:119-167 | two arguments are required (else -EINVAL); allocation failure gives -ENOMEM; a bad start sector or an unknown device gives -EINVAL with the context freed; error strings as in the code; on failure no allocation or reference remains; on success exactly one new context holding the device and the parsed start is in `ti->private`, and exactly one device reference is taken |
| Target.Dtr | dmp.c:170-177 | releases the target's one device reference and frees its context; afterwards the target is no longer bound, so it cannot be destroyed twice |
| Target.CtrThenDtr | dmp.c:119-177 | a construction followed, when it succeeds, by the destruction leaves exactly the allocations and references there were before |
| Target.Map | dmp.c:179-214 | the bio is retargeted to the backing device, with sector and size unchanged and the start not added. A read adds 1 to the read requests and `bio_sectors` to the read sectors and leaves the write counters alone; a write does the same for the write counters. Both are submitted once and give DM_MAPIO_SUBMITTED. Any other operation gives DM_MAPIO_KILL, changes no counter and is not submitted. The target stays bound and no allocation or reference changes |
| Target.ReadWriteSession | dmp.c:119-214 | constructing on "/dev/sdb 0", mapping a 16-sector read and an 8-sector write, then querying gives (1, 8192, 1, 4096, 2, 6144), with two bios submitted |
| Target.FlushSession | dmp.c:205-206 | a flush bio is killed; nothing is counted or submitted |

## Left out

- Locking: `stat_rwlock` and all concurrency (dmp.c:13, 48, 74, 187, 209). Each operation is modelled as one sequential, atomic step. The code has two lock defects that the model does not show:
  - the `default:` branch of `dmp_map` returns DM_MAPIO_KILL while still holding the write lock (dmp.c:205-206), so the next map or status query on any CPU spins forever;
  - `dmp_stat_show` reads `read_query_count` and `write_query_count` for `sprintf` after `read_unlock` (dmp.c:74, 89-92), so a concurrent map can make the printed counts disagree with the printed averages and total.
- Text layout: the format string of `dmp_stat_show` (dmp.c:76-87) and the character count `sprintf` returns. The output is modelled as the ordered six values of `Report`.
- Logging: all `printk` calls.
- Stats.StatStore: returns `count` unchanged; the `ssize_t` result type of the C function would make a count of 2^63 or more negative, which sysfs never passes (it writes at most one page).
- Host plumbing: the sysfs attribute, target and module registration and teardown (dmp.c:107-108, 216-270).
- Kernel internals: the bodies of `kmalloc`, `kfree`, `dm_get_device`, `dm_put_device`, `bio_set_dev`, `submit_bio` and the kernel's `vsscanf` are not part of this model. They are represented by the state changes they make.
  - `dm_get_device` succeeds exactly for the paths the `Kernel` was created with. Its mode argument (`dm_table_get_mode`) and its other failure causes are folded into "path not known".
  - `kmalloc` memory is not left uninitialised: a fresh `Context` starts with no device and start 0. The code overwrites both before any use.
- Target.Map: requires a target that was constructed and not yet destroyed (`Bound`: its context is live and holds its device reference), because the device-mapper core calls the map function only on a target whose constructor succeeded and before its destructor runs.
- Target.Dtr: requires a bound target for the same reason. The code does not reset `ti->private`, so calling it twice would free the context twice. The model rules that out, because the context is no longer live.
