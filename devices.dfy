/** The keep/drop policy of `Smart._list_devices` over the entries of /sys/block. */
module DeviceFilter {
  import opened Wrappers

  /** What `_list_devices` reads for one /sys/block entry: whether it has a
      `device` directory, `device/type` (None when the file is missing), `size`
      and `removable` (None when it cannot be read or parsed). */
  datatype SysBlockEntry = SysBlockEntry(
    name: string,
    hasDeviceDir: bool,
    scsiType: Option<int>,
    size: int,
    removable: Option<int>)

  /** The filters in force: the resolved -D and -X paths, whether -D was given
      at all, and --skip-removable. */
  datatype Selection = Selection(
    selected: seq<string>,
    excluded: seq<string>,
    includeGiven: bool,
    skipRemovable: bool)

  /** `pathlib.Path("/dev") / path.name` */
  function DevPath(e: SysBlockEntry): string
  {
    "/dev/" + e.name
  }

  /** An entry is kept when it is a block device with a disk SCSI type (a
      missing type file counts as a disk), a non-zero size, not flagged
      removable when removable devices are skipped, not excluded, and, when an
      include list was given, on it. */
  predicate Keep(e: SysBlockEntry, sel: Selection)
  {
    && e.hasDeviceDir
    && !(sel.skipRemovable && e.removable == Some(1))
    && e.scsiType.GetOr(0) == 0
    && e.size != 0
    && DevPath(e) !in sel.excluded
    && (!sel.includeGiven || DevPath(e) in sel.selected)
  }

  /** The device paths of the kept entries, in directory order. */
  function KeptPaths(entries: seq<SysBlockEntry>, sel: Selection): (r: seq<string>)
    ensures |r| <= |entries|
    decreases |entries|
  {
    if entries == [] then []
    else
      var e := entries[|entries| - 1];
      KeptPaths(entries[..|entries| - 1], sel) + (if Keep(e, sel) then [DevPath(e)] else [])
  }

  /** A path is listed exactly when some entry with that path is kept. */
  lemma {:induction false} KeptPathsIff(entries: seq<SysBlockEntry>, sel: Selection, d: string)
    ensures d in KeptPaths(entries, sel) <==> exists e :: e in entries && Keep(e, sel) && DevPath(e) == d
    decreases |entries|
  {
    if entries != [] {
      var init := entries[..|entries| - 1];
      var e := entries[|entries| - 1];
      KeptPathsIff(init, sel, d);
      assert entries == init + [e];
      if exists x :: x in entries && Keep(x, sel) && DevPath(x) == d {
        var x :| x in entries && Keep(x, sel) && DevPath(x) == d;
        if x != e {
          assert x in init;
        }
      }
    }
  }
}
