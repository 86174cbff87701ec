/** Drive detection: which lines of `lsblk -o NAME,SIZE,FSTYPE,UUID,LABEL,MOUNTPOINT -n -l`
    become drives the operator may configure a mount for. */
module Drives {
  import opened Wrappers
  import opened Text

  datatype Drive = Drive(device: string, size: string, fstype: string, uuid: string, fsLabel: string)

  /** Filesystem types that are never offered: swap, RAID members and LVM members. */
  const ExcludedFsTypes: seq<string> := ["swap", "linux_raid_member", "LVM2_member"]

  /** `parts[i] if len(parts) > i else ''` */
  function FieldAt(parts: seq<string>, i: nat): string {
    if i < |parts| then parts[i] else ""
  }

  /** One lsblk line as `detect_drives` reads it: the columns are the
      whitespace-separated words of the line, taken by position. */
  function ParseLine(line: string): (r: Option<Drive>)
    ensures r.Some? ==> r.value.fstype != "" && r.value.fstype !in ExcludedFsTypes
    ensures r.Some? ==> IsPrefix("/dev/", r.value.device)
    ensures r.Some? ==> FieldAt(Fields(line), 5) == ""
  {
    if Strip(line) == "" then None
    else
      var parts := Fields(line);
      if |parts| < 2 then None
      else
        var fstype, mountpoint := FieldAt(parts, 2), FieldAt(parts, 5);
        if mountpoint != "" || fstype == "" then None
        else if fstype in ExcludedFsTypes then None
        else
          assert ("/dev/" + parts[0])[..5] == "/dev/";
          Some(Drive("/dev/" + parts[0], parts[1], fstype, FieldAt(parts, 3), FieldAt(parts, 4)))
  }

  /** The drives found in a sequence of lines, in line order. */
  function ParsedDrives(lines: seq<string>): (ds: seq<Drive>)
    ensures |ds| <= |lines|
    ensures forall d :: d in ds ==> d.fstype != "" && d.fstype !in ExcludedFsTypes
  {
    if lines == [] then []
    else
      ParsedDrives(lines[..|lines| - 1]) +
      match ParseLine(lines[|lines| - 1])
      case Some(d) => [d]
      case None => []
  }

  /** The drive list for the whole `lsblk` output: `stdout.strip().split('\n')`. */
  function DrivesOf(stdout: string): seq<Drive> {
    ParsedDrives(SplitOn(Strip(stdout), '\n'))
  }

  /** What lsblk knows about a block device, one entry per requested column;
      a column the device has no value for is empty. */
  datatype Row = Row(name: string, size: string, fstype: string, uuid: string, fsLabel: string,
                     mountpoint: string)

  /** The `-l` line lsblk prints for a row: the columns separated by blanks, an
      empty column leaving only its blanks. */
  function Render(r: Row): string {
    r.name + " " + (r.size + " " + (r.fstype + " " + (r.uuid + " " + (r.fsLabel + " " + r.mountpoint))))
  }

  predicate WellFormed(r: Row) {
    r.name != "" && r.size != "" &&
    NoSpace(r.name) && NoSpace(r.size) && NoSpace(r.fstype) && NoSpace(r.uuid) &&
    NoSpace(r.fsLabel) && NoSpace(r.mountpoint)
  }

  /** The empty columns of the row all come after its non-empty ones. */
  predicate EmptiesTrail(r: Row) {
    (r.fstype == "" ==> r.uuid == "") && (r.uuid == "" ==> r.fsLabel == "") &&
    (r.fsLabel == "" ==> r.mountpoint == "")
  }

  function NonEmpty(w: string): seq<string> {
    if w == "" then [] else [w]
  }

  /** The words of a rendered row are its non-empty columns, in order. */
  lemma RenderFields(r: Row)
    requires WellFormed(r)
    ensures Fields(Render(r)) ==
              [r.name, r.size] + NonEmpty(r.fstype) + NonEmpty(r.uuid) + NonEmpty(r.fsLabel) +
              NonEmpty(r.mountpoint)
  {
    FieldsOfSpaced(r.fsLabel, r.mountpoint);
    FieldsOfWord(r.mountpoint);
    FieldsOfSpaced(r.uuid, r.fsLabel + " " + r.mountpoint);
    FieldsOfSpaced(r.fstype, r.uuid + " " + (r.fsLabel + " " + r.mountpoint));
    FieldsOfSpaced(r.size, r.fstype + " " + (r.uuid + " " + (r.fsLabel + " " + r.mountpoint)));
    FieldsOfSpaced(r.name, r.size + " " + (r.fstype + " " + (r.uuid + " " + (r.fsLabel + " " + r.mountpoint))));
  }

  /** The drive an lsblk row should yield: it is offered exactly when it is
      not mounted and carries an eligible filesystem, with its columns read by
      name rather than by word position. */
  function RowDrive(r: Row): (d: Option<Drive>)
    ensures d.Some? <==> r.mountpoint == "" && r.fstype != "" && r.fstype !in ExcludedFsTypes
    ensures d.Some? ==> d.value.device == "/dev/" + r.name && d.value.fstype == r.fstype &&
                        d.value.uuid == r.uuid && d.value.fsLabel == r.fsLabel && d.value.size == r.size
  {
    if r.mountpoint != "" || r.fstype == "" || r.fstype in ExcludedFsTypes then None
    else Some(Drive("/dev/" + r.name, r.size, r.fstype, r.uuid, r.fsLabel))
  }

  /** Reading columns by word position is right as long as no column before
      a non-empty one is empty. */
  lemma ParseLineAgreesWhenEmptiesTrail(r: Row)
    requires WellFormed(r) && EmptiesTrail(r)
    ensures ParseLine(Render(r)) == RowDrive(r)
  {
    RenderFields(r);
    StripKeepsLeadingWord(Render(r));
  }

  /** A mounted partition without a label is offered as an unmounted drive:
      its mount point is read as the label and the mount-point column as empty. */
  lemma MountedUnlabeledListed(r: Row)
    requires WellFormed(r) && r.fstype != "" && r.fstype !in ExcludedFsTypes && r.uuid != ""
    requires r.fsLabel == "" && r.mountpoint != ""
    ensures RowDrive(r) == None
    ensures ParseLine(Render(r)) == Some(Drive("/dev/" + r.name, r.size, r.fstype, r.uuid, r.mountpoint))
  {
    RenderFields(r);
    StripKeepsLeadingWord(Render(r));
  }
}
