/** `apply_mount_configs`: the mount options, the fstab line and the commands
    that provision each configured drive, as pure functions of the
    configurations, the user, the fstab contents and the exit statuses. */
module Mounts {
  import opened Text
  import opened Commands
  import opened Plan

  /** One entry of `mount_configs`; a missing uuid is "". */
  datatype MountConfig = MountConfig(device: string, mountPoint: string, fstype: string, uuid: string)

  /** The account that gets the mount points: `SUDO_USER`, else `USER`, else root. */
  function MountUser(env: map<string, string>): string {
    if "SUDO_USER" in env then env["SUDO_USER"] else if "USER" in env then env["USER"] else "root"
  }

  /** File systems without Unix ownership, mounted on behalf of the user. */
  predicate Owned(fstype: string) {
    fstype == "ntfs" || fstype == "ntfs3" || fstype == "exfat"
  }

  /** The fstab options for a file system type; `uid` and `gid` are what `id -u`
      and `id -g` print for the user. */
  function MountOptions(fstype: string, uid: string, gid: string): string {
    var owner := "uid=" + uid + ",gid=" + gid + ",dmask=022,fmask=133";
    if fstype == "ntfs" || fstype == "ntfs3" then owner + ",windows_names,nofail"
    else if fstype == "exfat" then owner + ",nofail"
    else "defaults,nofail"
  }

  /** Every entry is `nofail`, so a missing drive never blocks booting; only
      the types without Unix ownership get the user's ids, and only NTFS gets
      `windows_names`. */
  lemma MountOptionsShape(fstype: string, uid: string, gid: string)
    ensures var o := MountOptions(fstype, uid, gid);
      IsSuffix(",nofail", o) &&
      (IsPrefix("uid=" + uid + ",gid=" + gid + ",dmask=022,fmask=133", o) <==> Owned(fstype)) &&
      (IsSuffix(",windows_names,nofail", o) <==> fstype == "ntfs" || fstype == "ntfs3")
  {
    var owner := "uid=" + uid + ",gid=" + gid + ",dmask=022,fmask=133";
    var o := MountOptions(fstype, uid, gid);
    if fstype == "ntfs" || fstype == "ntfs3" {
      SuffixOfAppend(owner, ",windows_names", ",nofail");
      assert o[|o| - 21..] == ",windows_names,nofail";
    } else if fstype == "exfat" {
      assert o[|o| - 7..] == ",nofail";
      assert o[|o| - 8] == '3';
      assert |o| >= 21 ==> o[|o| - 21..][13] == o[|o| - 8];
    }
  }

  lemma SuffixOfAppend(a: string, b: string, c: string)
    ensures a + b + c == a + (b + c)
    ensures (a + (b + c))[|a + (b + c)| - |c|..] == c
  {
  }

  /** With ids free of whitespace the options are one word. */
  lemma MountOptionsWord(fstype: string, uid: string, gid: string)
    requires NoSpace(uid) && NoSpace(gid)
    ensures NoSpace(MountOptions(fstype, uid, gid)) && MountOptions(fstype, uid, gid) != ""
  {
    NoSpaceAppend("uid=", uid);
    NoSpaceAppend("uid=" + uid, ",gid=");
    NoSpaceAppend("uid=" + uid + ",gid=", gid);
    NoSpaceAppend("uid=" + uid + ",gid=" + gid, ",dmask=022,fmask=133");
    NoSpaceAppend("uid=" + uid + ",gid=" + gid + ",dmask=022,fmask=133", ",windows_names,nofail");
    NoSpaceAppend("uid=" + uid + ",gid=" + gid + ",dmask=022,fmask=133", ",nofail");
  }

  lemma NoSpaceAppend(a: string, b: string)
    requires NoSpace(a) && NoSpace(b)
    ensures NoSpace(a + b)
  {
    forall i | 0 <= i < |a + b| ensures !IsSpace((a + b)[i]) {
      if i < |a| {
        assert (a + b)[i] == a[i];
      } else {
        assert (a + b)[i] == b[i - |a|];
      }
    }
  }

  /** The first field of the fstab line: `UUID=<uuid>` when the uuid is known,
      the device otherwise. */
  function EntrySource(cfg: MountConfig): string {
    if cfg.uuid != "" then "UUID=" + cfg.uuid else cfg.device
  }

  /** The fstab line of a configuration: source, mount point, type, options,
      no dump, checked after the root file system. It names its mount point. */
  function FstabEntry(cfg: MountConfig, options: string): string {
    EntrySource(cfg) + " " + cfg.mountPoint + " " + cfg.fstype + " " + options + " 0 2"
  }

  /** The fstab line names its mount point. */
  lemma FstabEntryNamesMountPoint(cfg: MountConfig, options: string)
    ensures Contains(FstabEntry(cfg, options), cfg.mountPoint)
  {
    var e := FstabEntry(cfg, options);
    assert e == (EntrySource(cfg) + " ") + cfg.mountPoint + (" " + cfg.fstype + " " + options + " 0 2");
    ContainsPiece(EntrySource(cfg) + " ", cfg.mountPoint, " " + cfg.fstype + " " + options + " 0 2");
  }

  /** An fstab line whose parts are single words splits back into exactly the
      six fields the `mount` program reads. */
  lemma FstabEntryFields(cfg: MountConfig, options: string)
    requires EntrySource(cfg) != "" && NoSpace(EntrySource(cfg))
    requires cfg.mountPoint != "" && NoSpace(cfg.mountPoint)
    requires cfg.fstype != "" && NoSpace(cfg.fstype)
    requires options != "" && NoSpace(options)
    ensures Fields(FstabEntry(cfg, options)) == [EntrySource(cfg), cfg.mountPoint, cfg.fstype, options, "0", "2"]
  {
    var src, mp, fs := EntrySource(cfg), cfg.mountPoint, cfg.fstype;
    var tail := "0" + " " + "2";
    assert FstabEntry(cfg, options) == src + " " + (mp + " " + (fs + " " + (options + " " + tail)));
    FieldsOfWord("2");
    FieldsOfSpaced("0", "2");
    FieldsOfSpaced(options, tail);
    FieldsOfSpaced(fs, options + " " + tail);
    FieldsOfSpaced(mp, fs + " " + (options + " " + tail));
    FieldsOfSpaced(src, mp + " " + (fs + " " + (options + " " + tail)));
  }

  // ---- the commands ----

  const Backup: Command := Command("cp", ["/etc/fstab", "/etc/fstab.backup.$(date +%Y%m%d%H%M%S)"], true)

  function MakeDir(mp: string): Command {
    Command("mkdir -p", [mp], true)
  }

  function Chown(user: string, mp: string): Command {
    Command("chown", [user + ":" + user, mp], true)
  }

  /** `echo '<line>' >> /etc/fstab`; when it succeeds the file gains the line
      and a newline. */
  function AppendLine(entry: string): Command {
    Command("echo '" + entry + "' >> /etc/fstab", [], true)
  }

  function MountCmd(mp: string): Command {
    Command("mount", [mp], true)
  }

  /** The commands issued for one drive, each named by its fixed part. */
  predicate DeviceCommand(c: Command) {
    c.program == "mkdir -p" || c.program == "chown" || c.program == "mount" || IsPrefix("echo '", c.program)
  }

  // ---- apply_mount_configs ----

  /** Events together with the fstab contents afterwards. */
  datatype Mounted = Mounted(events: seq<Event>, fstab: string)

  /** The fstab line of a configuration for the given user ids. */
  function EntryFor(cfg: MountConfig, uid: string, gid: string): string {
    FstabEntry(cfg, MountOptions(cfg.fstype, uid, gid))
  }

  /** The start of one configuration: create the mount point and give it to the user. */
  function Prepare(cfg: MountConfig, user: string): seq<Event> {
    [Log("\n[+] Setting up mount: " + cfg.device + " -> " + cfg.mountPoint),
     Run(MakeDir(cfg.mountPoint)), Run(Chown(user, cfg.mountPoint))]
  }

  /** The fstab step: append the line, or report the mount point as present. */
  function Record(mp: string, entry: string, add: bool): seq<Event> {
    if add then [Log("[+] Adding to /etc/fstab: " + entry), Run(AppendLine(entry))]
    else [Log("[!] Mount point " + mp + " already in fstab")]
  }

  function MountEvents(mp: string): seq<Event> {
    [Log("[+] Mounting " + mp + "..."), Run(MountCmd(mp))]
  }

  /** One configuration: create and chown the mount point, append the line
      unless the mount point already occurs anywhere in fstab, then mount. */
  function SetupMount(cfg: MountConfig, user: string, uid: string, gid: string, fstab: string,
                      exitOk: Command -> bool): Mounted
  {
    var entry := EntryFor(cfg, uid, gid);
    var add := !Contains(fstab, cfg.mountPoint);
    Mounted(Prepare(cfg, user) + Record(cfg.mountPoint, entry, add) + MountEvents(cfg.mountPoint),
            if add && exitOk(AppendLine(entry)) then fstab + entry + "\n" else fstab)
  }

  /** The configurations in order, each seeing the fstab the previous ones left. */
  function SetupAll(cfgs: seq<MountConfig>, user: string, uid: string, gid: string, fstab: string,
                    exitOk: Command -> bool): Mounted
    decreases |cfgs|
  {
    if cfgs == [] then Mounted([], fstab)
    else
      var prev := SetupAll(cfgs[..|cfgs| - 1], user, uid, gid, fstab, exitOk);
      var last := SetupMount(cfgs[|cfgs| - 1], user, uid, gid, prev.fstab, exitOk);
      Mounted(prev.events + last.events, last.fstab)
  }

  const BackupEvents: seq<Event> := [Log("[+] Backing up /etc/fstab..."), Run(Backup)]

  /** `apply_mount_configs`: nothing without configurations; otherwise the
      banner, the fstab backup, then each configuration. */
  function ApplyMounts(cfgs: seq<MountConfig>, user: string, uid: string, gid: string, fstab: string,
                       exitOk: Command -> bool): Mounted
  {
    if cfgs == [] then Mounted([], fstab)
    else
      var all := SetupAll(cfgs, user, uid, gid, fstab, exitOk);
      Mounted(Banner("Configuring Drive Mounts") + BackupEvents + all.events, all.fstab)
  }
}
