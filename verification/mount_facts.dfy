/** Properties of `apply_mount_configs`: what one configuration issues, how
    fstab grows, idempotence, and the place of the backup. */
module MountFacts {
  import opened Text
  import opened Commands
  import opened Plan
  import opened Mounts

  /** The commands of one configuration: mkdir, chown, the append when the
      mount point does not occur in fstab yet, and mount. */
  lemma SetupMountRuns(cfg: MountConfig, user: string, uid: string, gid: string, fstab: string,
                       exitOk: Command -> bool)
    ensures var mp := cfg.mountPoint;
      Runs(SetupMount(cfg, user, uid, gid, fstab, exitOk).events) ==
        [MakeDir(mp), Chown(user, mp)] +
        (if !Contains(fstab, mp) then [AppendLine(EntryFor(cfg, uid, gid))] else []) +
        [MountCmd(mp)]
  {
    var entry := EntryFor(cfg, uid, gid);
    var mp := cfg.mountPoint;
    var add := !Contains(fstab, mp);
    var head, mid, tail := Prepare(cfg, user), Record(mp, entry, add), MountEvents(mp);
    assert SetupMount(cfg, user, uid, gid, fstab, exitOk).events == head + mid + tail;
    RunsAppend(head + mid, tail);
    RunsAppend(head, mid);
    PrepareRuns(cfg, user);
    RecordRuns(mp, entry, add);
    RunsOfRun("[+] Mounting " + mp + "...", MountCmd(mp));
  }

  lemma PrepareRuns(cfg: MountConfig, user: string)
    ensures Runs(Prepare(cfg, user)) == [MakeDir(cfg.mountPoint), Chown(user, cfg.mountPoint)]
  {
    var head := Prepare(cfg, user);
    RunsThree(head[0], head[1], head[2]);
    RunsOne(head[0]);
    RunsOne(head[1]);
    RunsOne(head[2]);
  }

  lemma RecordRuns(mp: string, entry: string, add: bool)
    ensures Runs(Record(mp, entry, add)) == if add then [AppendLine(entry)] else []
  {
    if add {
      RunsOfRun("[+] Adding to /etc/fstab: " + entry, AppendLine(entry));
    } else {
      RunsOne(Log("[!] Mount point " + mp + " already in fstab"));
    }
  }

  /** One configuration leaves fstab as it was or adds its line and a newline;
      it adds it exactly when the mount point did not occur in fstab and the
      append succeeded. Afterwards the mount point occurs in fstab exactly when
      it did before or the append succeeded. An empty mount point occurs in
      every text, so it is never added. */
  lemma SetupMountFstab(cfg: MountConfig, user: string, uid: string, gid: string, fstab: string,
                        exitOk: Command -> bool)
    ensures var r := SetupMount(cfg, user, uid, gid, fstab, exitOk).fstab;
      var entry := EntryFor(cfg, uid, gid);
      var mp := cfg.mountPoint;
      (r == fstab || r == fstab + entry + "\n") &&
      (r != fstab <==> !Contains(fstab, mp) && exitOk(AppendLine(entry))) &&
      (Contains(r, mp) <==> Contains(fstab, mp) || exitOk(AppendLine(entry))) &&
      (mp == "" ==> r == fstab)
  {
    var entry := EntryFor(cfg, uid, gid);
    var mp := cfg.mountPoint;
    if !Contains(fstab, mp) && exitOk(AppendLine(entry)) {
      FstabEntryNamesMountPoint(cfg, MountOptions(cfg.fstype, uid, gid));
      ContainsInRight(fstab, entry, mp);
      ContainsInLeft(fstab + entry, "\n", mp);
      assert |fstab + entry + "\n"| > |fstab|;
    }
  }

  /** Text that occurs in a prefix of a string occurs in the string. */
  lemma ContainsGrows(a: string, b: string, needle: string)
    requires IsPrefix(a, b) && Contains(a, needle)
    ensures Contains(b, needle)
  {
    assert b == a + b[|a|..];
    ContainsInLeft(a, b[|a|..], needle);
  }

  /** The mount setup only appends to fstab, never rewrites it. */
  lemma {:induction false} SetupAllGrows(cfgs: seq<MountConfig>, user: string, uid: string, gid: string,
                                         fstab: string, exitOk: Command -> bool)
    ensures IsPrefix(fstab, SetupAll(cfgs, user, uid, gid, fstab, exitOk).fstab)
    decreases |cfgs|
  {
    if cfgs != [] {
      var prev := SetupAll(cfgs[..|cfgs| - 1], user, uid, gid, fstab, exitOk);
      SetupAllGrows(cfgs[..|cfgs| - 1], user, uid, gid, fstab, exitOk);
      SetupMountFstab(cfgs[|cfgs| - 1], user, uid, gid, prev.fstab, exitOk);
      var r := SetupAll(cfgs, user, uid, gid, fstab, exitOk).fstab;
      assert r[..|prev.fstab|] == prev.fstab;
      assert r[..|fstab|] == prev.fstab[..|fstab|];
    }
  }

  /** Every mount point of the configurations occurs in fstab. */
  predicate Settled(cfgs: seq<MountConfig>, fstab: string) {
    forall i :: 0 <= i < |cfgs| ==> Contains(fstab, cfgs[i].mountPoint)
  }

  /** Every configuration's append would succeed. */
  predicate AppendsSucceed(cfgs: seq<MountConfig>, uid: string, gid: string, exitOk: Command -> bool) {
    forall i :: 0 <= i < |cfgs| ==> exitOk(AppendLine(EntryFor(cfgs[i], uid, gid)))
  }

  /** When the appends succeed, every mount point occurs in fstab afterwards. */
  lemma SetupAllSettles(cfgs: seq<MountConfig>, user: string, uid: string, gid: string,
                        fstab: string, exitOk: Command -> bool)
    requires AppendsSucceed(cfgs, uid, gid, exitOk)
    ensures Settled(cfgs, SetupAll(cfgs, user, uid, gid, fstab, exitOk).fstab)
  {
    forall k | 0 <= k < |cfgs| ensures Contains(SetupAll(cfgs, user, uid, gid, fstab, exitOk).fstab, cfgs[k].mountPoint) {
      SucceededStays(cfgs, user, uid, gid, fstab, exitOk, k);
    }
  }

  lemma PrefixOfGrown(a: string, r: string, tail: string)
    requires r == a || r == a + tail
    ensures IsPrefix(a, r)
  {
    if r != a {
      assert (a + tail)[..|a|] == a;
    }
  }

  /** The append commands, recognised by their fixed part. */
  predicate IsAppend(c: Command) {
    IsPrefix("echo '", c.program)
  }

  /** On an fstab that already names every mount point, the setup appends
      nothing and issues no append. */
  lemma {:induction false} SettledSetupAll(cfgs: seq<MountConfig>, user: string, uid: string, gid: string,
                                           fstab: string, exitOk: Command -> bool)
    requires Settled(cfgs, fstab)
    ensures SetupAll(cfgs, user, uid, gid, fstab, exitOk).fstab == fstab
    ensures forall c :: c in Runs(SetupAll(cfgs, user, uid, gid, fstab, exitOk).events) ==> !IsAppend(c)
    decreases |cfgs|
  {
    if cfgs != [] {
      var init := cfgs[..|cfgs| - 1];
      var last := cfgs[|cfgs| - 1];
      assert Settled(init, fstab) by {
        forall i | 0 <= i < |init| ensures Contains(fstab, init[i].mountPoint) {
          assert init[i] == cfgs[i];
        }
      }
      SettledSetupAll(init, user, uid, gid, fstab, exitOk);
      SetupAllSnoc(cfgs, user, uid, gid, fstab, exitOk);
      StepCommands(last, user, uid, gid, fstab, exitOk);
      SetupMountFstab(last, user, uid, gid, fstab, exitOk);
    }
  }

  /** The last configuration extends what the earlier ones did. */
  lemma SetupAllSnoc(cfgs: seq<MountConfig>, user: string, uid: string, gid: string, fstab: string,
                     exitOk: Command -> bool)
    requires cfgs != []
    ensures var prev := SetupAll(cfgs[..|cfgs| - 1], user, uid, gid, fstab, exitOk);
      var step := SetupMount(cfgs[|cfgs| - 1], user, uid, gid, prev.fstab, exitOk);
      Runs(SetupAll(cfgs, user, uid, gid, fstab, exitOk).events) == Runs(prev.events) + Runs(step.events) &&
      SetupAll(cfgs, user, uid, gid, fstab, exitOk).fstab == step.fstab
  {
    var prev := SetupAll(cfgs[..|cfgs| - 1], user, uid, gid, fstab, exitOk);
    var step := SetupMount(cfgs[|cfgs| - 1], user, uid, gid, prev.fstab, exitOk);
    RunsAppend(prev.events, step.events);
  }

  /** One configuration mounts its mount point, issues only per-drive
      commands, and no append when the mount point is already in fstab. */
  lemma StepCommands(cfg: MountConfig, user: string, uid: string, gid: string, fstab: string,
                     exitOk: Command -> bool)
    ensures var cs := Runs(SetupMount(cfg, user, uid, gid, fstab, exitOk).events);
      MountCmd(cfg.mountPoint) in cs &&
      (forall c :: c in cs ==> DeviceCommand(c)) &&
      (Contains(fstab, cfg.mountPoint) ==> forall c :: c in cs ==> !IsAppend(c))
  {
    SetupMountRuns(cfg, user, uid, gid, fstab, exitOk);
    var entry := EntryFor(cfg, uid, gid);
    DeviceCommandsOf(cfg.mountPoint, user, entry, if !Contains(fstab, cfg.mountPoint) then [AppendLine(entry)] else []);
  }

  /** The per-drive command list, with or without the append. */
  lemma DeviceCommandsOf(mp: string, user: string, entry: string, appends: seq<Command>)
    requires appends == [] || appends == [AppendLine(entry)]
    ensures var cs := [MakeDir(mp), Chown(user, mp)] + appends + [MountCmd(mp)];
      MountCmd(mp) in cs &&
      (forall c :: c in cs ==> DeviceCommand(c)) &&
      (appends == [] ==> forall c :: c in cs ==> !IsAppend(c))
  {
    var cs := [MakeDir(mp), Chown(user, mp)] + appends + [MountCmd(mp)];
    assert cs[|cs| - 1] == MountCmd(mp);
    assert IsPrefix("echo '", AppendLine(entry).program) by {
      assert AppendLine(entry).program == "echo '" + (entry + "' >> /etc/fstab");
    }
    assert !IsAppend(MakeDir(mp)) && !IsAppend(Chown(user, mp)) && !IsAppend(MountCmd(mp)) by {
      assert MakeDir(mp).program[0] == 'm';
    }
  }

  /** Applying the same configurations a second time changes nothing in fstab
      and appends nothing, whatever the second run's exit statuses, provided
      the first run's appends succeeded: the substring test makes
      `apply_mount_configs` idempotent. */
  lemma MountIdempotent(cfgs: seq<MountConfig>, user: string, uid: string, gid: string, fstab: string,
                        exitOk1: Command -> bool, exitOk2: Command -> bool)
    requires AppendsSucceed(cfgs, uid, gid, exitOk1)
    ensures var first := ApplyMounts(cfgs, user, uid, gid, fstab, exitOk1);
      var second := ApplyMounts(cfgs, user, uid, gid, first.fstab, exitOk2);
      second.fstab == first.fstab && forall c :: c in Runs(second.events) ==> !IsAppend(c)
  {
    if cfgs != [] {
      var first := ApplyMounts(cfgs, user, uid, gid, fstab, exitOk1);
      SetupAllSettles(cfgs, user, uid, gid, fstab, exitOk1);
      SettledSetupAll(cfgs, user, uid, gid, first.fstab, exitOk2);
      ApplyRuns(cfgs, user, uid, gid, first.fstab, exitOk2);
    }
  }

  /** Every append among `cs` is the line of one of `cfgs` whose mount point
      `fstab` lacks. */
  predicate AppendsOnlyMissing(cs: seq<Command>, cfgs: seq<MountConfig>, uid: string, gid: string, fstab: string) {
    forall c :: c in cs && IsAppend(c) ==>
      exists k :: 0 <= k < |cfgs| && c == AppendLine(EntryFor(cfgs[k], uid, gid)) && !Contains(fstab, cfgs[k].mountPoint)
  }

  /** The only append one configuration can issue is its own line, and only
      when its mount point is missing. */
  lemma StepAppends(cfg: MountConfig, user: string, uid: string, gid: string, fstab: string,
                    exitOk: Command -> bool)
    ensures forall c :: c in Runs(SetupMount(cfg, user, uid, gid, fstab, exitOk).events) && IsAppend(c) ==>
      c == AppendLine(EntryFor(cfg, uid, gid)) && !Contains(fstab, cfg.mountPoint)
  {
    SetupMountRuns(cfg, user, uid, gid, fstab, exitOk);
    var mp := cfg.mountPoint;
    assert !IsAppend(MakeDir(mp)) && !IsAppend(Chown(user, mp)) && !IsAppend(MountCmd(mp)) by {
      assert MakeDir(mp).program[0] == 'm';
    }
  }

  /** The drive loop appends only lines of configurations whose mount points
      the fstab it started from lacks, whatever the exit statuses. */
  lemma {:induction false} SetupAllAppends(cfgs: seq<MountConfig>, user: string, uid: string, gid: string,
                                           fstab: string, exitOk: Command -> bool)
    ensures AppendsOnlyMissing(Runs(SetupAll(cfgs, user, uid, gid, fstab, exitOk).events), cfgs, uid, gid, fstab)
    decreases |cfgs|
  {
    if cfgs != [] {
      var init, last := cfgs[..|cfgs| - 1], cfgs[|cfgs| - 1];
      var prev := SetupAll(init, user, uid, gid, fstab, exitOk);
      SetupAllAppends(init, user, uid, gid, fstab, exitOk);
      SetupAllSnoc(cfgs, user, uid, gid, fstab, exitOk);
      SetupAllGrows(init, user, uid, gid, fstab, exitOk);
      StepAppends(last, user, uid, gid, prev.fstab, exitOk);
      forall c | c in Runs(SetupAll(cfgs, user, uid, gid, fstab, exitOk).events) && IsAppend(c)
        ensures exists k :: 0 <= k < |cfgs| && c == AppendLine(EntryFor(cfgs[k], uid, gid)) &&
                            !Contains(fstab, cfgs[k].mountPoint)
      {
        if c in Runs(prev.events) {
          var k :| 0 <= k < |init| && c == AppendLine(EntryFor(init[k], uid, gid)) && !Contains(fstab, init[k].mountPoint);
          assert cfgs[k] == init[k];
        } else {
          if Contains(fstab, last.mountPoint) {
            ContainsGrows(fstab, prev.fstab, last.mountPoint);
          }
          assert cfgs[|cfgs| - 1] == last;
        }
      }
    }
  }

  /** A configuration whose append succeeds leaves its mount point in fstab
      for the rest of the run. */
  lemma {:induction false} SucceededStays(cfgs: seq<MountConfig>, user: string, uid: string, gid: string,
                                          fstab: string, exitOk: Command -> bool, k: nat)
    requires k < |cfgs| && exitOk(AppendLine(EntryFor(cfgs[k], uid, gid)))
    ensures Contains(SetupAll(cfgs, user, uid, gid, fstab, exitOk).fstab, cfgs[k].mountPoint)
    decreases |cfgs|
  {
    var init, last := cfgs[..|cfgs| - 1], cfgs[|cfgs| - 1];
    var prev := SetupAll(init, user, uid, gid, fstab, exitOk);
    SetupMountFstab(last, user, uid, gid, prev.fstab, exitOk);
    if k < |cfgs| - 1 {
      assert init[k] == cfgs[k];
      SucceededStays(init, user, uid, gid, fstab, exitOk, k);
      var r := SetupMount(last, user, uid, gid, prev.fstab, exitOk).fstab;
      PrefixOfGrown(prev.fstab, r, EntryFor(last, uid, gid) + "\n");
      ContainsGrows(prev.fstab, r, cfgs[k].mountPoint);
    }
  }

  /** Applying the configurations twice, with any exit statuses in either
      run, never appends a line twice: the second run keeps what the first
      wrote and appends only for mount points the first left missing, and a
      configuration whose first append succeeded has its mount point present. */
  lemma ReapplyAppendsOnlyMissing(cfgs: seq<MountConfig>, user: string, uid: string, gid: string, fstab: string,
                                  exitOk1: Command -> bool, exitOk2: Command -> bool)
    ensures var first := ApplyMounts(cfgs, user, uid, gid, fstab, exitOk1);
      var second := ApplyMounts(cfgs, user, uid, gid, first.fstab, exitOk2);
      IsPrefix(first.fstab, second.fstab) &&
      AppendsOnlyMissing(Runs(second.events), cfgs, uid, gid, first.fstab) &&
      forall k :: 0 <= k < |cfgs| && exitOk1(AppendLine(EntryFor(cfgs[k], uid, gid))) ==>
        Contains(first.fstab, cfgs[k].mountPoint)
  {
    if cfgs != [] {
      var first := ApplyMounts(cfgs, user, uid, gid, fstab, exitOk1);
      SetupAllGrows(cfgs, user, uid, gid, first.fstab, exitOk2);
      SetupAllAppends(cfgs, user, uid, gid, first.fstab, exitOk2);
      ApplyRuns(cfgs, user, uid, gid, first.fstab, exitOk2);
      assert !IsAppend(Backup);
      forall k | 0 <= k < |cfgs| && exitOk1(AppendLine(EntryFor(cfgs[k], uid, gid)))
        ensures Contains(first.fstab, cfgs[k].mountPoint)
      {
        SucceededStays(cfgs, user, uid, gid, fstab, exitOk1, k);
      }
    }
  }

  /** Applying the same configurations a second time, with exit statuses
      fixed by the command text, leaves fstab exactly as the first run left it. */
  lemma ReapplyKeepsFstab(cfgs: seq<MountConfig>, user: string, uid: string, gid: string, fstab: string,
                          exitOk: Command -> bool)
    ensures var first := ApplyMounts(cfgs, user, uid, gid, fstab, exitOk);
      ApplyMounts(cfgs, user, uid, gid, first.fstab, exitOk).fstab == first.fstab
  {
    if cfgs != [] {
      var done := SetupAll(cfgs, user, uid, gid, fstab, exitOk).fstab;
      RerunKeeps(cfgs, user, uid, gid, fstab, exitOk, done);
    }
  }

  /** Running the configurations again on any fstab that extends the first
      run's result changes nothing: a mount point still missing there had its
      append tried in the first run, and with the same exit statuses the same
      command fails again. */
  lemma {:induction false} RerunKeeps(cfgs: seq<MountConfig>, user: string, uid: string, gid: string,
                                      fstab: string, exitOk: Command -> bool, later: string)
    requires IsPrefix(SetupAll(cfgs, user, uid, gid, fstab, exitOk).fstab, later)
    ensures SetupAll(cfgs, user, uid, gid, later, exitOk).fstab == later
    decreases |cfgs|
  {
    if cfgs != [] {
      var init, last := cfgs[..|cfgs| - 1], cfgs[|cfgs| - 1];
      var prev := SetupAll(init, user, uid, gid, fstab, exitOk).fstab;
      var done := SetupMount(last, user, uid, gid, prev, exitOk).fstab;
      SetupMountFstab(last, user, uid, gid, prev, exitOk);
      PrefixOfGrown(prev, done, EntryFor(last, uid, gid) + "\n");
      PrefixChain(prev, done, later);
      RerunKeeps(init, user, uid, gid, fstab, exitOk, later);
      SetupMountFstab(last, user, uid, gid, later, exitOk);
      var mp := last.mountPoint;
      if !Contains(later, mp) {
        if Contains(prev, mp) {
          ContainsGrows(prev, later, mp);
        }
        if exitOk(AppendLine(EntryFor(last, uid, gid))) {
          ContainsGrows(done, later, mp);
        }
      }
    }
  }

  lemma PrefixChain(a: string, b: string, c: string)
    requires IsPrefix(a, b) && IsPrefix(b, c)
    ensures IsPrefix(a, c)
  {
    assert c[..|a|] == c[..|b|][..|a|];
  }

  /** The commands of a mount run with configurations: the backup, then those
      of the configurations. */
  lemma ApplyRuns(cfgs: seq<MountConfig>, user: string, uid: string, gid: string, fstab: string,
                  exitOk: Command -> bool)
    requires cfgs != []
    ensures Runs(ApplyMounts(cfgs, user, uid, gid, fstab, exitOk).events) ==
              [Backup] + Runs(SetupAll(cfgs, user, uid, gid, fstab, exitOk).events)
  {
    var banner := Banner("Configuring Drive Mounts");
    var all := SetupAll(cfgs, user, uid, gid, fstab, exitOk);
    RunsAppend(banner + BackupEvents, all.events);
    RunsAppend(banner, BackupEvents);
    RunsOfRun("[+] Backing up /etc/fstab...", Backup);
  }

  /** Every command of the setup is a per-drive command. */
  lemma {:induction false} SetupAllDevice(cfgs: seq<MountConfig>, user: string, uid: string, gid: string,
                                          fstab: string, exitOk: Command -> bool)
    ensures forall c :: c in Runs(SetupAll(cfgs, user, uid, gid, fstab, exitOk).events) ==> DeviceCommand(c)
    decreases |cfgs|
  {
    if cfgs != [] {
      var init := cfgs[..|cfgs| - 1];
      var prev := SetupAll(init, user, uid, gid, fstab, exitOk);
      SetupAllDevice(init, user, uid, gid, fstab, exitOk);
      SetupAllSnoc(cfgs, user, uid, gid, fstab, exitOk);
      StepCommands(cfgs[|cfgs| - 1], user, uid, gid, prev.fstab, exitOk);
    }
  }

  /** `apply_mount_configs` does nothing without configurations; with some,
      the fstab backup is its first command and every later command belongs
      to a drive. */
  lemma BackupFirst(cfgs: seq<MountConfig>, user: string, uid: string, gid: string, fstab: string,
                    exitOk: Command -> bool)
    ensures var m := ApplyMounts(cfgs, user, uid, gid, fstab, exitOk);
      var cs := Runs(m.events);
      (cfgs == [] ==> m.events == [] && m.fstab == fstab) &&
      (cfgs != [] ==> |cs| >= 1 && cs[0] == Backup && forall c :: c in cs[1..] ==> DeviceCommand(c)) &&
      !DeviceCommand(Backup)
  {
    if cfgs != [] {
      ApplyRuns(cfgs, user, uid, gid, fstab, exitOk);
      SetupAllDevice(cfgs, user, uid, gid, fstab, exitOk);
      var cs := Runs(ApplyMounts(cfgs, user, uid, gid, fstab, exitOk).events);
      assert cs[1..] == Runs(SetupAll(cfgs, user, uid, gid, fstab, exitOk).events);
    }
  }

  /** Each configuration's mount point has its `mount` command among `cs`. */
  predicate MountsAll(cfgs: seq<MountConfig>, cs: seq<Command>) {
    forall i :: 0 <= i < |cfgs| ==> MountCmd(cfgs[i].mountPoint) in cs
  }

  /** Every configuration is mounted, whether or not its line was appended. */
  lemma {:induction false} SetupAllMounts(cfgs: seq<MountConfig>, user: string, uid: string, gid: string,
                                          fstab: string, exitOk: Command -> bool)
    ensures MountsAll(cfgs, Runs(SetupAll(cfgs, user, uid, gid, fstab, exitOk).events))
    decreases |cfgs|
  {
    if cfgs != [] {
      var init, last := cfgs[..|cfgs| - 1], cfgs[|cfgs| - 1];
      assert cfgs == init + [last];
      var prev := SetupAll(init, user, uid, gid, fstab, exitOk);
      var step := SetupMount(last, user, uid, gid, prev.fstab, exitOk);
      SetupAllMounts(init, user, uid, gid, fstab, exitOk);
      SetupAllSnoc(cfgs, user, uid, gid, fstab, exitOk);
      StepCommands(last, user, uid, gid, prev.fstab, exitOk);
      MountsJoin(init, last, Runs(prev.events), Runs(step.events));
    }
  }

  lemma MountsJoin(init: seq<MountConfig>, last: MountConfig, done: seq<Command>, later: seq<Command>)
    requires MountsAll(init, done)
    requires MountCmd(last.mountPoint) in later
    ensures MountsAll(init + [last], done + later)
  {
  }

  lemma MountsEach(cfgs: seq<MountConfig>, user: string, uid: string, gid: string, fstab: string,
                   exitOk: Command -> bool)
    ensures MountsAll(cfgs, Runs(ApplyMounts(cfgs, user, uid, gid, fstab, exitOk).events))
  {
    if cfgs != [] {
      ApplyRuns(cfgs, user, uid, gid, fstab, exitOk);
      SetupAllMounts(cfgs, user, uid, gid, fstab, exitOk);
    }
  }

  /** The skip test is a substring test, not a field match: a mount point that
      is a prefix of one already listed is taken as present and not added. */
  lemma SubstringSkip(exitOk: Command -> bool)
    ensures var fstab := "/dev/sdc1 " + "/mnt/games2" + " ext4 defaults,nofail 0 2\n";
      var cfg := MountConfig("/dev/sdb1", "/mnt/games", "ext4", "");
      SetupMount(cfg, "alice", "1000", "1000", fstab, exitOk).fstab == fstab
  {
    var rest := " ext4 defaults,nofail 0 2\n";
    var fstab := "/dev/sdc1 " + "/mnt/games2" + rest;
    assert fstab == "/dev/sdc1 " + "/mnt/games" + ("2" + rest);
    ContainsPiece("/dev/sdc1 ", "/mnt/games", "2" + rest);
  }
}
