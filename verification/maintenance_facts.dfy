/** Properties of the uninstall and optimization traces. */
module MaintenanceFacts {
  import opened Distro
  import opened Commands
  import opened Packages
  import opened Plan

  // ---- uninstall_packages ----

  /** One `flatpak uninstall -y <id>` per id, in list order. */
  predicate RemovesEach(cs: seq<Command>, ids: seq<string>) {
    |cs| == |ids| && forall i :: 0 <= i < |ids| ==> cs[i] == Command(FlatpakUninstallProgram, [ids[i]], true)
  }

  /** The native part of an uninstall: one privileged batch naming the listed
      packages, followed on Debian by `apt autoremove -y`; nothing for an empty
      list or an unknown family. */
  function NativeRemovalCommands(f: Family, names: seq<string>): (cs: seq<Command>)
    ensures forall c :: c in cs ==> c.program != FlatpakUninstallProgram
  {
    if names == [] || f == UnknownFamily then []
    else
      assert RemoveProgram(f)[0] != 'f';
      [Command(RemoveProgram(f), names, true)] + (if f == Debian then [AptAutoremove] else [])
  }

  lemma {:induction false} FlatpakRemovalsRuns(ids: seq<string>)
    ensures RemovesEach(Runs(FlatpakRemovals(ids)), ids)
    decreases |ids|
  {
    if ids != [] {
      var first := Run(Command(FlatpakUninstallProgram, [ids[0]], true));
      var rest := FlatpakRemovals(ids[1..]);
      assert FlatpakRemovals(ids) == [first] + rest;
      RunsAppend([first], rest);
      RunsOne(first);
      FlatpakRemovalsRuns(ids[1..]);
      var cs := Runs(FlatpakRemovals(ids));
      forall i | 0 <= i < |ids| ensures cs[i] == Command(FlatpakUninstallProgram, [ids[i]], true) {
        if i > 0 {
          assert cs[i] == Runs(rest)[i - 1];
        }
      }
    }
  }

  lemma NativeRemovalRuns(f: Family, names: seq<string>)
    ensures Runs(NativeRemoval(f, names)) == NativeRemovalCommands(f, names)
  {
    if names != [] && f != UnknownFamily {
      var head := [Log("\n[+] Removing native packages..."), Run(Command(RemoveProgram(f), names, true))];
      var tail: seq<Event> := if f == Debian then [Run(AptAutoremove)] else [];
      RunsAppend(head, tail);
      RunsTwo(head[0], head[1]);
      RunsOne(head[0]);
      RunsOne(head[1]);
      if f == Debian {
        RunsOne(Run(AptAutoremove));
      }
    }
  }

  lemma RemovalRuns(distro: string, family: Family, ids: seq<string>, names: seq<string>)
    ensures var cs := Runs(Removal(distro, family, ids, names));
      |cs| >= |ids| && RemovesEach(cs[..|ids|], ids) && cs[|ids|..] == NativeRemovalCommands(family, names)
  {
    var banner := Banner("Starting uninstallation on " + distro);
    var flat: seq<Event> := if ids == [] then [] else [Log("\n[+] Removing Flatpak packages...")] + FlatpakRemovals(ids);
    var native := NativeRemoval(family, names);
    var done := [Log("\n[+] Uninstallation complete!")];
    RunsAppend(banner + flat + native, done);
    RunsAppend(banner + flat, native);
    RunsAppend(banner, flat);
    RunsOne(done[0]);
    FlatpakRemovalsRuns(ids);
    if ids != [] {
      RunsAppend([Log("\n[+] Removing Flatpak packages...")], FlatpakRemovals(ids));
      RunsOne(Log("\n[+] Removing Flatpak packages..."));
    }
    NativeRemovalRuns(family, names);
    var fc := Runs(flat);
    var e := Removal(distro, family, ids, names);
    assert e == banner + flat + native + done;
    assert Runs(banner + flat) == fc by {
      assert Runs(banner) == [];
    }
    assert Runs(banner + flat + native) == fc + NativeRemovalCommands(family, names);
    var cs := Runs(e);
    assert cs == fc + NativeRemovalCommands(family, names) by {
      assert Runs(done) == [];
    }
    assert cs[..|ids|] == fc;
  }

  /** `uninstall_packages` removes the Flatpaks one by one, in selection
      order, and then the native packages; nothing else is run. */
  lemma UninstallRuns(distro: string, family: Family, sel: Selection)
    ensures var cs := Runs(Uninstall(distro, family, sel));
      var ids := UninstallFlatpakIds(sel);
      |cs| >= |ids| && RemovesEach(cs[..|ids|], ids) &&
      cs[|ids|..] == NativeRemovalCommands(family, UninstallNativeNames(family, sel))
  {
    RemovalRuns(distro, family, UninstallFlatpakIds(sel), UninstallNativeNames(family, sel));
  }

  /** A Flatpak is uninstalled exactly when its id is among those the
      selection names, whatever the family. */
  lemma FlatpakRemovedIff(distro: string, family: Family, sel: Selection, id: string)
    ensures Command(FlatpakUninstallProgram, [id], true) in Runs(Uninstall(distro, family, sel)) <==>
              id in UninstallFlatpakIds(sel)
  {
    RemovalFlatpakIff(distro, family, UninstallFlatpakIds(sel), UninstallNativeNames(family, sel), id);
  }

  lemma RemovalFlatpakIff(distro: string, family: Family, ids: seq<string>, names: seq<string>, id: string)
    ensures Command(FlatpakUninstallProgram, [id], true) in Runs(Removal(distro, family, ids, names)) <==> id in ids
  {
    RemovalRuns(distro, family, ids, names);
    var cs := Runs(Removal(distro, family, ids, names));
    var c := Command(FlatpakUninstallProgram, [id], true);
    assert cs == cs[..|ids|] + cs[|ids|..];
    if id in ids {
      var i :| 0 <= i < |ids| && ids[i] == id;
      assert cs[..|ids|][i] == c;
    }
    if c in cs[..|ids|] {
      var i :| 0 <= i < |ids| && cs[..|ids|][i] == c;
      assert ids[i] == id;
    }
  }

  /** On an unknown family only the Flatpaks are removed. */
  lemma UninstallUnknownFamily(distro: string, sel: Selection)
    ensures RemovesEach(Runs(Uninstall(distro, UnknownFamily, sel)), UninstallFlatpakIds(sel))
  {
    UninstallRuns(distro, UnknownFamily, sel);
    var cs := Runs(Uninstall(distro, UnknownFamily, sel));
    assert cs == cs[..|UninstallFlatpakIds(sel)|];
  }

  /** `apt autoremove -y` runs exactly when a Debian uninstall removes native
      packages. */
  lemma AutoremoveIff(distro: string, family: Family, sel: Selection)
    ensures var cs := Runs(Uninstall(distro, family, sel));
      AptAutoremove in cs <==> family == Debian && UninstallNativeNames(Debian, sel) != []
  {
    RemovalAutoremoveIff(distro, family, UninstallFlatpakIds(sel), UninstallNativeNames(family, sel));
  }

  lemma RemovalAutoremoveIff(distro: string, family: Family, ids: seq<string>, names: seq<string>)
    ensures AptAutoremove in Runs(Removal(distro, family, ids, names)) <==> family == Debian && names != []
  {
    RemovalRuns(distro, family, ids, names);
    var cs := Runs(Removal(distro, family, ids, names));
    assert cs == cs[..|ids|] + cs[|ids|..];
    assert AptAutoremove !in cs[..|ids|] by {
      assert AptAutoremove.program != FlatpakUninstallProgram by {
        assert AptAutoremove.program[0] == 'a';
      }
    }
    var native := NativeRemovalCommands(family, names);
    if family != Debian && native != [] {
      assert native == [Command(RemoveProgram(family), names, true)];
      assert RemoveProgram(family) != AptAutoremove.program;
    }
  }

  // ---- apply_optimizations ----

  /** `apply_optimizations` runs each chosen tweak's two privileged commands,
      governor first, then swappiness, then the I/O scheduler rules, and nothing
      for a tweak that is not chosen. */
  lemma OptimizationRuns(sel: Selection)
    ensures Runs(Optimizations(sel)) ==
              (if Selected(sel, "cpu_governor") then [GovernorDefault, GovernorTmpfiles] else []) +
              (if Selected(sel, "swappiness") then [SwappinessWrite, SwappinessReload] else []) +
              (if Selected(sel, "io_scheduler") then [SchedulerSsd, SchedulerHdd] else [])
  {
    var banner := Banner("Applying System Optimizations");
    var g := Tweak(Selected(sel, "cpu_governor"), "[+] Setting CPU governor to performance mode...",
                   GovernorDefault, GovernorTmpfiles);
    var w := Tweak(Selected(sel, "swappiness"), "[+] Setting swappiness to 10 for gaming...",
                   SwappinessWrite, SwappinessReload);
    var io := Tweak(Selected(sel, "io_scheduler"), "[+] Optimizing I/O scheduler for gaming...",
                    SchedulerSsd, SchedulerHdd);
    assert Optimizations(sel) == banner + g + w + io;
    RunsAfterBanner(banner, g, w, io);
    TweakRuns(Selected(sel, "cpu_governor"), "[+] Setting CPU governor to performance mode...",
              GovernorDefault, GovernorTmpfiles);
    TweakRuns(Selected(sel, "swappiness"), "[+] Setting swappiness to 10 for gaming...",
              SwappinessWrite, SwappinessReload);
    TweakRuns(Selected(sel, "io_scheduler"), "[+] Optimizing I/O scheduler for gaming...",
              SchedulerSsd, SchedulerHdd);
  }

  lemma RunsAfterBanner(banner: seq<Event>, g: seq<Event>, w: seq<Event>, io: seq<Event>)
    requires Runs(banner) == []
    ensures Runs(banner + g + w + io) == Runs(g) + Runs(w) + Runs(io)
  {
    RunsAppend(banner + g + w, io);
    RunsAppend(banner + g, w);
    RunsAppend(banner, g);
  }

  lemma TweakRuns(chosen: bool, heading: string, first: Command, second: Command)
    ensures Runs(Tweak(chosen, heading, first, second)) == if chosen then [first, second] else []
  {
    if chosen {
      RunsThree(Log(heading), Run(first), Run(second));
      RunsOne(Log(heading));
      RunsOne(Run(first));
      RunsOne(Run(second));
    }
  }

  /** The I/O scheduler rules file is truncated by the SSD rule and extended by
      the HDD rule: when it is chosen, these are the last two commands, the SSD
      write immediately before the HDD append. */
  lemma SchedulerRulesInOrder(sel: Selection)
    requires Selected(sel, "io_scheduler")
    ensures var cs := Runs(Optimizations(sel));
      |cs| >= 2 && cs[|cs| - 2] == SchedulerSsd && cs[|cs| - 1] == SchedulerHdd
  {
    OptimizationRuns(sel);
  }
}
