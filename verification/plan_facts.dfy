/** Properties of the install, uninstall and optimization traces. */
module PlanFacts {
  import opened Wrappers
  import opened Distro
  import opened Commands
  import opened Packages
  import opened Plan
  import opened Text
  import PackageFacts

  // ---- the stage of a command, and the order of stages ----

  const Bootstraps: seq<Command> := [AptUpdate, AddI386, RpmFusionFree, RpmFusionNonfree, NvidiaRepoCommand]
  const FlatpakInstallers: seq<Command> := [
    Command("pacman -S --needed --noconfirm flatpak", [], true),
    Command("apt install -y flatpak", [], true),
    Command("dnf install -y flatpak", [], true),
    Command("zypper install -y flatpak", [], true)]
  const AurPrograms: seq<string> := [AurProgram("yay"), AurProgram("paru")]

  /** The part of an install run a command belongs to: repository and
      architecture setup, native batch, AUR batch, Flatpak itself, the Flathub
      remote, a Flatpak package, ProtonUp-Qt. */
  function Stage(c: Command): nat {
    if c in Bootstraps then 0
    else if c.program in NativePrograms then 1
    else if c.program in [AurProgram("yay"), AurProgram("paru")] then 2
    else if c in FlatpakInstallers then 3
    else if c == FlathubRemote then 4
    else if c.program == FlatpakInstallProgram then 5
    else if c == PupGui then 6
    else 7
  }

  lemma StageOfBootstrap(c: Command)
    requires c in Bootstraps
    ensures Stage(c) == 0
  {
  }

  lemma StageOfNative(f: Family, args: seq<string>)
    requires f != UnknownFamily
    ensures Stage(Command(NativeProgram(f), args, true)) == 1
  {
    var c := Command(NativeProgram(f), args, true);
    assert c.program in NativePrograms;
    assert c !in Bootstraps;
  }

  lemma StageOfAur(h: string, args: seq<string>)
    requires h in AurHelpers
    ensures Stage(Command(AurProgram(h), args, false)) == 2
  {
    var c := Command(AurProgram(h), args, false);
    assert c !in Bootstraps;
    assert c.program !in NativePrograms;
  }

  lemma StageOfInstaller(f: Family)
    requires FlatpakInstaller(f).Some?
    ensures Stage(FlatpakInstaller(f).value) == 3
  {
    var c := FlatpakInstaller(f).value;
    assert c in FlatpakInstallers;
    assert c !in Bootstraps;
    assert c.program !in NativePrograms;
    assert c.program !in [AurProgram("yay"), AurProgram("paru")];
  }

  lemma StageOfRemote()
    ensures Stage(FlathubRemote) == 4
  {
    var c := FlathubRemote;
    assert c !in Bootstraps;
    assert c.program !in NativePrograms;
    assert c.program !in [AurProgram("yay"), AurProgram("paru")];
    assert c !in FlatpakInstallers;
  }

  lemma StageOfInstall(pkg: string)
    ensures Stage(FlatpakInstall(pkg)) == 5
  {
    var c := FlatpakInstall(pkg);
    assert c !in Bootstraps;
    assert c.program !in NativePrograms;
    assert c.program !in [AurProgram("yay"), AurProgram("paru")];
    assert c !in FlatpakInstallers;
    assert c != FlathubRemote;
  }

  lemma StageOfPupGui()
    ensures Stage(PupGui) == 6
  {
    var c := PupGui;
    assert c !in Bootstraps;
    assert c.program !in NativePrograms;
    assert c.program !in [AurProgram("yay"), AurProgram("paru")];
    assert c !in FlatpakInstallers;
    assert c != FlathubRemote;
    assert c.program != FlatpakInstallProgram;
  }

  predicate Ordered(cs: seq<Command>) {
    forall i, j :: 0 <= i < j < |cs| ==> Stage(cs[i]) <= Stage(cs[j])
  }

  predicate Within(cs: seq<Command>, lo: nat, hi: nat) {
    forall i :: 0 <= i < |cs| ==> lo <= Stage(cs[i]) <= hi
  }

  lemma OrderedJoin(a: seq<Command>, b: seq<Command>, lo: nat, mid: nat, hi: nat)
    requires Ordered(a) && Within(a, lo, mid)
    requires Ordered(b) && Within(b, mid, hi)
    requires lo <= mid <= hi
    ensures Ordered(a + b) && Within(a + b, lo, hi)
  {
    forall i | 0 <= i < |a + b| ensures lo <= Stage((a + b)[i]) <= hi {
      if i < |a| {
        assert (a + b)[i] == a[i];
      } else {
        assert (a + b)[i] == b[i - |a|];
      }
    }
    forall i, j | 0 <= i < j < |a + b|
      ensures Stage((a + b)[i]) <= Stage((a + b)[j])
    {
      if j < |a| {
        assert (a + b)[i] == a[i] && (a + b)[j] == a[j];
      } else if i < |a| {
        assert (a + b)[i] == a[i] && (a + b)[j] == b[j - |a|];
      } else {
        assert (a + b)[i] == b[i - |a|] && (a + b)[j] == b[j - |a|];
      }
    }
  }

  /** A run of at most one command is ordered. */
  lemma OrderedSingle(cs: seq<Command>, s: nat)
    requires |cs| <= 1 && Within(cs, s, s)
    ensures Ordered(cs)
  {
  }

  lemma RunsOfLog(text: string)
    ensures Runs([Log(text)]) == []
  {
    RunsOne(Log(text));
  }

  // ---- the stages of each part ----

  lemma PreludeStages(f: Family, gpu: Gpu, sel: Selection, facts: DebianFacts)
    ensures var cs := Runs(Prelude(f, gpu, sel, facts).events);
      Ordered(cs) && Within(cs, 0, 0)
  {
    PreludeRuns(f, gpu, sel, facts);
    PreludeCommandsBootstrap(f, sel);
    BootstrapStages(PreludeCommands(f, sel));
  }

  lemma BootstrapStages(cs: seq<Command>)
    requires forall c :: c in cs ==> c in Bootstraps
    ensures Ordered(cs) && Within(cs, 0, 0)
  {
    forall i | 0 <= i < |cs| ensures Stage(cs[i]) == 0 {
      StageOfBootstrap(cs[i]);
    }
  }

  /** The commands each family runs before its batches. */
  function PreludeCommands(f: Family, sel: Selection): seq<Command> {
    match f
    case Debian => [AptUpdate, AddI386]
    case Fedora => [RpmFusionFree, RpmFusionNonfree]
    case OpenSuse => if Selected(sel, "nvidia") then [NvidiaRepoCommand] else []
    case _ => []
  }

  lemma PreludeCommandsBootstrap(f: Family, sel: Selection)
    ensures forall c :: c in PreludeCommands(f, sel) ==> c in Bootstraps
  {
  }

  /** The commands a family runs before its batches: `apt update` and `dpkg
      --add-architecture i386` on Debian, the two RPM Fusion repositories on
      Fedora, the NVIDIA repository on openSUSE when NVIDIA is selected, and
      nothing on Arch. */
  lemma PreludeRuns(f: Family, gpu: Gpu, sel: Selection, facts: DebianFacts)
    ensures Runs(Prelude(f, gpu, sel, facts).events) == PreludeCommands(f, sel)
  {
    match f
    case Arch =>
    case Debian => DebianPreludeRuns(gpu, sel, facts);
    case Fedora => FedoraBootstrapRuns();
    case OpenSuse => OpenSusePreludeRuns(sel);
    case UnknownFamily =>
  }

  lemma OpenSusePreludeRuns(sel: Selection)
    ensures Runs(OpenSuseCollect(sel).events) == if Selected(sel, "nvidia") then [NvidiaRepoCommand] else []
  {
    RunsOne(Run(NvidiaRepoCommand));
  }

  /** On Debian the first commands are `apt update` and `dpkg --add-architecture
      i386`, and the collection itself runs nothing (the candidate test is a probe). */
  lemma DebianPreludeRuns(gpu: Gpu, sel: Selection, facts: DebianFacts)
    ensures Runs(Prelude(Debian, gpu, sel, facts).events) == [AptUpdate, AddI386]
  {
    BootstrapThenNotes(DebianNotes(sel, facts));
  }

  /** The non-free advisory, on the probes themselves: it is logged exactly
      when Steam is wanted, `apt-cache policy steam` shows no real candidate,
      the distribution name says Debian and /etc/debian_version starts with 12
      or names bookworm. */
  lemma BookwormAdvisory(distro: string, sel: Selection, probes: Probes)
    ensures NonFreeAdvisory[0] in DebianNotes(sel, Facts(distro, probes)) <==>
              Selected(sel, "steam") && !AptInstallable(probes.aptPolicy("steam")) &&
              Contains(Lower(distro), "debian") && IsBookworm(DebianVersion(probes.debianVersion))
  {
    PackageFacts.DebianAdvisory(sel, Facts(distro, probes));
  }

  /** The Debian bootstrap followed by notes runs the two bootstrap commands. */
  lemma BootstrapThenNotes(texts: seq<string>)
    ensures Runs(DebianBootstrap + Logs(texts)) == [AptUpdate, AddI386]
  {
    RunsAppend(DebianBootstrap, Logs(texts));
    LogsEach(texts);
    RunsOfLogs(Logs(texts));
    DebianBootstrapRuns();
  }

  lemma DebianBootstrapRuns()
    ensures Runs(DebianBootstrap) == [AptUpdate, AddI386]
  {
    RunsThree(Log("\n[+] Updating package lists..."), Run(AptUpdate), Run(AddI386));
    RunsOne(Log("\n[+] Updating package lists..."));
    RunsOne(Run(AptUpdate));
    RunsOne(Run(AddI386));
  }

  lemma FedoraBootstrapRuns()
    ensures Runs(FedoraBootstrap) == [RpmFusionFree, RpmFusionNonfree]
  {
    RunsThree(Log("\n[+] Enabling RPM Fusion repositories..."), Run(RpmFusionFree), Run(RpmFusionNonfree));
    RunsOne(Log("\n[+] Enabling RPM Fusion repositories..."));
    RunsOne(Run(RpmFusionFree));
    RunsOne(Run(RpmFusionNonfree));
  }

  lemma NativeStepRuns(f: Family, names: seq<string>)
    requires f != UnknownFamily
    ensures Runs(NativeStep(f, names)) ==
              if names == [] then [] else [Command(NativeProgram(f), Dedup(names), true)]
  {
    if names != [] {
      RunsOfRun("\n[+] Installing packages with " + ManagerName(f) + "...",
                Command(NativeProgram(f), Dedup(names), true));
    }
  }

  lemma NativeStepStages(f: Family, names: seq<string>)
    requires f != UnknownFamily
    ensures var cs := Runs(NativeStep(f, names));
      |cs| <= 1 && Ordered(cs) && Within(cs, 1, 1)
  {
    NativeStepRuns(f, names);
    StageOfNative(f, Dedup(names));
  }

  /** The helper `install_arch` picks: yay when `which yay` succeeds, else paru
      when `which paru` does, else none. */
  lemma AurHelperPriority(programs: set<string>)
    ensures FindHelper(AurHelpers, programs) ==
              if "yay" in programs then Some("yay")
              else if "paru" in programs then Some("paru")
              else None
  {
    assert AurHelpers[1..] == ["paru"] && ["paru"][1..] == [];
    assert FirstFound(AurHelpers, programs) ==
             if "yay" in programs then 0 else 1 + FirstFound(["paru"], programs);
    assert FirstFound(["paru"], programs) == if "paru" in programs then 0 else 1 + FirstFound([], programs);
  }

  lemma AurStepRuns(names: seq<string>, programs: set<string>)
    ensures Runs(AurStep(names, programs)) ==
              if names == [] || FindHelper(AurHelpers, programs).None? then []
              else [Command(AurProgram(FindHelper(AurHelpers, programs).value), Dedup(names), false)]
  {
    if names != [] {
      match FindHelper(AurHelpers, programs)
      case Some(h) =>
        RunsOfRun("\n[+] Installing AUR packages with " + h + "...", Command(AurProgram(h), Dedup(names), false));
      case None =>
        RunsOfLog(NoAurHelperWarning);
    }
  }

  lemma AurStepStages(names: seq<string>, programs: set<string>)
    ensures var cs := Runs(AurStep(names, programs));
      |cs| <= 1 && Ordered(cs) && Within(cs, 2, 2)
  {
    AurStepRuns(names, programs);
    AurHelperPriority(programs);
    var h := FindHelper(AurHelpers, programs);
    if names != [] && h.Some? {
      StageOfAur(h.value, Dedup(names));
    }
  }

  /** The commands of `FlatpakInstalls`: one install per package, in order. */
  predicate InstallsEach(cs: seq<Command>, pkgs: seq<string>) {
    |cs| == |pkgs| && forall i :: 0 <= i < |pkgs| ==> cs[i] == FlatpakInstall(pkgs[i])
  }

  lemma {:induction false} FlatpakInstallsRuns(pkgs: seq<string>)
    ensures InstallsEach(Runs(FlatpakInstalls(pkgs)), pkgs)
    decreases |pkgs|
  {
    if pkgs != [] {
      var rest := FlatpakInstalls(pkgs[1..]);
      assert FlatpakInstalls(pkgs) == [Run(FlatpakInstall(pkgs[0]))] + rest;
      RunsAppend([Run(FlatpakInstall(pkgs[0]))], rest);
      RunsOne(Run(FlatpakInstall(pkgs[0])));
      FlatpakInstallsRuns(pkgs[1..]);
      var cs := Runs(FlatpakInstalls(pkgs));
      assert cs == [FlatpakInstall(pkgs[0])] + Runs(rest);
      forall i | 0 <= i < |pkgs| ensures cs[i] == FlatpakInstall(pkgs[i]) {
        if i > 0 {
          assert cs[i] == Runs(rest)[i - 1];
        }
      }
    }
  }

  function SetupCommands(f: Family, programs: set<string>): seq<Command> {
    if "flatpak" !in programs && FlatpakInstaller(f).Some? then [FlatpakInstaller(f).value] else []
  }

  /** `install_flatpak_packages` issues the Flatpak install only when `which
      flatpak` fails, then the Flathub remote, then one install per package in
      list order. */
  lemma FlatpakCommands(f: Family, pkgs: seq<string>, programs: set<string>, exitOk: Command -> bool)
    ensures var cs := Runs(FlatpakSteps(f, pkgs, programs, exitOk).events);
      var n := |SetupCommands(f, programs)|;
      |cs| == n + 1 + |pkgs| && cs[..n] == SetupCommands(f, programs) && cs[n] == FlathubRemote &&
      InstallsEach(cs[n + 1..], pkgs)
  {
    var setup := FlatpakSetup(f, programs, exitOk);
    var mid := [Log("\n[+] Adding Flathub repository..."), Run(FlathubRemote),
                Log("\n[+] Installing Flatpak packages...")];
    var installs := Runs(FlatpakInstalls(pkgs));
    RunsAppend(setup.events + mid, FlatpakInstalls(pkgs));
    RunsAppend(setup.events, mid);
    RunsThree(mid[0], mid[1], mid[2]);
    RunsOne(mid[0]);
    RunsOne(mid[1]);
    RunsOne(mid[2]);
    FlatpakSetupRuns(f, programs, exitOk);
    assert Runs(FlatpakSteps(f, pkgs, programs, exitOk).events) ==
           SetupCommands(f, programs) + [FlathubRemote] + installs;
    FlatpakInstallsRuns(pkgs);
    LayoutAround(SetupCommands(f, programs), FlathubRemote, installs);
  }

  lemma LayoutAround(front: seq<Command>, c: Command, back: seq<Command>)
    ensures var cs := front + [c] + back;
      |cs| == |front| + 1 + |back| && cs[..|front|] == front && cs[|front|] == c &&
      cs[|front| + 1..] == back
  {
    var cs := front + [c] + back;
    assert cs[..|front|] == front;
    assert cs[|front| + 1..] == back;
  }

  lemma FlatpakSetupRuns(f: Family, programs: set<string>, exitOk: Command -> bool)
    ensures Runs(FlatpakSetup(f, programs, exitOk).events) == SetupCommands(f, programs)
  {
    if "flatpak" !in programs {
      match FlatpakInstaller(f)
      case None => RunsOfLog("\n[+] Installing Flatpak...");
      case Some(c) => RunsOfRun("\n[+] Installing Flatpak...", c);
    }
  }

  /** After `install_flatpak_packages`, `which flatpak` succeeds exactly when it
      did before or the Flatpak install it issued succeeded. */
  lemma FlatpakAvailableAfter(f: Family, pkgs: seq<string>, programs: set<string>, exitOk: Command -> bool)
    ensures var after := FlatpakSteps(f, pkgs, programs, exitOk).programs;
      ("flatpak" in after <==>
         "flatpak" in programs || (FlatpakInstaller(f).Some? && exitOk(FlatpakInstaller(f).value))) &&
      after - {"flatpak"} == programs - {"flatpak"}
  {
  }

  lemma FlatpakStages(f: Family, pkgs: seq<string>, programs: set<string>, exitOk: Command -> bool)
    ensures var cs := Runs(FlatpakSteps(f, pkgs, programs, exitOk).events);
      Ordered(cs) && Within(cs, 3, 5)
  {
    FlatpakCommands(f, pkgs, programs, exitOk);
    var cs := Runs(FlatpakSteps(f, pkgs, programs, exitOk).events);
    var s := SetupCommands(f, programs);
    var inst := cs[|s| + 1..];
    assert cs == s + [FlathubRemote] + inst;
    if s != [] {
      StageOfInstaller(f);
    }
    StageOfRemote();
    OrderedJoin(s, [FlathubRemote], 3, 3, 4);
    InstallsStages(inst, pkgs);
    OrderedJoin(s + [FlathubRemote], inst, 3, 5, 5);
  }

  /** `install_flatpak_packages` installs Flatpak itself exactly when `which flatpak` fails. */
  lemma InstallerInSteps(f: Family, pkgs: seq<string>, programs: set<string>, exitOk: Command -> bool)
    requires FlatpakInstaller(f).Some?
    ensures FlatpakInstaller(f).value in Runs(FlatpakSteps(f, pkgs, programs, exitOk).events) <==>
              "flatpak" !in programs
  {
    FlatpakCommands(f, pkgs, programs, exitOk);
    var cs := Runs(FlatpakSteps(f, pkgs, programs, exitOk).events);
    var s := SetupCommands(f, programs);
    var inst := cs[|s| + 1..];
    var c := FlatpakInstaller(f).value;
    assert cs == s + [FlathubRemote] + inst;
    StageOfInstaller(f);
    StageOfRemote();
    InstallsStages(inst, pkgs);
    NotWithin(inst, 5, 5, c);
  }

  lemma InstallsStages(cs: seq<Command>, pkgs: seq<string>)
    requires InstallsEach(cs, pkgs)
    ensures Ordered(cs) && Within(cs, 5, 5)
  {
    forall i | 0 <= i < |cs| ensures Stage(cs[i]) == 5 {
      StageOfInstall(pkgs[i]);
    }
  }

  lemma ProtonRuns(programs: set<string>)
    ensures Runs(ProtonSteps(programs)) == if "flatpak" in programs then [PupGui] else []
  {
    if "flatpak" in programs {
      RunsOfRun("\n[+] Installing ProtonUp-Qt for Proton-GE management...", PupGui);
    } else {
      RunsOfLog("\n[+] Installing ProtonUp-Qt for Proton-GE management...");
    }
  }

  lemma StageOfNativeProgram(c: Command)
    requires c.program in NativePrograms
    ensures Stage(c) == 1
  {
    assert c !in Bootstraps;
  }

  lemma NativeProgramListed(f: Family)
    requires f != UnknownFamily
    ensures NativeProgram(f) in NativePrograms
  {
  }

  lemma NotWithin(cs: seq<Command>, lo: nat, hi: nat, c: Command)
    requires Within(cs, lo, hi) && !(lo <= Stage(c) <= hi)
    ensures c !in cs
  {
  }

  lemma ProtonStages(programs: set<string>)
    ensures var cs := Runs(ProtonSteps(programs));
      |cs| <= 1 && Ordered(cs) && Within(cs, 6, 6)
  {
    ProtonRuns(programs);
    StageOfPupGui();
  }

  // ---- install_packages as a whole ----

  /** The commands of a supported family's run, part by part. */
  lemma ProceedRuns(distro: string, family: Family, pre: Collected, protonge: bool, programs: set<string>,
                    exitOk: Command -> bool)
    requires family != UnknownFamily
    ensures var b := pre.batches;
      var fp := FlatpakPart(family, b.flatpak, programs, exitOk);
      Runs(Proceed(distro, family, pre, protonge, programs, exitOk).events) ==
        Runs(pre.events) + (Runs(NativeStep(family, b.native)) + Runs(AurStep(b.aur, programs)) +
                            Runs(fp.events) + Runs(ProtonPart(protonge, fp.programs)))
  {
    var b := pre.batches;
    var fp := FlatpakPart(family, b.flatpak, programs, exitOk);
    var banner := Banner("Starting installation on " + distro);
    var n := NativeStep(family, b.native);
    var a := AurStep(b.aur, programs);
    var pr := ProtonPart(protonge, fp.programs);
    RunsAppend(banner + pre.events, n + a + fp.events + pr);
    RunsAppend(banner, pre.events);
    RunsAppend(n + a + fp.events, pr);
    RunsAppend(n + a, fp.events);
    RunsAppend(n, a);
  }

  /** Each part of a run stays within its stage. */
  lemma ProceedPartStages(family: Family, pre: Collected, protonge: bool, programs: set<string>,
                          exitOk: Command -> bool)
    requires family != UnknownFamily
    ensures var b := pre.batches;
      var fp := FlatpakPart(family, b.flatpak, programs, exitOk);
      Ordered(Runs(NativeStep(family, b.native))) && Within(Runs(NativeStep(family, b.native)), 1, 1) &&
      Ordered(Runs(AurStep(b.aur, programs))) && Within(Runs(AurStep(b.aur, programs)), 2, 2) &&
      Ordered(Runs(fp.events)) && Within(Runs(fp.events), 3, 5) &&
      Ordered(Runs(ProtonPart(protonge, fp.programs))) && Within(Runs(ProtonPart(protonge, fp.programs)), 6, 6)
  {
    var b := pre.batches;
    var fp := FlatpakPart(family, b.flatpak, programs, exitOk);
    NativeStepStages(family, b.native);
    AurStepStages(b.aur, programs);
    if b.flatpak != [] {
      FlatpakStages(family, b.flatpak, programs, exitOk);
    }
    if protonge {
      ProtonStages(fp.programs);
    }
  }

  lemma ProceedOrdered(distro: string, family: Family, pre: Collected, protonge: bool, programs: set<string>,
                       exitOk: Command -> bool)
    requires family != UnknownFamily
    requires Ordered(Runs(pre.events)) && Within(Runs(pre.events), 0, 0)
    ensures Ordered(Runs(Proceed(distro, family, pre, protonge, programs, exitOk).events))
  {
    var b := pre.batches;
    var fp := FlatpakPart(family, b.flatpak, programs, exitOk);
    var p0, p1, p2 := Runs(pre.events), Runs(NativeStep(family, b.native)), Runs(AurStep(b.aur, programs));
    var p3, p4 := Runs(fp.events), Runs(ProtonPart(protonge, fp.programs));
    ProceedRuns(distro, family, pre, protonge, programs, exitOk);
    ProceedPartStages(family, pre, protonge, programs, exitOk);
    OrderedJoin(p1, p2, 1, 2, 2);
    OrderedJoin(p1 + p2, p3, 1, 3, 5);
    OrderedJoin(p1 + p2 + p3, p4, 1, 6, 6);
    OrderedJoin(p0, p1 + p2 + p3 + p4, 0, 1, 6);
  }

  /** Every install run issues its commands in stage order: repository and
      architecture setup, the native batch, the AUR batch, Flatpak itself, the
      Flathub remote, the Flatpak packages, ProtonUp-Qt. */
  lemma InstallOrdered(distro: string, family: Family, gpu: Gpu, sel: Selection, facts: DebianFacts,
                       programs: set<string>, exitOk: Command -> bool)
    ensures Ordered(Runs(Install(distro, family, gpu, sel, facts, programs, exitOk).events))
  {
    if family == UnknownFamily {
      Unsupported(distro, family, gpu, sel, facts, programs, exitOk);
    } else {
      PreludeStages(family, gpu, sel, facts);
      ProceedOrdered(distro, family, Prelude(family, gpu, sel, facts), Selected(sel, "protonge"),
                     programs, exitOk);
    }
  }

  /** An unknown family is refused: "Unsupported distribution: unknown" is
      logged, no command is issued and the result is False; a supported family
      always reports True. */
  lemma Unsupported(distro: string, family: Family, gpu: Gpu, sel: Selection, facts: DebianFacts,
                    programs: set<string>, exitOk: Command -> bool)
    ensures var o := Install(distro, family, gpu, sel, facts, programs, exitOk);
      (o.ok <==> family != UnknownFamily) &&
      (family == UnknownFamily ==>
         Runs(o.events) == [] && o.programs == programs &&
         Log("Unsupported distribution: unknown") in o.events)
  {
    if family == UnknownFamily {
      RefusedEvents(distro);
    }
  }

  lemma RefusedEvents(distro: string)
    ensures var es := Banner("Starting installation on " + distro) +
                      [Log("Unsupported distribution: " + FamilyName(UnknownFamily))];
      Runs(es) == [] && Log("Unsupported distribution: unknown") in es
  {
    assert "Unsupported distribution: " + FamilyName(UnknownFamily) == "Unsupported distribution: unknown";
    var banner := Banner("Starting installation on " + distro);
    RunsAppend(banner, [Log("Unsupported distribution: unknown")]);
    RunsOfLog("Unsupported distribution: unknown");
    var es := banner + [Log("Unsupported distribution: unknown")];
    assert es[|banner|] == Log("Unsupported distribution: unknown");
  }

  /** In a run, the native batch command is issued exactly when the native list
      is non-empty; it is privileged and names every listed package once. */
  lemma ProceedNativeOnce(distro: string, family: Family, pre: Collected, protonge: bool, programs: set<string>,
                          exitOk: Command -> bool)
    requires family != UnknownFamily
    requires Within(Runs(pre.events), 0, 0)
    ensures var names := pre.batches.native;
      var cs := Runs(Proceed(distro, family, pre, protonge, programs, exitOk).events);
      ((exists c :: c in cs && c.program == NativeProgram(family)) <==> names != []) &&
      forall c :: c in cs && c.program == NativeProgram(family) ==>
        c.sudo && Distinct(c.args) && forall x :: x in c.args <==> x in names
  {
    var b := pre.batches;
    var fp := FlatpakPart(family, b.flatpak, programs, exitOk);
    var p0, p1, p2 := Runs(pre.events), Runs(NativeStep(family, b.native)), Runs(AurStep(b.aur, programs));
    var p3, p4 := Runs(fp.events), Runs(ProtonPart(protonge, fp.programs));
    ProceedRuns(distro, family, pre, protonge, programs, exitOk);
    ProceedPartStages(family, pre, protonge, programs, exitOk);
    NativeStepRuns(family, b.native);
    var cs := p0 + (p1 + p2 + p3 + p4);
    var batch := Command(NativeProgram(family), Dedup(b.native), true);
    NativeProgramListed(family);
    forall c: Command | c in cs && c.program == NativeProgram(family)
      ensures c in p1 && c == batch
    {
      StageOfNativeProgram(c);
      NotWithin(p0, 0, 0, c);
      NotWithin(p2, 2, 2, c);
      NotWithin(p3, 3, 5, c);
      NotWithin(p4, 6, 6, c);
      assert c in p1 + p2 + p3 + p4;
    }
    if b.native != [] {
      assert batch in p1;
      assert batch in cs;
    }
  }

  /** The native batch of `install_packages` is issued exactly when the family
      collected native packages, and names each of them once. */
  lemma NativeBatchOnce(distro: string, family: Family, gpu: Gpu, sel: Selection, facts: DebianFacts,
                        programs: set<string>, exitOk: Command -> bool)
    requires family != UnknownFamily
    ensures var names := Prelude(family, gpu, sel, facts).batches.native;
      var cs := Runs(Install(distro, family, gpu, sel, facts, programs, exitOk).events);
      ((exists c :: c in cs && c.program == NativeProgram(family)) <==> names != []) &&
      forall c :: c in cs && c.program == NativeProgram(family) ==>
        c.sudo && Distinct(c.args) && forall x :: x in c.args <==> x in names
  {
    var pre := Prelude(family, gpu, sel, facts);
    assert Install(distro, family, gpu, sel, facts, programs, exitOk) ==
           Proceed(distro, family, pre, Selected(sel, "protonge"), programs, exitOk);
    PreludeStages(family, gpu, sel, facts);
    ProceedNativeOnce(distro, family, pre, Selected(sel, "protonge"), programs, exitOk);
  }

  lemma StageOfAurProgram(c: Command)
    requires c.program in AurPrograms
    ensures Stage(c) == 2
  {
    AurStageDisjoint(c);
  }

  /** An AUR helper's command is neither a bootstrap command nor a native
      manager's batch. */
  lemma AurStageDisjoint(c: Command)
    requires c.program in AurPrograms
    ensures c !in Bootstraps && c.program !in NativePrograms
  {
    var p := c.program;
    assert p == AurProgram("yay") || p == AurProgram("paru");
    assert p[0] == 'y' || p[0] == 'p';
    assert p[0] != NativePrograms[1][0] && p[0] != NativePrograms[2][0] && p[0] != NativePrograms[3][0];
    assert p[2] != NativePrograms[0][2];
    assert p[0] != AptUpdate.program[0] && p[0] != AddI386.program[0];
    assert |p| < |RpmFusionFree.program| && |p| < |RpmFusionNonfree.program| && |p| < |NvidiaRepoCommand.program|;
  }

  /** A supported family's run, split into its parts, with the stage each part
      keeps to. */
  lemma ProceedParts(distro: string, family: Family, pre: Collected, protonge: bool, programs: set<string>,
                     exitOk: Command -> bool)
    requires family != UnknownFamily
    ensures var b := pre.batches;
      var fp := FlatpakPart(family, b.flatpak, programs, exitOk);
      var p1, p2 := Runs(NativeStep(family, b.native)), Runs(AurStep(b.aur, programs));
      var p3, p4 := Runs(fp.events), Runs(ProtonPart(protonge, fp.programs));
      Runs(Proceed(distro, family, pre, protonge, programs, exitOk).events) == Runs(pre.events) + (p1 + p2 + p3 + p4) &&
      Within(p1, 1, 1) && Within(p2, 2, 2) && Within(p3, 3, 5) && Within(p4, 6, 6)
  {
    ProceedRuns(distro, family, pre, protonge, programs, exitOk);
    ProceedPartStages(family, pre, protonge, programs, exitOk);
  }

  /** A run starts with the commands of its prelude. */
  lemma ProceedStartsWithPrelude(distro: string, family: Family, pre: Collected, protonge: bool,
                                 programs: set<string>, exitOk: Command -> bool)
    requires family != UnknownFamily
    ensures var cs := Runs(Proceed(distro, family, pre, protonge, programs, exitOk).events);
      |cs| >= |Runs(pre.events)| && cs[..|Runs(pre.events)|] == Runs(pre.events)
  {
    ProceedRuns(distro, family, pre, protonge, programs, exitOk);
  }

  /** On Debian the run starts with `apt update` and then `dpkg
      --add-architecture i386`. */
  lemma DebianBootstrapFirst(distro: string, family: Family, gpu: Gpu, sel: Selection, facts: DebianFacts,
                             programs: set<string>, exitOk: Command -> bool)
    requires family == Debian
    ensures var cs := Runs(Install(distro, family, gpu, sel, facts, programs, exitOk).events);
      |cs| >= 2 && cs[0] == AptUpdate && cs[1] == AddI386
  {
    DebianPreludeRuns(gpu, sel, facts);
    ProceedStartsWithTwo(distro, family, Prelude(family, gpu, sel, facts), Selected(sel, "protonge"),
                         programs, exitOk, AptUpdate, AddI386);
  }

  /** On Fedora the run starts by enabling the free and then the non-free RPM
      Fusion repository. */
  lemma FedoraBootstrapFirst(distro: string, family: Family, gpu: Gpu, sel: Selection, facts: DebianFacts,
                             programs: set<string>, exitOk: Command -> bool)
    requires family == Fedora
    ensures var cs := Runs(Install(distro, family, gpu, sel, facts, programs, exitOk).events);
      |cs| >= 2 && cs[0] == RpmFusionFree && cs[1] == RpmFusionNonfree
  {
    FedoraBootstrapRuns();
    ProceedStartsWithTwo(distro, family, Prelude(family, gpu, sel, facts), Selected(sel, "protonge"),
                         programs, exitOk, RpmFusionFree, RpmFusionNonfree);
  }

  lemma ProceedStartsWithTwo(distro: string, family: Family, pre: Collected, protonge: bool,
                             programs: set<string>, exitOk: Command -> bool, first: Command, second: Command)
    requires family != UnknownFamily
    requires Runs(pre.events) == [first, second]
    ensures var cs := Runs(Proceed(distro, family, pre, protonge, programs, exitOk).events);
      |cs| >= 2 && cs[0] == first && cs[1] == second
  {
    ProceedStartsWithPrelude(distro, family, pre, protonge, programs, exitOk);
    var cs := Runs(Proceed(distro, family, pre, protonge, programs, exitOk).events);
    assert cs[..2] == [first, second];
    assert cs[0] == cs[..2][0] && cs[1] == cs[..2][1];
  }

  lemma ProceedAur(distro: string, family: Family, pre: Collected, protonge: bool, programs: set<string>,
                   exitOk: Command -> bool)
    requires family != UnknownFamily
    requires Within(Runs(pre.events), 0, 0)
    ensures var o := Proceed(distro, family, pre, protonge, programs, exitOk);
      var cs := Runs(o.events);
      var names := pre.batches.aur;
      var h := FindHelper(AurHelpers, programs);
      ((exists c :: c in cs && c.program in AurPrograms) <==> names != [] && h.Some?) &&
      (forall c :: c in cs && c.program in AurPrograms ==>
         h.Some? && c == Command(AurProgram(h.value), Dedup(names), false)) &&
      (names != [] && h.None? ==> Log(NoAurHelperWarning) in o.events)
  {
    var b := pre.batches;
    var p2 := Runs(AurStep(b.aur, programs));
    var cs := Runs(Proceed(distro, family, pre, protonge, programs, exitOk).events);
    AurStepRuns(b.aur, programs);
    AurHelperPriority(programs);
    forall c: Command | c in cs && c.program in AurPrograms
      ensures c in p2
    {
      AurOnlyInStep(distro, family, pre, protonge, programs, exitOk, c);
    }
    var h := FindHelper(AurHelpers, programs);
    if b.aur != [] && h.Some? {
      var c := Command(AurProgram(h.value), Dedup(b.aur), false);
      assert c in p2 && c.program in AurPrograms;
      AurStepInRun(distro, family, pre, protonge, programs, exitOk, c);
    }
    if b.aur != [] && h.None? {
      var a := AurStep(b.aur, programs);
      assert Log(NoAurHelperWarning) in a;
      var run := Batched(family, b, protonge, programs, exitOk);
      assert Log(NoAurHelperWarning) in run.events;
    }
  }

  /** An AUR command of a run comes from its AUR step. */
  lemma AurOnlyInStep(distro: string, family: Family, pre: Collected, protonge: bool, programs: set<string>,
                      exitOk: Command -> bool, c: Command)
    requires family != UnknownFamily
    requires Within(Runs(pre.events), 0, 0)
    requires c in Runs(Proceed(distro, family, pre, protonge, programs, exitOk).events) && c.program in AurPrograms
    ensures c in Runs(AurStep(pre.batches.aur, programs))
  {
    ProceedParts(distro, family, pre, protonge, programs, exitOk);
    var b := pre.batches;
    var fp := FlatpakPart(family, b.flatpak, programs, exitOk);
    var p0, p1, p2 := Runs(pre.events), Runs(NativeStep(family, b.native)), Runs(AurStep(b.aur, programs));
    var p3, p4 := Runs(fp.events), Runs(ProtonPart(protonge, fp.programs));
    StageOfAurProgram(c);
    NotWithin(p0, 0, 0, c);
    NotWithin(p1, 1, 1, c);
    NotWithin(p3, 3, 5, c);
    NotWithin(p4, 6, 6, c);
    assert c in p1 + p2 + p3 + p4;
  }

  lemma AurStepInRun(distro: string, family: Family, pre: Collected, protonge: bool, programs: set<string>,
                     exitOk: Command -> bool, c: Command)
    requires family != UnknownFamily
    requires c in Runs(AurStep(pre.batches.aur, programs))
    ensures c in Runs(Proceed(distro, family, pre, protonge, programs, exitOk).events)
  {
    ProceedParts(distro, family, pre, protonge, programs, exitOk);
    var b := pre.batches;
    var fp := FlatpakPart(family, b.flatpak, programs, exitOk);
    var p0, p1, p2 := Runs(pre.events), Runs(NativeStep(family, b.native)), Runs(AurStep(b.aur, programs));
    var p3, p4 := Runs(fp.events), Runs(ProtonPart(protonge, fp.programs));
    assert c in p1 + p2 + p3 + p4;
  }

  /** `install_arch` runs the AUR batch unprivileged, with the first helper
      `which` finds, and only when there are AUR packages; when neither yay nor
      paru is found no AUR command is issued and the warning is logged instead. */
  lemma AurBatch(distro: string, gpu: Gpu, sel: Selection, facts: DebianFacts, programs: set<string>,
                 exitOk: Command -> bool)
    ensures var o := Install(distro, Arch, gpu, sel, facts, programs, exitOk);
      var cs := Runs(o.events);
      var names := ArchBatches(sel, gpu).aur;
      var h := FindHelper(AurHelpers, programs);
      ((exists c :: c in cs && c.program in AurPrograms) <==> names != [] && h.Some?) &&
      (forall c :: c in cs && c.program in AurPrograms ==>
         h.Some? && c == Command(AurProgram(h.value), Dedup(names), false)) &&
      (names != [] && h.None? ==> Log(NoAurHelperWarning) in o.events)
  {
    PreludeStages(Arch, gpu, sel, facts);
    ProceedAur(distro, Arch, Prelude(Arch, gpu, sel, facts), Selected(sel, "protonge"), programs, exitOk);
  }

  /** The Flatpak events of a run do not depend on the exit statuses; the
      programs found afterwards do not either once `which flatpak` succeeds. */
  lemma FlatpakPartStatuses(f: Family, pkgs: seq<string>, programs: set<string>, exitOk1: Command -> bool,
                            exitOk2: Command -> bool)
    ensures FlatpakPart(f, pkgs, programs, exitOk1).events == FlatpakPart(f, pkgs, programs, exitOk2).events
    ensures "flatpak" in programs ==> FlatpakPart(f, pkgs, programs, exitOk1).programs == programs
  {
  }

  /** `run_command`'s exit statuses are ignored by `install_packages`: the
      events and the result are the same whatever the commands return, except
      that a failed Flatpak install can skip ProtonUp-Qt. */
  lemma ExitStatusesIgnored(distro: string, family: Family, gpu: Gpu, sel: Selection, facts: DebianFacts,
                            programs: set<string>, exitOk1: Command -> bool, exitOk2: Command -> bool)
    requires !Selected(sel, "protonge") || "flatpak" in programs
    ensures var o1 := Install(distro, family, gpu, sel, facts, programs, exitOk1);
      var o2 := Install(distro, family, gpu, sel, facts, programs, exitOk2);
      o1.events == o2.events && o1.ok == o2.ok
  {
    if family != UnknownFamily {
      var b := Prelude(family, gpu, sel, facts).batches;
      FlatpakPartStatuses(family, b.flatpak, programs, exitOk1, exitOk2);
      FlatpakPartStatuses(family, b.flatpak, programs, exitOk2, exitOk1);
    }
  }

  lemma ProceedProton(distro: string, family: Family, pre: Collected, protonge: bool, programs: set<string>,
                      exitOk: Command -> bool)
    requires family != UnknownFamily
    requires Within(Runs(pre.events), 0, 0)
    ensures PupGui in Runs(Proceed(distro, family, pre, protonge, programs, exitOk).events) <==>
        protonge &&
        ("flatpak" in programs || (pre.batches.flatpak != [] && exitOk(FlatpakInstaller(family).value)))
  {
    ProceedParts(distro, family, pre, protonge, programs, exitOk);
    var b := pre.batches;
    var fp := FlatpakPart(family, b.flatpak, programs, exitOk);
    var p0, p1, p2 := Runs(pre.events), Runs(NativeStep(family, b.native)), Runs(AurStep(b.aur, programs));
    var p3, p4 := Runs(fp.events), Runs(ProtonPart(protonge, fp.programs));
    StageOfPupGui();
    NotWithin(p0, 0, 0, PupGui);
    NotWithin(p1, 1, 1, PupGui);
    NotWithin(p2, 2, 2, PupGui);
    NotWithin(p3, 3, 5, PupGui);
    assert PupGui in p0 + (p1 + p2 + p3 + p4) <==> PupGui in p4;
    ProtonRuns(fp.programs);
    if b.flatpak != [] {
      FlatpakAvailableAfter(family, b.flatpak, programs, exitOk);
    }
  }

  /** ProtonUp-Qt is installed exactly when Proton-GE is selected and `which
      flatpak` succeeds at that point: Flatpak was there before the run, or the
      run installed it (which it tries only for a non-empty Flatpak batch) and
      the install succeeded. */
  lemma ProtonGate(distro: string, family: Family, gpu: Gpu, sel: Selection, facts: DebianFacts,
                   programs: set<string>, exitOk: Command -> bool)
    ensures var b := Prelude(family, gpu, sel, facts).batches;
      PupGui in Runs(Install(distro, family, gpu, sel, facts, programs, exitOk).events) <==>
        family != UnknownFamily && Selected(sel, "protonge") &&
        ("flatpak" in programs || (b.flatpak != [] && exitOk(FlatpakInstaller(family).value)))
  {
    if family == UnknownFamily {
      Unsupported(distro, family, gpu, sel, facts, programs, exitOk);
    } else {
      PreludeStages(family, gpu, sel, facts);
      ProceedProton(distro, family, Prelude(family, gpu, sel, facts), Selected(sel, "protonge"),
                    programs, exitOk);
    }
  }

  lemma ProceedRemote(distro: string, family: Family, pre: Collected, protonge: bool, programs: set<string>,
                      exitOk: Command -> bool)
    requires family != UnknownFamily
    requires Within(Runs(pre.events), 0, 0)
    ensures FlathubRemote in Runs(Proceed(distro, family, pre, protonge, programs, exitOk).events) <==>
              pre.batches.flatpak != []
  {
    ProceedParts(distro, family, pre, protonge, programs, exitOk);
    var b := pre.batches;
    var fp := FlatpakPart(family, b.flatpak, programs, exitOk);
    var p0, p1, p2 := Runs(pre.events), Runs(NativeStep(family, b.native)), Runs(AurStep(b.aur, programs));
    var p3, p4 := Runs(fp.events), Runs(ProtonPart(protonge, fp.programs));
    StageOfRemote();
    NotWithin(p0, 0, 0, FlathubRemote);
    NotWithin(p1, 1, 1, FlathubRemote);
    NotWithin(p2, 2, 2, FlathubRemote);
    NotWithin(p4, 6, 6, FlathubRemote);
    assert FlathubRemote in p0 + (p1 + p2 + p3 + p4) <==> FlathubRemote in p3;
    if b.flatpak != [] {
      FlatpakCommands(family, b.flatpak, programs, exitOk);
      assert p3[|SetupCommands(family, programs)|] == FlathubRemote;
    }
  }

  lemma ProceedInstaller(distro: string, family: Family, pre: Collected, protonge: bool, programs: set<string>,
                         exitOk: Command -> bool)
    requires family != UnknownFamily
    requires Within(Runs(pre.events), 0, 0)
    ensures FlatpakInstaller(family).value in Runs(Proceed(distro, family, pre, protonge, programs, exitOk).events) <==>
              pre.batches.flatpak != [] && "flatpak" !in programs
  {
    ProceedParts(distro, family, pre, protonge, programs, exitOk);
    var b := pre.batches;
    var fp := FlatpakPart(family, b.flatpak, programs, exitOk);
    var p0, p1, p2 := Runs(pre.events), Runs(NativeStep(family, b.native)), Runs(AurStep(b.aur, programs));
    var p3, p4 := Runs(fp.events), Runs(ProtonPart(protonge, fp.programs));
    var c := FlatpakInstaller(family).value;
    StageOfInstaller(family);
    NotWithin(p0, 0, 0, c);
    NotWithin(p1, 1, 1, c);
    NotWithin(p2, 2, 2, c);
    NotWithin(p4, 6, 6, c);
    assert c in p0 + (p1 + p2 + p3 + p4) <==> c in p3;
    if b.flatpak != [] {
      InstallerInSteps(family, b.flatpak, programs, exitOk);
    }
  }

  /** The Flathub remote is added exactly when the Flatpak batch is non-empty,
      and Flatpak itself is installed lazily: only for a non-empty Flatpak batch,
      and only when `which flatpak` fails. */
  lemma FlatpakGate(distro: string, family: Family, gpu: Gpu, sel: Selection, facts: DebianFacts,
                    programs: set<string>, exitOk: Command -> bool)
    ensures var b := Prelude(family, gpu, sel, facts).batches;
      var cs := Runs(Install(distro, family, gpu, sel, facts, programs, exitOk).events);
      (FlathubRemote in cs <==> family != UnknownFamily && b.flatpak != []) &&
      (family != UnknownFamily ==>
         (FlatpakInstaller(family).value in cs <==> b.flatpak != [] && "flatpak" !in programs))
  {
    RemoteGate(distro, family, gpu, sel, facts, programs, exitOk);
    if family != UnknownFamily {
      InstallerGate(distro, family, gpu, sel, facts, programs, exitOk);
    }
  }

  lemma RemoteGate(distro: string, family: Family, gpu: Gpu, sel: Selection, facts: DebianFacts,
                   programs: set<string>, exitOk: Command -> bool)
    ensures var b := Prelude(family, gpu, sel, facts).batches;
      FlathubRemote in Runs(Install(distro, family, gpu, sel, facts, programs, exitOk).events) <==>
        family != UnknownFamily && b.flatpak != []
  {
    if family == UnknownFamily {
      Unsupported(distro, family, gpu, sel, facts, programs, exitOk);
    } else {
      PreludeStages(family, gpu, sel, facts);
      ProceedRemote(distro, family, Prelude(family, gpu, sel, facts), Selected(sel, "protonge"),
                    programs, exitOk);
    }
  }

  lemma InstallerGate(distro: string, family: Family, gpu: Gpu, sel: Selection, facts: DebianFacts,
                      programs: set<string>, exitOk: Command -> bool)
    requires family != UnknownFamily
    ensures var b := Prelude(family, gpu, sel, facts).batches;
      FlatpakInstaller(family).value in Runs(Install(distro, family, gpu, sel, facts, programs, exitOk).events) <==>
        b.flatpak != [] && "flatpak" !in programs
  {
    PreludeStages(family, gpu, sel, facts);
    ProceedInstaller(distro, family, Prelude(family, gpu, sel, facts), Selected(sel, "protonge"),
                     programs, exitOk);
  }
}
