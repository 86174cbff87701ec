/** `InstallationManager`: the object that runs an install, an uninstall, the
    optimizations and the drive mounts. Each method appends what it logs and
    runs to `trace` and is proved to produce exactly the trace of the
    corresponding function of `Plan` or `Mounts`. */
module Manager {
  import opened Wrappers
  import opened Text
  import opened Distro
  import opened Commands
  import opened Packages
  import opened Plan
  import opened Mounts
  import opened System

  class InstallationManager {
    /** The detected host. */
    const system: SystemInfo
    /** The answers of `apt-cache policy` and /etc/debian_version. */
    const probes: Probes
    /** The exit status each command would have on this host. */
    const exitOk: Command -> bool
    /** The process environment, for the owner of the mount points. */
    const env: map<string, string>
    /** What `id -u <user>` and `id -g <user>` print. */
    const userId: string -> string
    const groupId: string -> string

    /** Everything logged and run so far. */
    var trace: seq<Event>
    /** The programs `which` finds. */
    var programs: set<string>
    /** The contents of /etc/fstab. */
    var fstab: string
    /** The drives to set up, filled in by the caller. */
    var mountConfigs: seq<MountConfig>

    constructor (system: SystemInfo, probes: Probes, exitOk: Command -> bool, env: map<string, string>,
                 userId: string -> string, groupId: string -> string, programs: set<string>, fstab: string)
      ensures this.system == system && this.probes == probes && this.exitOk == exitOk && this.env == env
      ensures this.userId == userId && this.groupId == groupId
      ensures this.programs == programs && this.fstab == fstab
      ensures trace == [] && mountConfigs == []
    {
      this.system := system;
      this.probes := probes;
      this.exitOk := exitOk;
      this.env := env;
      this.userId := userId;
      this.groupId := groupId;
      this.programs := programs;
      this.fstab := fstab;
      trace := [];
      mountConfigs := [];
    }

    /** `log`: one line of output. */
    method Log(text: string)
      modifies this
      ensures trace == old(trace) + [Event.Log(text)]
      ensures programs == old(programs) && fstab == old(fstab) && mountConfigs == old(mountConfigs)
    {
      trace := trace + [Event.Log(text)];
    }

    /** `run_command`: the command is logged and executed; the caller names
        what a successful run changes on the host. */
    method RunCommand(c: Command, effect: HostEffect) returns (ok: bool)
      modifies this
      ensures ok == exitOk(c)
      ensures trace == old(trace) + [Run(c)]
      ensures programs == if ok && effect == InstallsFlatpak then old(programs) + {"flatpak"} else old(programs)
      ensures fstab == if ok && effect.AppendsToFstab? then old(fstab) + effect.line + "\n" else old(fstab)
      ensures mountConfigs == old(mountConfigs)
    {
      trace := trace + [Run(c)];
      ok := exitOk(c);
      if ok {
        match effect
        case NoEffect =>
        case InstallsFlatpak => programs := programs + {"flatpak"};
        case AppendsToFstab(line) => fstab := fstab + line + "\n";
      }
    }

    // ---- install_packages and the per-family installers ----

    /** `install_packages`: the banner, then the installer of the detected
        family; an unknown family is reported and refused. */
    method InstallPackages(sel: Selection) returns (ok: bool)
      modifies this
      ensures var o := Install(system.distro, system.distroFamily, system.gpuVendor, sel, Facts(system.distro, probes),
                               old(programs), exitOk);
        trace == old(trace) + o.events && ok == o.ok && programs == o.programs
      ensures fstab == old(fstab) && mountConfigs == old(mountConfigs)
    {
      Log("\n" + Rule);
      Log("Starting installation on " + system.distro);
      Log(Rule + "\n");
      ghost var banner := Banner("Starting installation on " + system.distro);
      assert trace == old(trace) + banner;
      ghost var start := trace;
      ok := Dispatch(sel);
      ghost var after := trace;
      var family := system.distroFamily;
      if family == UnknownFamily {
        Regroup(old(trace), banner, [Event.Log("Unsupported distribution: " + FamilyName(family))]);
      } else {
        ghost var pre := Prelude(family, system.gpuVendor, sel, Facts(system.distro, probes));
        ProceedOf(system.distro, family, system.gpuVendor, sel, Facts(system.distro, probes), old(programs), exitOk,
                  old(trace), start, pre, after);
      }
    }

    /** The dispatch of `install_packages` on the detected family: the
        family's installer, or the refusal of an unknown family. */
    method Dispatch(sel: Selection) returns (ok: bool)
      modifies this
      ensures var f := system.distroFamily;
        f != UnknownFamily ==>
          var pre := Prelude(f, system.gpuVendor, sel, Facts(system.distro, probes));
          var run := Batched(f, pre.batches, Selected(sel, "protonge"), old(programs), exitOk);
          trace == old(trace) + pre.events + run.events && ok && programs == run.programs
      ensures system.distroFamily == UnknownFamily ==>
        trace == old(trace) + [Event.Log("Unsupported distribution: " + FamilyName(system.distroFamily))] &&
        !ok && programs == old(programs)
      ensures fstab == old(fstab) && mountConfigs == old(mountConfigs)
    {
      var family := system.distroFamily;
      if family == Arch {
        ok := InstallArch(sel);
      } else if family == Debian {
        ok := InstallDebian(sel);
      } else if family == Fedora {
        ok := InstallFedora(sel);
      } else if family == OpenSuse {
        ok := InstallOpenSuse(sel);
      } else {
        Log("Unsupported distribution: " + FamilyName(family));
        ok := false;
      }
    }

    /** `install_arch`: collect, then run the batches. */
    method InstallArch(sel: Selection) returns (ok: bool)
      requires system.distroFamily == Arch
      modifies this
      ensures var pre := Prelude(system.distroFamily, system.gpuVendor, sel, Facts(system.distro, probes));
        var run := Batched(system.distroFamily, pre.batches, Selected(sel, "protonge"), old(programs), exitOk);
        trace == old(trace) + pre.events + run.events && ok && programs == run.programs
      ensures fstab == old(fstab) && mountConfigs == old(mountConfigs)
    {
      assert trace + [] == trace;
      var b := CollectArch(sel, system.gpuVendor);
      InstallBatches(b, Selected(sel, "protonge"));
      ok := true;
    }

    /** `install_debian`: refresh apt and enable i386 first, then collect
        (with the Flatpak fallbacks), then run the batches. */
    method InstallDebian(sel: Selection) returns (ok: bool)
      requires system.distroFamily == Debian
      modifies this
      ensures var pre := Prelude(system.distroFamily, system.gpuVendor, sel, Facts(system.distro, probes));
        var run := Batched(system.distroFamily, pre.batches, Selected(sel, "protonge"), old(programs), exitOk);
        trace == old(trace) + pre.events + run.events && ok && programs == run.programs
      ensures fstab == old(fstab) && mountConfigs == old(mountConfigs)
    {
      Log("\n[+] Updating package lists...");
      var done := RunCommand(AptUpdate, NoEffect);
      done := RunCommand(AddI386, NoEffect);
      assert trace == old(trace) + DebianBootstrap;
      var b := CollectDebian(sel);
      ghost var pre := DebianPrelude(sel, Facts(system.distro, probes));
      ghost var notes := pre.events[|DebianBootstrap|..];
      assert pre.events == DebianBootstrap + notes;
      Regroup(old(trace), DebianBootstrap, notes);
      InstallBatches(b, Selected(sel, "protonge"));
      ok := true;
    }

    /** `install_fedora`: enable RPM Fusion first, then collect and run the batches. */
    method InstallFedora(sel: Selection) returns (ok: bool)
      requires system.distroFamily == Fedora
      modifies this
      ensures var pre := Prelude(system.distroFamily, system.gpuVendor, sel, Facts(system.distro, probes));
        var run := Batched(system.distroFamily, pre.batches, Selected(sel, "protonge"), old(programs), exitOk);
        trace == old(trace) + pre.events + run.events && ok && programs == run.programs
      ensures fstab == old(fstab) && mountConfigs == old(mountConfigs)
    {
      Log("\n[+] Enabling RPM Fusion repositories...");
      var done := RunCommand(RpmFusionFree, NoEffect);
      done := RunCommand(RpmFusionNonfree, NoEffect);
      assert trace == old(trace) + FedoraBootstrap;
      var b := CollectFedora(sel);
      InstallBatches(b, Selected(sel, "protonge"));
      ok := true;
    }

    /** `install_opensuse`: collect (adding the NVIDIA repository on the way),
        then run the batches. */
    method InstallOpenSuse(sel: Selection) returns (ok: bool)
      requires system.distroFamily == OpenSuse
      modifies this
      ensures var pre := Prelude(system.distroFamily, system.gpuVendor, sel, Facts(system.distro, probes));
        var run := Batched(system.distroFamily, pre.batches, Selected(sel, "protonge"), old(programs), exitOk);
        trace == old(trace) + pre.events + run.events && ok && programs == run.programs
      ensures fstab == old(fstab) && mountConfigs == old(mountConfigs)
    {
      var b := CollectOpenSuse(sel);
      InstallBatches(b, Selected(sel, "protonge"));
      ok := true;
    }

    /** The tail every installer shares: the native batch, the AUR batch, the
        Flatpak batch and then Proton-GE, each only when it has something to do. */
    method InstallBatches(b: Batches, protonge: bool)
      requires system.distroFamily != UnknownFamily
      modifies this
      ensures var run := Batched(system.distroFamily, b, protonge, old(programs), exitOk);
        trace == old(trace) + run.events && programs == run.programs
      ensures fstab == old(fstab) && mountConfigs == old(mountConfigs)
    {
      ghost var native := NativeStep(system.distroFamily, b.native);
      ghost var aur := AurStep(b.aur, old(programs));
      ghost var fp := FlatpakPart(system.distroFamily, b.flatpak, old(programs), exitOk);
      ghost var proton := ProtonPart(protonge, fp.programs);
      InstallNative(b.native);
      InstallAur(b.aur);
      ghost var t2 := trace;
      if b.flatpak != [] {
        InstallFlatpakPackages(b.flatpak);
      }
      assert trace == t2 + fp.events;
      ghost var t3 := trace;
      if protonge {
        InstallProtonge();
      }
      assert trace == t3 + proton;
      Regroup(old(trace), native + aur + fp.events, proton);
      Regroup(old(trace), native + aur, fp.events);
      Regroup(old(trace), native, aur);
    }

    /** The native batch: deduplicated and installed with one command of the
        family's package manager, when there is anything to install. */
    method InstallNative(names: seq<string>)
      requires system.distroFamily != UnknownFamily
      modifies this
      ensures trace == old(trace) + NativeStep(system.distroFamily, names)
      ensures programs == old(programs) && fstab == old(fstab) && mountConfigs == old(mountConfigs)
    {
      if names != [] {
        var packages := Dedup(names);
        Log("\n[+] Installing packages with " + ManagerName(system.distroFamily) + "...");
        var done := RunCommand(Command(NativeProgram(system.distroFamily), packages, true), NoEffect);
      }
    }

    /** The AUR batch: deduplicated and installed with the first helper found;
        without a helper only the warning. */
    method InstallAur(names: seq<string>)
      modifies this
      ensures trace == old(trace) + AurStep(names, old(programs))
      ensures programs == old(programs) && fstab == old(fstab) && mountConfigs == old(mountConfigs)
    {
      if names != [] {
        var aurPackages := Dedup(names);
        var helper := FindAurHelper();
        if helper.Some? {
          Log("\n[+] Installing AUR packages with " + helper.value + "...");
          var done := RunCommand(Command(AurProgram(helper.value), aurPackages, false), NoEffect);
        } else {
          Log(NoAurHelperWarning);
        }
      }
    }

    /** The helper loop of `install_arch`: the first of yay and paru that
        `which` finds. */
    method FindAurHelper() returns (h: Option<string>)
      ensures h == FindHelper(AurHelpers, programs)
      ensures h.Some? ==> h.value in programs
      ensures h.None? ==> "yay" !in programs && "paru" !in programs
    {
      var helpers := AurHelpers;
      var i := 0;
      while i < |helpers|
        invariant 0 <= i <= |helpers|
        invariant forall j :: 0 <= j < i ==> helpers[j] !in programs
      {
        if helpers[i] in programs {
          h := Some(helpers[i]);
          return;
        }
        i := i + 1;
      }
      assert helpers[0] == "yay" && helpers[1] == "paru";
      h := None;
    }

    /** `install_flatpak_packages`: Flatpak itself when `which` does not find
        it, the Flathub remote, then one install per package in order. */
    method InstallFlatpakPackages(packages: seq<string>)
      modifies this
      ensures var s := FlatpakSteps(system.distroFamily, packages, old(programs), exitOk);
        trace == old(trace) + s.events && programs == s.programs
      ensures fstab == old(fstab) && mountConfigs == old(mountConfigs)
    {
      ghost var setup := FlatpakSetup(system.distroFamily, old(programs), exitOk);
      EnsureFlatpak();
      Log("\n[+] Adding Flathub repository...");
      var done := RunCommand(FlathubRemote, NoEffect);
      Log("\n[+] Installing Flatpak packages...");
      ghost var middle := [Event.Log("\n[+] Adding Flathub repository..."), Run(FlathubRemote),
                           Event.Log("\n[+] Installing Flatpak packages...")];
      ghost var head := trace;
      assert head == old(trace) + setup.events + middle;
      for i := 0 to |packages|
        invariant trace == head + FlatpakInstalls(packages[..i])
        invariant programs == setup.programs && fstab == old(fstab) && mountConfigs == old(mountConfigs)
      {
        done := RunCommand(FlatpakInstall(packages[i]), NoEffect);
        FlatpakInstallsSnoc(packages, i);
      }
      assert packages[..|packages|] == packages;
      Regroup(old(trace), setup.events + middle, FlatpakInstalls(packages));
      Regroup(old(trace), setup.events, middle);
    }

    /** The start of `install_flatpak_packages`: when `which flatpak` fails,
        install Flatpak with the family's package manager. */
    method EnsureFlatpak()
      modifies this
      ensures var setup := FlatpakSetup(system.distroFamily, old(programs), exitOk);
        trace == old(trace) + setup.events && programs == setup.programs
      ensures fstab == old(fstab) && mountConfigs == old(mountConfigs)
    {
      if "flatpak" !in programs {
        Log("\n[+] Installing Flatpak...");
        var installer := FlatpakInstaller(system.distroFamily);
        if installer.Some? {
          var done := RunCommand(installer.value, InstallsFlatpak);
        }
      }
    }

    /** `install_protonge`: ProtonUp-Qt from Flathub, only when `which flatpak` succeeds. */
    method InstallProtonge()
      modifies this
      ensures trace == old(trace) + ProtonSteps(old(programs))
      ensures programs == old(programs) && fstab == old(fstab) && mountConfigs == old(mountConfigs)
    {
      Log("\n[+] Installing ProtonUp-Qt for Proton-GE management...");
      if "flatpak" in programs {
        var done := RunCommand(PupGui, NoEffect);
      }
    }

    // ---- the collections: one step per check box, in the source's order ----
    // Each `if selections.get(k): xs.append(n)` is `xs := xs + When(Selected(sel, k), [n])`.

    /** The collection of `install_arch`. */
    method CollectArch(sel: Selection, gpu: Gpu) returns (b: Batches)
      ensures b == ArchBatches(sel, gpu)
    {
      var packages: seq<string> := [];
      var aurPackages: seq<string> := [];
      var flatpakPackages: seq<string> := [];
      AppendEmpty(When(Selected(sel, "steam"), ["steam"]));
      AppendEmpty(When(Selected(sel, "heroic"), ["heroic-games-launcher-bin"]));
      AppendEmpty(When(Selected(sel, "bottles"), ["com.usebottles.bottles"]));
      // Launchers
      packages := packages + When(Selected(sel, "steam"), ["steam"]);
      packages := packages + When(Selected(sel, "lutris"), ["lutris"]);
      aurPackages := aurPackages + When(Selected(sel, "heroic"), ["heroic-games-launcher-bin"]);
      flatpakPackages := flatpakPackages + When(Selected(sel, "bottles"), ["com.usebottles.bottles"]);
      flatpakPackages := flatpakPackages + When(Selected(sel, "protonplus"), ["com.vysp3r.ProtonPlus"]);
      aurPackages := aurPackages + When(Selected(sel, "gamehub"), ["gamehub-bin"]);
      aurPackages := aurPackages + When(Selected(sel, "minigalaxy"), ["minigalaxy"]);
      aurPackages := aurPackages + When(Selected(sel, "itch"), ["itch-setup-bin"]);
      packages := packages + When(Selected(sel, "retroarch"), ["retroarch"]);
      aurPackages := aurPackages + When(Selected(sel, "pegasus"), ["pegasus-frontend-bin"]);
      // Drivers
      packages := packages + When(Selected(sel, "nvidia"), ["nvidia", "nvidia-utils", "nvidia-settings"]);
      packages := packages + When(Selected(sel, "nvidia-open"), ["nvidia-open", "nvidia-utils", "nvidia-settings"]);
      packages := packages + When(Selected(sel, "mesa"), ["mesa", "lib32-mesa"]);
      // The Vulkan loader, with the driver of the detected GPU vendor
      packages := packages + When(Selected(sel, "vulkan"), ArchVulkan(gpu));
      packages := packages + When(Selected(sel, "lib32"), ["lib32-mesa", "lib32-vulkan-icd-loader"]);
      // Tools
      packages := packages + When(Selected(sel, "gamemode"), ["gamemode", "lib32-gamemode"]);
      packages := packages + When(Selected(sel, "mangohud"), ["mangohud", "lib32-mangohud"]);
      aurPackages := aurPackages + When(Selected(sel, "goverlay"), ["goverlay-bin"]);
      packages := packages + When(Selected(sel, "wine"), ["wine"]);
      packages := packages + When(Selected(sel, "winetricks"), ["winetricks"]);
      packages := packages + When(Selected(sel, "dxvk"), ["dxvk-bin"]);
      packages := packages + When(Selected(sel, "vkbasalt"), ["vkbasalt"]);
      aurPackages := aurPackages + When(Selected(sel, "corectrl"), ["corectrl"]);
      aurPackages := aurPackages + When(Selected(sel, "steamtinker"), ["steamtinkerlaunch"]);
      packages := packages + When(Selected(sel, "antimicrox"), ["antimicrox"]);
      aurPackages := aurPackages + When(Selected(sel, "gpu_recorder"), ["gpu-screen-recorder"]);
      packages := packages + When(Selected(sel, "gamescope"), ["gamescope"]);
      packages := packages + When(Selected(sel, "obs"), ["obs-studio"]);
      packages := packages + When(Selected(sel, "discord"), ["discord"]);
      flatpakPackages := flatpakPackages + When(Selected(sel, "flatseal"), ["com.github.tchx84.Flatseal"]);
      b := Batches(packages, aurPackages, flatpakPackages);
    }

    /** The launchers of `install_debian`: Steam and Lutris come from apt
        when `apt-cache policy` shows a candidate and from Flathub otherwise,
        with the notes the fallback logs. */
    method DebianLaunchers(sel: Selection) returns (packages: seq<string>, flatpakPackages: seq<string>)
      modifies this
      ensures var facts := Facts(system.distro, probes);
        packages == DebianLauncherNative(sel, facts.steamOk, facts.lutrisOk) &&
        flatpakPackages == DebianLauncherFlatpak(sel, facts.steamOk, facts.lutrisOk) &&
        trace == old(trace) + Logs(DebianNotes(sel, facts))
      ensures programs == old(programs) && fstab == old(fstab) && mountConfigs == old(mountConfigs)
    {
      packages := [];
      flatpakPackages := [];
      var steamOk := AptInstallable(probes.aptPolicy("steam"));
      var lutrisOk := AptInstallable(probes.aptPolicy("lutris"));
      ghost var facts := Facts(system.distro, probes);
      assert facts.steamOk == steamOk && facts.lutrisOk == lutrisOk;
      if Selected(sel, "steam") {
        if steamOk {
          packages := packages + ["steam"];
        } else {
          SteamFallbackLog();
          flatpakPackages := flatpakPackages + ["com.valvesoftware.Steam"];
        }
      }
      ghost var steamNotes := When(Selected(sel, "steam") && !steamOk,
                                   SteamFallbackNotes(facts.onDebian, facts.bookworm));
      AppendEmpty(["steam"]);
      AppendEmpty(["com.valvesoftware.Steam"]);
      assert trace == old(trace) + Logs(steamNotes);
      assert packages == When(Selected(sel, "steam") && steamOk, ["steam"]);
      assert flatpakPackages == When(Selected(sel, "steam") && !steamOk, ["com.valvesoftware.Steam"]);
      ghost var t1, p1, f1 := trace, packages, flatpakPackages;
      if Selected(sel, "lutris") {
        if lutrisOk {
          packages := packages + ["lutris"];
        } else {
          Log("[i] Lutris not in apt, using Flatpak...");
          flatpakPackages := flatpakPackages + ["net.lutris.Lutris"];
        }
      }
      ghost var lutrisNotes := When(Selected(sel, "lutris") && !lutrisOk, ["[i] Lutris not in apt, using Flatpak..."]);
      assert trace == t1 + Logs(lutrisNotes);
      assert packages == p1 + When(Selected(sel, "lutris") && lutrisOk, ["lutris"]);
      assert flatpakPackages == f1 + When(Selected(sel, "lutris") && !lutrisOk, ["net.lutris.Lutris"]);
      assert steamNotes + lutrisNotes == DebianNotes(sel, facts);
      LogsAppend(steamNotes, lutrisNotes);
      Regroup(old(trace), Logs(steamNotes), Logs(lutrisNotes));
    }

    /** What `install_debian` logs when Steam has no apt candidate: the
        non-free advisory on Bookworm, a note on other Debian releases, and a
        plain note elsewhere. */
    method SteamFallbackLog()
      modifies this
      ensures var facts := Facts(system.distro, probes);
        trace == old(trace) + Logs(SteamFallbackNotes(facts.onDebian, facts.bookworm))
      ensures programs == old(programs) && fstab == old(fstab) && mountConfigs == old(mountConfigs)
    {
      if Contains(Lower(system.distro), "debian") {
        var debianVer := DebianVersion(probes.debianVersion);
        if IsBookworm(debianVer) {
          Log("[!] Steam requires non-free repository on Debian Bookworm.");
          Log("[i] Add to /etc/apt/sources.list:");
          Log("    deb http://deb.debian.org/debian bookworm main contrib non-free");
          Log("[i] Using Flatpak version instead...");
          AdvisoryLogs();
        } else {
          Log("[i] Debian Testing/Sid - using Flatpak for Steam...");
          LogsOne("[i] Debian Testing/Sid - using Flatpak for Steam...");
        }
      } else {
        Log("[i] Steam not in apt, using Flatpak...");
        LogsOne("[i] Steam not in apt, using Flatpak...");
      }
    }

    /** The collection of `install_debian`. */
    method CollectDebian(sel: Selection) returns (b: Batches)
      modifies this
      ensures b == DebianPrelude(sel, Facts(system.distro, probes)).batches
      ensures trace == old(trace) + Logs(DebianNotes(sel, Facts(system.distro, probes)))
      ensures programs == old(programs) && fstab == old(fstab) && mountConfigs == old(mountConfigs)
    {
      // Launchers
      var packages, flatpakPackages := DebianLaunchers(sel);
      flatpakPackages := flatpakPackages + When(Selected(sel, "heroic"), ["com.heroicgameslauncher.hgl"]);
      flatpakPackages := flatpakPackages + When(Selected(sel, "bottles"), ["com.usebottles.bottles"]);
      flatpakPackages := flatpakPackages + When(Selected(sel, "protonplus"), ["com.vysp3r.ProtonPlus"]);
      flatpakPackages := flatpakPackages + When(Selected(sel, "gamehub"), ["com.github.tkashkin.gamehub"]);
      flatpakPackages := flatpakPackages + When(Selected(sel, "minigalaxy"), ["io.github.sharkwouter.Minigalaxy"]);
      flatpakPackages := flatpakPackages + When(Selected(sel, "itch"), ["io.itch.itch"]);
      flatpakPackages := flatpakPackages + When(Selected(sel, "retroarch"), ["org.libretro.RetroArch"]);
      flatpakPackages := flatpakPackages + When(Selected(sel, "pegasus"), ["org.pegasus_frontend.Pegasus"]);
      // Drivers
      packages := packages + When(Selected(sel, "nvidia"), ["nvidia-driver", "nvidia-driver-libs:i386"]);
      packages := packages + When(Selected(sel, "mesa"), ["mesa-vulkan-drivers", "mesa-vulkan-drivers:i386"]);
      packages := packages + When(Selected(sel, "vulkan"), ["libvulkan1", "libvulkan1:i386"]);
      packages := packages + When(Selected(sel, "lib32"), ["libc6:i386", "libstdc++6:i386"]);
      // Tools
      packages := packages + When(Selected(sel, "gamemode"), ["gamemode", "libgamemode0:i386"]);
      packages := packages + When(Selected(sel, "mangohud"), ["mangohud"]);
      flatpakPackages := flatpakPackages + When(Selected(sel, "goverlay"), ["io.github.benjamimgois.goverlay"]);
      packages := packages + When(Selected(sel, "wine"), ["wine"]);
      packages := packages + When(Selected(sel, "winetricks"), ["winetricks"]);
      packages := packages + When(Selected(sel, "vkbasalt"), ["vkbasalt"]);
      packages := packages + When(Selected(sel, "corectrl"), ["corectrl"]);
      flatpakPackages := flatpakPackages + When(Selected(sel, "steamtinker"), ["com.github.Matoking.SteamTinkerLaunch"]);
      flatpakPackages := flatpakPackages + When(Selected(sel, "antimicrox"), ["io.github.antimicrox.antimicrox"]);
      flatpakPackages := flatpakPackages + When(Selected(sel, "gpu_recorder"), ["com.dec05eba.gpu_screen_recorder"]);
      packages := packages + When(Selected(sel, "gamescope"), ["gamescope"]);
      packages := packages + When(Selected(sel, "obs"), ["obs-studio"]);
      flatpakPackages := flatpakPackages + When(Selected(sel, "discord"), ["com.discordapp.Discord"]);
      flatpakPackages := flatpakPackages + When(Selected(sel, "flatseal"), ["com.github.tchx84.Flatseal"]);
      b := Batches(packages, [], flatpakPackages);
    }

    /** The collection of `install_fedora`. */
    method CollectFedora(sel: Selection) returns (b: Batches)
      ensures b == FedoraBatches(sel)
    {
      var packages: seq<string> := [];
      var flatpakPackages: seq<string> := [];
      AppendEmpty(When(Selected(sel, "steam"), ["steam"]));
      AppendEmpty(When(Selected(sel, "heroic"), ["com.heroicgameslauncher.hgl"]));
      // Launchers
      packages := packages + When(Selected(sel, "steam"), ["steam"]);
      packages := packages + When(Selected(sel, "lutris"), ["lutris"]);
      flatpakPackages := flatpakPackages + When(Selected(sel, "heroic"), ["com.heroicgameslauncher.hgl"]);
      flatpakPackages := flatpakPackages + When(Selected(sel, "bottles"), ["com.usebottles.bottles"]);
      flatpakPackages := flatpakPackages + When(Selected(sel, "protonplus"), ["com.vysp3r.ProtonPlus"]);
      flatpakPackages := flatpakPackages + When(Selected(sel, "gamehub"), ["com.github.tkashkin.gamehub"]);
      flatpakPackages := flatpakPackages + When(Selected(sel, "minigalaxy"), ["io.github.sharkwouter.Minigalaxy"]);
      flatpakPackages := flatpakPackages + When(Selected(sel, "itch"), ["io.itch.itch"]);
      packages := packages + When(Selected(sel, "retroarch"), ["retroarch"]);
      flatpakPackages := flatpakPackages + When(Selected(sel, "pegasus"), ["org.pegasus_frontend.Pegasus"]);
      // Drivers
      packages := packages + When(Selected(sel, "nvidia"), ["akmod-nvidia", "xorg-x11-drv-nvidia-cuda"]);
      packages := packages + When(Selected(sel, "mesa"), ["mesa-dri-drivers", "mesa-vulkan-drivers"]);
      packages := packages + When(Selected(sel, "vulkan"), ["vulkan-loader", "vulkan-tools"]);
      packages := packages + When(Selected(sel, "lib32"), ["mesa-dri-drivers.i686", "mesa-vulkan-drivers.i686"]);
      // Tools
      packages := packages + When(Selected(sel, "gamemode"), ["gamemode", "gamemode.i686"]);
      packages := packages + When(Selected(sel, "mangohud"), ["mangohud"]);
      flatpakPackages := flatpakPackages + When(Selected(sel, "goverlay"), ["io.github.benjamimgois.goverlay"]);
      packages := packages + When(Selected(sel, "wine"), ["wine"]);
      packages := packages + When(Selected(sel, "winetricks"), ["winetricks"]);
      packages := packages + When(Selected(sel, "vkbasalt"), ["vkbasalt"]);
      packages := packages + When(Selected(sel, "corectrl"), ["corectrl"]);
      flatpakPackages := flatpakPackages + When(Selected(sel, "steamtinker"), ["com.github.Matoking.SteamTinkerLaunch"]);
      packages := packages + When(Selected(sel, "antimicrox"), ["antimicrox"]);
      flatpakPackages := flatpakPackages + When(Selected(sel, "gpu_recorder"), ["com.dec05eba.gpu_screen_recorder"]);
      packages := packages + When(Selected(sel, "gamescope"), ["gamescope"]);
      packages := packages + When(Selected(sel, "obs"), ["obs-studio"]);
      flatpakPackages := flatpakPackages + When(Selected(sel, "discord"), ["com.discordapp.Discord"]);
      flatpakPackages := flatpakPackages + When(Selected(sel, "flatseal"), ["com.github.tchx84.Flatseal"]);
      b := Batches(packages, [], flatpakPackages);
    }

    /** The collection of `install_opensuse`; selecting NVIDIA adds the NVIDIA
        repository at once. */
    method CollectOpenSuse(sel: Selection) returns (b: Batches)
      modifies this
      ensures b == OpenSuseCollect(sel).batches
      ensures trace == old(trace) + OpenSuseCollect(sel).events
      ensures programs == old(programs) && fstab == old(fstab) && mountConfigs == old(mountConfigs)
    {
      var packages: seq<string> := [];
      var flatpakPackages: seq<string> := [];
      AppendEmpty(When(Selected(sel, "lutris"), ["lutris"]));
      AppendEmpty(When(Selected(sel, "steam"), ["com.valvesoftware.Steam"]));
      // Launchers
      flatpakPackages := flatpakPackages + When(Selected(sel, "steam"), ["com.valvesoftware.Steam"]);
      packages := packages + When(Selected(sel, "lutris"), ["lutris"]);
      flatpakPackages := flatpakPackages + When(Selected(sel, "heroic"), ["com.heroicgameslauncher.hgl"]);
      flatpakPackages := flatpakPackages + When(Selected(sel, "bottles"), ["com.usebottles.bottles"]);
      flatpakPackages := flatpakPackages + When(Selected(sel, "protonplus"), ["com.vysp3r.ProtonPlus"]);
      flatpakPackages := flatpakPackages + When(Selected(sel, "gamehub"), ["com.github.tkashkin.gamehub"]);
      flatpakPackages := flatpakPackages + When(Selected(sel, "minigalaxy"), ["io.github.sharkwouter.Minigalaxy"]);
      flatpakPackages := flatpakPackages + When(Selected(sel, "itch"), ["io.itch.itch"]);
      flatpakPackages := flatpakPackages + When(Selected(sel, "retroarch"), ["org.libretro.RetroArch"]);
      flatpakPackages := flatpakPackages + When(Selected(sel, "pegasus"), ["org.pegasus_frontend.Pegasus"]);
      // Drivers
      packages := packages + When(Selected(sel, "nvidia"), ["nvidia-glG06", "nvidia-computeG06"]);
      packages := packages + When(Selected(sel, "mesa"), ["Mesa", "Mesa-dri", "Mesa-vulkan-device-select"]);
      packages := packages + When(Selected(sel, "vulkan"), ["libvulkan1", "vulkan-tools"]);
      packages := packages + When(Selected(sel, "lib32"), ["Mesa-32bit", "libvulkan1-32bit"]);
      // Tools
      packages := packages + When(Selected(sel, "gamemode"), ["gamemode"]);
      packages := packages + When(Selected(sel, "mangohud"), ["mangohud"]);
      flatpakPackages := flatpakPackages + When(Selected(sel, "goverlay"), ["io.github.benjamimgois.goverlay"]);
      packages := packages + When(Selected(sel, "wine"), ["wine"]);
      packages := packages + When(Selected(sel, "winetricks"), ["winetricks"]);
      flatpakPackages := flatpakPackages + When(Selected(sel, "corectrl"), ["org.corectrl.CoreCtrl"]);
      flatpakPackages := flatpakPackages + When(Selected(sel, "steamtinker"), ["com.github.Matoking.SteamTinkerLaunch"]);
      flatpakPackages := flatpakPackages + When(Selected(sel, "antimicrox"), ["io.github.antimicrox.antimicrox"]);
      flatpakPackages := flatpakPackages + When(Selected(sel, "gpu_recorder"), ["com.dec05eba.gpu_screen_recorder"]);
      packages := packages + When(Selected(sel, "gamescope"), ["gamescope"]);
      packages := packages + When(Selected(sel, "obs"), ["obs-studio"]);
      flatpakPackages := flatpakPackages + When(Selected(sel, "discord"), ["com.discordapp.Discord"]);
      flatpakPackages := flatpakPackages + When(Selected(sel, "flatseal"), ["com.github.tchx84.Flatseal"]);
      if Selected(sel, "nvidia") {
        var done := RunCommand(NvidiaRepoCommand, NoEffect);
      }
      b := Batches(packages, [], flatpakPackages);
    }

    // ---- uninstall_packages ----

    /** `uninstall_packages`: the selected Flatpaks one by one, then the
        family's native packages in one command; it always reports success. */
    method UninstallPackages(sel: Selection) returns (ok: bool)
      modifies this
      ensures trace == old(trace) + Uninstall(system.distro, system.distroFamily, sel) && ok
      ensures programs == old(programs) && fstab == old(fstab) && mountConfigs == old(mountConfigs)
    {
      Log("\n" + Rule);
      Log("Starting uninstallation on " + system.distro);
      Log(Rule + "\n");
      ghost var banner := Banner("Starting uninstallation on " + system.distro);
      assert trace == old(trace) + banner;
      var flatpakPackages := UninstallFlatpakList(sel);
      ghost var t1 := trace;
      RemoveFlatpaks(flatpakPackages);
      ghost var flatpakPart := trace[|t1|..];
      ghost var t2 := trace;
      var nativePackages := UninstallNativeList(sel);
      RemoveNative(nativePackages);
      ghost var nativePart := trace[|t2|..];
      Log("\n[+] Uninstallation complete!");
      ghost var done := [Event.Log("\n[+] Uninstallation complete!")];
      assert trace == old(trace) + banner + flatpakPart + nativePart + done;
      Regroup4(old(trace), banner, flatpakPart, nativePart, done);
      ok := true;
    }

    /** The Flatpak ids `uninstall_packages` collects, in the source's order. */
    method UninstallFlatpakList(sel: Selection) returns (ids: seq<string>)
      ensures ids == UninstallFlatpakIds(sel)
    {
      ids := [];
      AppendEmpty(When(Selected(sel, "steam"), ["com.valvesoftware.Steam"]));
      ids := ids + When(Selected(sel, "steam"), ["com.valvesoftware.Steam"]);
      ids := ids + When(Selected(sel, "lutris"), ["net.lutris.Lutris"]);
      ids := ids + When(Selected(sel, "heroic"), ["com.heroicgameslauncher.hgl"]);
      ids := ids + When(Selected(sel, "bottles"), ["com.usebottles.bottles"]);
      ids := ids + When(Selected(sel, "protonplus"), ["com.vysp3r.ProtonPlus"]);
      ids := ids + When(Selected(sel, "gamehub"), ["com.github.tkashkin.gamehub"]);
      ids := ids + When(Selected(sel, "retroarch"), ["org.libretro.RetroArch"]);
      ids := ids + When(Selected(sel, "pegasus"), ["org.pegasus_frontend.Pegasus"]);
      assert ids == UninstallLauncherFlatpak(sel);
      ids := ids + When(Selected(sel, "steamtinker"), ["com.github.Matoking.SteamTinkerLaunch"]);
      ids := ids + When(Selected(sel, "antimicrox"), ["io.github.antimicrox.antimicrox"]);
      ids := ids + When(Selected(sel, "gpu_recorder"), ["com.dec05eba.gpu_screen_recorder"]);
      ids := ids + When(Selected(sel, "goverlay"), ["io.github.benjamimgois.goverlay"]);
      ids := ids + When(Selected(sel, "discord"), ["com.discordapp.Discord"]);
      ids := ids + When(Selected(sel, "flatseal"), ["com.github.tchx84.Flatseal"]);
      ids := ids + When(Selected(sel, "protonge"), ["net.davidotek.pupgui2"]);
    }

    /** The Flatpak removals: the heading, then one `flatpak uninstall` per id. */
    method RemoveFlatpaks(ids: seq<string>)
      modifies this
      ensures trace == old(trace) + (if ids == [] then [] else [Event.Log("\n[+] Removing Flatpak packages...")] + FlatpakRemovals(ids))
      ensures programs == old(programs) && fstab == old(fstab) && mountConfigs == old(mountConfigs)
    {
      if ids != [] {
        Log("\n[+] Removing Flatpak packages...");
        ghost var head := trace;
        for i := 0 to |ids|
          invariant trace == head + FlatpakRemovals(ids[..i])
          invariant programs == old(programs) && fstab == old(fstab) && mountConfigs == old(mountConfigs)
        {
          var done := RunCommand(Command(FlatpakUninstallProgram, [ids[i]], true), NoEffect);
          FlatpakRemovalsSnoc(ids, i);
        }
        assert ids[..|ids|] == ids;
        Regroup(old(trace), [Event.Log("\n[+] Removing Flatpak packages...")], FlatpakRemovals(ids));
      }
    }

    /** The native packages `uninstall_packages` collects for the detected family. */
    method UninstallNativeList(sel: Selection) returns (names: seq<string>)
      ensures names == UninstallNativeNames(system.distroFamily, sel)
    {
      names := [];
      var family := system.distroFamily;
      if family == Arch {
        AppendEmpty(When(Selected(sel, "steam"), ["steam"]));
        names := names + When(Selected(sel, "steam"), ["steam"]);
        names := names + When(Selected(sel, "lutris"), ["lutris"]);
        names := names + When(Selected(sel, "retroarch"), ["retroarch"]);
        names := names + When(Selected(sel, "gamemode"), ["gamemode", "lib32-gamemode"]);
        names := names + When(Selected(sel, "mangohud"), ["mangohud", "lib32-mangohud"]);
        names := names + When(Selected(sel, "wine"), ["wine"]);
        names := names + When(Selected(sel, "obs"), ["obs-studio"]);
        names := names + When(Selected(sel, "discord"), ["discord"]);
      } else if family == Debian {
        AppendEmpty(When(Selected(sel, "steam"), ["steam"]));
        names := names + When(Selected(sel, "steam"), ["steam"]);
        names := names + When(Selected(sel, "lutris"), ["lutris"]);
        names := names + When(Selected(sel, "gamemode"), ["gamemode"]);
        names := names + When(Selected(sel, "mangohud"), ["mangohud"]);
        names := names + When(Selected(sel, "wine"), ["wine"]);
        names := names + When(Selected(sel, "obs"), ["obs-studio"]);
      } else if family == Fedora {
        AppendEmpty(When(Selected(sel, "steam"), ["steam"]));
        names := names + When(Selected(sel, "steam"), ["steam"]);
        names := names + When(Selected(sel, "lutris"), ["lutris"]);
        names := names + When(Selected(sel, "retroarch"), ["retroarch"]);
        names := names + When(Selected(sel, "gamemode"), ["gamemode"]);
        names := names + When(Selected(sel, "mangohud"), ["mangohud"]);
        names := names + When(Selected(sel, "wine"), ["wine"]);
        names := names + When(Selected(sel, "obs"), ["obs-studio"]);
      } else if family == OpenSuse {
        AppendEmpty(When(Selected(sel, "lutris"), ["lutris"]));
        names := names + When(Selected(sel, "lutris"), ["lutris"]);
        names := names + When(Selected(sel, "gamemode"), ["gamemode"]);
        names := names + When(Selected(sel, "mangohud"), ["mangohud"]);
        names := names + When(Selected(sel, "wine"), ["wine"]);
        names := names + When(Selected(sel, "obs"), ["obs-studio"]);
      }
    }

    /** The native removal: one remove command of the family's package manager
        for all the names, followed on Debian by `apt autoremove`. */
    method RemoveNative(names: seq<string>)
      modifies this
      ensures trace == old(trace) + NativeRemoval(system.distroFamily, names)
      ensures programs == old(programs) && fstab == old(fstab) && mountConfigs == old(mountConfigs)
    {
      var family := system.distroFamily;
      if names != [] && family != UnknownFamily {
        Log("\n[+] Removing native packages...");
        var done := RunCommand(Command(RemoveProgram(family), names, true), NoEffect);
        if family == Debian {
          done := RunCommand(AptAutoremove, NoEffect);
        }
      }
    }

    // ---- apply_optimizations ----

    /** `apply_optimizations`: each chosen tweak writes its configuration, in a fixed order. */
    method ApplyOptimizations(sel: Selection)
      modifies this
      ensures trace == old(trace) + Optimizations(sel)
      ensures programs == old(programs) && fstab == old(fstab) && mountConfigs == old(mountConfigs)
    {
      Log("\n" + Rule);
      Log("Applying System Optimizations");
      Log(Rule + "\n");
      ghost var banner := Banner("Applying System Optimizations");
      assert trace == old(trace) + banner;
      ghost var t1 := trace;
      ApplyTweak(Selected(sel, "cpu_governor"), "[+] Setting CPU governor to performance mode...",
                 GovernorDefault, GovernorTmpfiles);
      ghost var cpu := trace[|t1|..];
      ghost var t2 := trace;
      ApplyTweak(Selected(sel, "swappiness"), "[+] Setting swappiness to 10 for gaming...",
                 SwappinessWrite, SwappinessReload);
      ghost var swap := trace[|t2|..];
      ghost var t3 := trace;
      ApplyTweak(Selected(sel, "io_scheduler"), "[+] Optimizing I/O scheduler for gaming...",
                 SchedulerSsd, SchedulerHdd);
      ghost var io := trace[|t3|..];
      assert trace == old(trace) + banner + cpu + swap + io;
      Regroup4(old(trace), banner, cpu, swap, io);
    }

    /** One optimization of `apply_optimizations`: when chosen, its heading and its two commands. */
    method ApplyTweak(chosen: bool, heading: string, first: Command, second: Command)
      modifies this
      ensures trace == old(trace) + Tweak(chosen, heading, first, second)
      ensures programs == old(programs) && fstab == old(fstab) && mountConfigs == old(mountConfigs)
    {
      if chosen {
        Log(heading);
        var done := RunCommand(first, NoEffect);
        done := RunCommand(second, NoEffect);
      }
    }

    // ---- apply_mount_configs ----

    /** `apply_mount_configs`: nothing without configurations; otherwise the
        banner, the fstab backup, then each configuration in order, each seeing
        the fstab the previous ones left. */
    method ApplyMountConfigs()
      modifies this
      ensures var user := MountUser(env);
        var m := ApplyMounts(mountConfigs, user, userId(user), groupId(user), old(fstab), exitOk);
        trace == old(trace) + m.events && fstab == m.fstab
      ensures programs == old(programs) && mountConfigs == old(mountConfigs)
    {
      if mountConfigs == [] {
        assert trace + [] == trace;
        return;
      }
      Log("\n" + Rule);
      Log("Configuring Drive Mounts");
      Log(Rule + "\n");
      Log("[+] Backing up /etc/fstab...");
      var done := RunCommand(Backup, NoEffect);
      ghost var head := trace;
      ghost var banner := Banner("Configuring Drive Mounts");
      assert head == old(trace) + banner + BackupEvents;
      ghost var user := MountUser(env);
      ghost var all := SetupAll(mountConfigs, user, userId(user), groupId(user), old(fstab), exitOk);
      SetupMountPoints(mountConfigs);
      Regroup(old(trace), banner + BackupEvents, all.events);
      Regroup(old(trace), banner, BackupEvents);
    }

    /** The loop of `apply_mount_configs` over the configurations. */
    method SetupMountPoints(configs: seq<MountConfig>)
      modifies this
      ensures var user := MountUser(env);
        var m := SetupAll(configs, user, userId(user), groupId(user), old(fstab), exitOk);
        trace == old(trace) + m.events && fstab == m.fstab
      ensures programs == old(programs) && mountConfigs == old(mountConfigs)
    {
      ghost var user := MountUser(env);
      ghost var uid, gid := userId(user), groupId(user);
      for i := 0 to |configs|
        invariant programs == old(programs) && mountConfigs == old(mountConfigs)
        invariant trace == old(trace) + SetupAll(configs[..i], user, uid, gid, old(fstab), exitOk).events
        invariant fstab == SetupAll(configs[..i], user, uid, gid, old(fstab), exitOk).fstab
      {
        ghost var before := trace;
        SetupMountPoint(configs[i]);
        SetupAllStep(configs, i, user, uid, gid, old(fstab), exitOk);
        Regroup(old(trace), SetupAll(configs[..i], user, uid, gid, old(fstab), exitOk).events, trace[|before|..]);
      }
      assert configs[..|configs|] == configs;
    }

    /** One iteration of `apply_mount_configs`: create and chown the mount
        point, record it in fstab, then mount. */
    method SetupMountPoint(config: MountConfig)
      modifies this
      ensures var user := MountUser(env);
        var m := SetupMount(config, user, userId(user), groupId(user), old(fstab), exitOk);
        trace == old(trace) + m.events && fstab == m.fstab
      ensures programs == old(programs) && mountConfigs == old(mountConfigs)
    {
      Log("\n[+] Setting up mount: " + config.device + " -> " + config.mountPoint);
      var done := RunCommand(MakeDir(config.mountPoint), NoEffect);
      var user := MountUser(env);
      done := RunCommand(Chown(user, config.mountPoint), NoEffect);
      assert trace == old(trace) + Prepare(config, user);
      ghost var prepared := trace;
      RecordMountPoint(config, user);
      ghost var record := trace[|prepared|..];
      ghost var recorded := trace;
      Log("[+] Mounting " + config.mountPoint + "...");
      done := RunCommand(MountCmd(config.mountPoint), NoEffect);
      assert trace == recorded + MountEvents(config.mountPoint);
      Regroup(old(trace), Prepare(config, user) + record, MountEvents(config.mountPoint));
      Regroup(old(trace), Prepare(config, user), record);
    }

    /** The fstab step of one configuration: append the line unless the mount
        point already occurs anywhere in fstab. */
    method RecordMountPoint(config: MountConfig, user: string)
      modifies this
      ensures var entry := EntryFor(config, userId(user), groupId(user));
        var add := !Contains(old(fstab), config.mountPoint);
        trace == old(trace) + Record(config.mountPoint, entry, add) &&
        fstab == if add && exitOk(AppendLine(entry)) then old(fstab) + entry + "\n" else old(fstab)
      ensures programs == old(programs) && mountConfigs == old(mountConfigs)
    {
      // `id -u` and `id -g` only matter for the types without Unix ownership
      var options := MountOptions(config.fstype, userId(user), groupId(user));
      var fstabEntry := FstabEntry(config, options);
      var fstabContent := fstab;
      if !Contains(fstabContent, config.mountPoint) {
        Log("[+] Adding to /etc/fstab: " + fstabEntry);
        var done := RunCommand(AppendLine(fstabEntry), AppendsToFstab(fstabEntry));
      } else {
        Log("[!] Mount point " + config.mountPoint + " already in fstab");
      }
    }

  }

  lemma AppendEmpty(s: seq<string>)
    ensures [] + s == s
  {
  }

  lemma Regroup(a: seq<Event>, b: seq<Event>, c: seq<Event>)
    ensures a + (b + c) == a + b + c
  {
  }

  lemma {:induction false} LogsAppend(a: seq<string>, b: seq<string>)
    ensures Logs(a + b) == Logs(a) + Logs(b)
  {
    if a == [] {
      assert a + b == b;
    } else {
      assert (a + b)[1..] == a[1..] + b;
      LogsAppend(a[1..], b);
    }
  }

  /** Joins the banner and a family's run into the outcome of `Install`. */
  lemma ProceedOf(distro: string, family: Family, gpu: Gpu, sel: Selection, facts: DebianFacts,
                  programs: set<string>, exitOk: Command -> bool,
                  before: seq<Event>, start: seq<Event>, pre: Collected, after: seq<Event>)
    requires family != UnknownFamily
    requires pre == Prelude(family, gpu, sel, facts)
    requires start == before + Banner("Starting installation on " + distro)
    requires after == start + pre.events + Batched(family, pre.batches, Selected(sel, "protonge"), programs, exitOk).events
    ensures after == before + Install(distro, family, gpu, sel, facts, programs, exitOk).events
  {
    var banner := Banner("Starting installation on " + distro);
    var run := Batched(family, pre.batches, Selected(sel, "protonge"), programs, exitOk);
    Regroup(before, banner + pre.events, run.events);
    Regroup(before, banner, pre.events);
  }

  lemma FlatpakInstallsSnoc(packages: seq<string>, i: nat)
    requires i < |packages|
    ensures FlatpakInstalls(packages[..i + 1]) == FlatpakInstalls(packages[..i]) + [Run(FlatpakInstall(packages[i]))]
  {
  }

  lemma LogsOne(text: string)
    ensures Logs([text]) == [Event.Log(text)]
  {
  }

  lemma AdvisoryLogs()
    ensures Logs(NonFreeAdvisory) ==
      [Event.Log(NonFreeAdvisory[0])] + [Event.Log(NonFreeAdvisory[1])] +
      [Event.Log(NonFreeAdvisory[2])] + [Event.Log(NonFreeAdvisory[3])]
  {
  }

  lemma Regroup4(a: seq<Event>, b: seq<Event>, c: seq<Event>, d: seq<Event>, e: seq<Event>)
    ensures a + b + c + d + e == a + (b + c + d + e)
  {
  }

  lemma FlatpakRemovalsSnoc(ids: seq<string>, i: nat)
    requires i < |ids|
    ensures FlatpakRemovals(ids[..i + 1]) == FlatpakRemovals(ids[..i]) + [Run(Command(FlatpakUninstallProgram, [ids[i]], true))]
  {
  }

  lemma SetupAllStep(cfgs: seq<MountConfig>, i: nat, user: string, uid: string, gid: string, fstab: string,
                     exitOk: Command -> bool)
    requires i < |cfgs|
    ensures var prev := SetupAll(cfgs[..i], user, uid, gid, fstab, exitOk);
      var step := SetupMount(cfgs[i], user, uid, gid, prev.fstab, exitOk);
      SetupAll(cfgs[..i + 1], user, uid, gid, fstab, exitOk) == Mounted(prev.events + step.events, step.fstab)
  {
    assert cfgs[..i + 1][..i] == cfgs[..i];
  }
}
