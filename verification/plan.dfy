/** What the installer logs and runs for one request, as pure functions of the
    selection and the host facts. `InstallationManager` is proved against these. */
module Plan {
  import opened Text
  import opened Wrappers
  import opened Distro
  import opened Commands
  import opened Packages

  /** `distro_family` as the source spells it. */
  function FamilyName(f: Family): string {
    match f
    case Arch => "arch"
    case Debian => "debian"
    case Fedora => "fedora"
    case OpenSuse => "opensuse"
    case UnknownFamily => "unknown"
  }

  /** `'=' * 60`. */
  const Rule: string := "============================================================"

  /** The three log lines that open an install, uninstall or optimization run. */
  function Banner(title: string): (es: seq<Event>)
    ensures Runs(es) == []
  {
    var es := [Log("\n" + Rule), Log(title), Log(Rule + "\n")];
    RunsOfLogs(es);
    es
  }

  // ---- probes the installer reads besides the selection ----

  /** The answers of the read-only probes: `apt-cache policy <pkg>` and
      /etc/debian_version (None when it cannot be read). `which` is the set of
      programs the installer's state keeps. */
  datatype Probes = Probes(aptPolicy: string -> AptProbe, debianVersion: Option<string>)

  /** What `install_debian` reads from the probes and the distribution name. */
  function Facts(distro: string, probes: Probes): DebianFacts {
    DebianFacts(AptInstallable(probes.aptPolicy("steam")), AptInstallable(probes.aptPolicy("lutris")),
                Contains(Lower(distro), "debian"), IsBookworm(DebianVersion(probes.debianVersion)))
  }

  // ---- the native batch ----

  function ManagerName(f: Family): string
    requires f != UnknownFamily
  {
    match f
    case Arch => "pacman"
    case Debian => "apt"
    case Fedora => "dnf"
    case OpenSuse => "zypper"
  }

  /** The batch install command, without its package words. */
  function NativeProgram(f: Family): string
    requires f != UnknownFamily
  {
    match f
    case Arch => "pacman -S --needed --noconfirm"
    case Debian => "apt install -y"
    case Fedora => "dnf install -y"
    case OpenSuse => "zypper install -y"
  }

  const NativePrograms: seq<string> :=
    ["pacman -S --needed --noconfirm", "apt install -y", "dnf install -y", "zypper install -y"]

  /** The native batch: nothing for an empty list, otherwise one privileged
      command naming every collected package once. */
  function NativeStep(f: Family, names: seq<string>): seq<Event>
    requires f != UnknownFamily
  {
    if names == [] then []
    else [Log("\n[+] Installing packages with " + ManagerName(f) + "..."),
          Run(Command(NativeProgram(f), Dedup(names), true))]
  }

  // ---- the AUR batch (Arch) ----

  const AurHelpers: seq<string> := ["yay", "paru"]

  /** The index of the first helper `which` finds; `|helpers|` when none is found. */
  function FirstFound(helpers: seq<string>, programs: set<string>): (i: nat)
    ensures i <= |helpers|
    ensures forall j :: 0 <= j < i ==> helpers[j] !in programs
    ensures i < |helpers| ==> helpers[i] in programs
  {
    if helpers == [] then 0
    else if helpers[0] in programs then 0
    else 1 + FirstFound(helpers[1..], programs)
  }

  function FindHelper(helpers: seq<string>, programs: set<string>): Option<string> {
    var i := FirstFound(helpers, programs);
    if i < |helpers| then Some(helpers[i]) else None
  }

  function AurProgram(helper: string): string {
    helper + " -S --needed --noconfirm"
  }

  const NoAurHelperWarning: string := "\n[!] No AUR helper found. Please install yay or paru for AUR packages."

  /** The AUR batch: run unprivileged with the first helper found, or a warning
      and no command when there is none. */
  function AurStep(names: seq<string>, programs: set<string>): seq<Event> {
    if names == [] then []
    else
      match FindHelper(AurHelpers, programs)
      case Some(h) =>
        [Log("\n[+] Installing AUR packages with " + h + "..."),
         Run(Command(AurProgram(h), Dedup(names), false))]
      case None => [Log(NoAurHelperWarning)]
  }

  // ---- Flatpak and Proton-GE ----

  /** The command that installs Flatpak itself with the family's package manager. */
  function FlatpakInstaller(f: Family): Option<Command> {
    match f
    case Arch => Some(Command("pacman -S --needed --noconfirm flatpak", [], true))
    case Debian => Some(Command("apt install -y flatpak", [], true))
    case Fedora => Some(Command("dnf install -y flatpak", [], true))
    case OpenSuse => Some(Command("zypper install -y flatpak", [], true))
    case UnknownFamily => None
  }

  const FlathubRemote: Command :=
    Command("flatpak remote-add --if-not-exists flathub https://flathub.org/repo/flathub.flatpakrepo", [], true)

  const FlatpakInstallProgram: string := "flatpak install -y --noninteractive flathub"

  function FlatpakInstall(pkg: string): Command {
    Command(FlatpakInstallProgram, [pkg], true)
  }

  const PupGui: Command :=
    Command("flatpak install -y --noninteractive flathub net.davidotek.pupgui2", [], true)

  /** Events together with the programs `which` finds afterwards. */
  datatype Step = Step(events: seq<Event>, programs: set<string>)

  /** `which flatpak`, and the Flatpak install when it fails. A successful
      install puts `flatpak` on the path. */
  function FlatpakSetup(f: Family, programs: set<string>, exitOk: Command -> bool): Step {
    if "flatpak" in programs then Step([], programs)
    else
      match FlatpakInstaller(f)
      case None => Step([Log("\n[+] Installing Flatpak...")], programs)
      case Some(c) =>
        Step([Log("\n[+] Installing Flatpak..."), Run(c)],
             if exitOk(c) then programs + {"flatpak"} else programs)
  }

  /** One `flatpak install` per package, in list order. */
  function FlatpakInstalls(pkgs: seq<string>): (es: seq<Event>)
    ensures |es| == |pkgs|
    ensures forall i :: 0 <= i < |pkgs| ==> es[i] == Run(FlatpakInstall(pkgs[i]))
  {
    if pkgs == [] then [] else [Run(FlatpakInstall(pkgs[0]))] + FlatpakInstalls(pkgs[1..])
  }

  /** `install_flatpak_packages`. */
  function FlatpakSteps(f: Family, pkgs: seq<string>, programs: set<string>, exitOk: Command -> bool): Step {
    var setup := FlatpakSetup(f, programs, exitOk);
    Step(setup.events +
         [Log("\n[+] Adding Flathub repository..."), Run(FlathubRemote),
          Log("\n[+] Installing Flatpak packages...")] +
         FlatpakInstalls(pkgs),
         setup.programs)
  }

  /** `install_protonge`: ProtonUp-Qt is installed only when `which flatpak` succeeds. */
  function ProtonSteps(programs: set<string>): seq<Event> {
    [Log("\n[+] Installing ProtonUp-Qt for Proton-GE management...")] +
    (if "flatpak" in programs then [Run(PupGui)] else [])
  }

  // ---- install_packages ----

  const AptUpdate: Command := Command("apt update", [], true)
  const AddI386: Command := Command("dpkg --add-architecture i386", [], true)
  const RpmFusionFree: Command := Command(
    "dnf install -y https://download1.rpmfusion.org/free/fedora/rpmfusion-free-release-$(rpm -E %fedora).noarch.rpm",
    [], true)
  const RpmFusionNonfree: Command := Command(
    "dnf install -y https://download1.rpmfusion.org/nonfree/fedora/rpmfusion-nonfree-release-$(rpm -E %fedora).noarch.rpm",
    [], true)

  const DebianBootstrap: seq<Event> :=
    [Log("\n[+] Updating package lists..."), Run(AptUpdate), Run(AddI386)]

  const FedoraBootstrap: seq<Event> :=
    [Log("\n[+] Enabling RPM Fusion repositories..."), Run(RpmFusionFree), Run(RpmFusionNonfree)]

  /** What each family does before its batches (bootstrap and the events of the
      collection), and the batches it collects. */
  function Prelude(f: Family, gpu: Gpu, sel: Selection, facts: DebianFacts): Collected {
    match f
    case Arch => Collected(ArchBatches(sel, gpu), [])
    case Debian => DebianPrelude(sel, facts)
    case Fedora => Collected(FedoraBatches(sel), FedoraBootstrap)
    case OpenSuse => OpenSuseCollect(sel)
    case UnknownFamily => Collected(Batches([], [], []), [])
  }

  function DebianPrelude(sel: Selection, facts: DebianFacts): Collected {
    var c := DebianCollect(sel, facts);
    Collected(c.batches, DebianBootstrap + c.events)
  }

  /** The Flatpak part of a run: nothing for an empty Flatpak list. */
  function FlatpakPart(f: Family, pkgs: seq<string>, programs: set<string>, exitOk: Command -> bool): Step {
    if pkgs == [] then Step([], programs) else FlatpakSteps(f, pkgs, programs, exitOk)
  }

  function ProtonPart(protonge: bool, programs: set<string>): seq<Event> {
    if protonge then ProtonSteps(programs) else []
  }

  /** The batches in their fixed order: native, AUR, Flatpak, then Proton-GE. */
  function Batched(f: Family, b: Batches, protonge: bool, programs: set<string>,
                   exitOk: Command -> bool): Step
    requires f != UnknownFamily
  {
    var fp := FlatpakPart(f, b.flatpak, programs, exitOk);
    Step(NativeStep(f, b.native) + AurStep(b.aur, programs) + fp.events + ProtonPart(protonge, fp.programs),
         fp.programs)
  }

  datatype Outcome = Outcome(events: seq<Event>, ok: bool, programs: set<string>)

  /** `install_packages`: the banner, then the family's run; an unknown family
      is refused after the banner. */
  function Install(distro: string, family: Family, gpu: Gpu, sel: Selection, facts: DebianFacts,
                   programs: set<string>, exitOk: Command -> bool): Outcome
  {
    if family == UnknownFamily then
      Outcome(Banner("Starting installation on " + distro) +
              [Log("Unsupported distribution: " + FamilyName(family))], false, programs)
    else
      Proceed(distro, family, Prelude(family, gpu, sel, facts), Selected(sel, "protonge"),
              programs, exitOk)
  }

  /** A supported family's run once its prelude is known. */
  function Proceed(distro: string, family: Family, pre: Collected, protonge: bool, programs: set<string>,
                   exitOk: Command -> bool): Outcome
    requires family != UnknownFamily
  {
    var run := Batched(family, pre.batches, protonge, programs, exitOk);
    Outcome(Banner("Starting installation on " + distro) + pre.events + run.events, true, run.programs)
  }

  // ---- uninstall_packages ----

  /** The Flatpak ids `uninstall_packages` removes, whatever the family. */
  function UninstallFlatpakIds(sel: Selection): seq<string> {
    UninstallLauncherFlatpak(sel) +
    When(Selected(sel, "steamtinker"), ["com.github.Matoking.SteamTinkerLaunch"]) +
    When(Selected(sel, "antimicrox"), ["io.github.antimicrox.antimicrox"]) +
    When(Selected(sel, "gpu_recorder"), ["com.dec05eba.gpu_screen_recorder"]) +
    When(Selected(sel, "goverlay"), ["io.github.benjamimgois.goverlay"]) +
    When(Selected(sel, "discord"), ["com.discordapp.Discord"]) +
    When(Selected(sel, "flatseal"), ["com.github.tchx84.Flatseal"]) +
    When(Selected(sel, "protonge"), ["net.davidotek.pupgui2"])
  }

  /** The launcher part of the Flatpak removals. */
  function UninstallLauncherFlatpak(sel: Selection): seq<string> {
    When(Selected(sel, "steam"), ["com.valvesoftware.Steam"]) +
    When(Selected(sel, "lutris"), ["net.lutris.Lutris"]) +
    When(Selected(sel, "heroic"), ["com.heroicgameslauncher.hgl"]) +
    When(Selected(sel, "bottles"), ["com.usebottles.bottles"]) +
    When(Selected(sel, "protonplus"), ["com.vysp3r.ProtonPlus"]) +
    When(Selected(sel, "gamehub"), ["com.github.tkashkin.gamehub"]) +
    When(Selected(sel, "retroarch"), ["org.libretro.RetroArch"]) +
    When(Selected(sel, "pegasus"), ["org.pegasus_frontend.Pegasus"])
  }

  /** The native packages `uninstall_packages` removes; none for an unknown family. */
  function UninstallNativeNames(f: Family, sel: Selection): seq<string> {
    match f
    case Arch =>
      When(Selected(sel, "steam"), ["steam"]) +
      When(Selected(sel, "lutris"), ["lutris"]) +
      When(Selected(sel, "retroarch"), ["retroarch"]) +
      When(Selected(sel, "gamemode"), ["gamemode", "lib32-gamemode"]) +
      When(Selected(sel, "mangohud"), ["mangohud", "lib32-mangohud"]) +
      When(Selected(sel, "wine"), ["wine"]) +
      When(Selected(sel, "obs"), ["obs-studio"]) +
      When(Selected(sel, "discord"), ["discord"])
    case Debian =>
      When(Selected(sel, "steam"), ["steam"]) +
      When(Selected(sel, "lutris"), ["lutris"]) +
      When(Selected(sel, "gamemode"), ["gamemode"]) +
      When(Selected(sel, "mangohud"), ["mangohud"]) +
      When(Selected(sel, "wine"), ["wine"]) +
      When(Selected(sel, "obs"), ["obs-studio"])
    case Fedora =>
      When(Selected(sel, "steam"), ["steam"]) +
      When(Selected(sel, "lutris"), ["lutris"]) +
      When(Selected(sel, "retroarch"), ["retroarch"]) +
      When(Selected(sel, "gamemode"), ["gamemode"]) +
      When(Selected(sel, "mangohud"), ["mangohud"]) +
      When(Selected(sel, "wine"), ["wine"]) +
      When(Selected(sel, "obs"), ["obs-studio"])
    case OpenSuse =>
      When(Selected(sel, "lutris"), ["lutris"]) +
      When(Selected(sel, "gamemode"), ["gamemode"]) +
      When(Selected(sel, "mangohud"), ["mangohud"]) +
      When(Selected(sel, "wine"), ["wine"]) +
      When(Selected(sel, "obs"), ["obs-studio"])
    case UnknownFamily => []
  }

  function RemoveProgram(f: Family): string
    requires f != UnknownFamily
  {
    match f
    case Arch => "pacman -Rns --noconfirm"
    case Debian => "apt remove -y"
    case Fedora => "dnf remove -y"
    case OpenSuse => "zypper remove -y"
  }

  const AptAutoremove: Command := Command("apt autoremove -y", [], true)

  const FlatpakUninstallProgram: string := "flatpak uninstall -y"

  function FlatpakRemovals(ids: seq<string>): (es: seq<Event>)
    ensures |es| == |ids|
    ensures forall i :: 0 <= i < |ids| ==> es[i] == Run(Command(FlatpakUninstallProgram, [ids[i]], true))
  {
    if ids == [] then [] else [Run(Command(FlatpakUninstallProgram, [ids[0]], true))] + FlatpakRemovals(ids[1..])
  }

  /** The native removal: one batch command (not deduplicated), and on Debian an autoremove. */
  function NativeRemoval(f: Family, names: seq<string>): seq<Event> {
    if names == [] || f == UnknownFamily then []
    else
      [Log("\n[+] Removing native packages..."), Run(Command(RemoveProgram(f), names, true))] +
      (if f == Debian then [Run(AptAutoremove)] else [])
  }

  /** `uninstall_packages`: Flatpak removals one by one, then the native batch;
      it always reports success. */
  function Uninstall(distro: string, family: Family, sel: Selection): seq<Event> {
    Removal(distro, family, UninstallFlatpakIds(sel), UninstallNativeNames(family, sel))
  }

  /** An uninstall of the given Flatpak ids and native packages. */
  function Removal(distro: string, family: Family, ids: seq<string>, names: seq<string>): seq<Event> {
    Banner("Starting uninstallation on " + distro) +
    (if ids == [] then [] else [Log("\n[+] Removing Flatpak packages...")] + FlatpakRemovals(ids)) +
    NativeRemoval(family, names) +
    [Log("\n[+] Uninstallation complete!")]
  }

  // ---- apply_optimizations ----

  const GovernorDefault: Command :=
    Command("echo 'GOVERNOR=\"performance\"' > /etc/default/cpufrequtils", [], true)
  const GovernorTmpfiles: Command := Command(
    "echo 'w /sys/devices/system/cpu/cpu*/cpufreq/scaling_governor - - - - performance' > /etc/tmpfiles.d/cpu-governor.conf",
    [], true)
  const SwappinessWrite: Command := Command("echo 'vm.swappiness=10' > /etc/sysctl.d/99-gaming.conf", [], true)
  const SwappinessReload: Command := Command("sysctl -p /etc/sysctl.d/99-gaming.conf", [], true)
  const SchedulerSsd: Command := Command(
    "echo 'ACTION==\"add|change\", KERNEL==\"sd[a-z]*\", ATTR{queue/rotational}==\"0\", ATTR{queue/scheduler}=\"none\"' > /etc/udev/rules.d/60-io-scheduler.rules",
    [], true)
  const SchedulerHdd: Command := Command(
    "echo 'ACTION==\"add|change\", KERNEL==\"sd[a-z]*\", ATTR{queue/rotational}==\"1\", ATTR{queue/scheduler}=\"mq-deadline\"' >> /etc/udev/rules.d/60-io-scheduler.rules",
    [], true)

  /** One tweak: its heading and its two privileged commands, or nothing when not chosen. */
  function Tweak(chosen: bool, heading: string, first: Command, second: Command): seq<Event> {
    if chosen then [Log(heading), Run(first), Run(second)] else []
  }

  /** `apply_optimizations`: each chosen tweak writes its configuration, in a fixed order. */
  function Optimizations(sel: Selection): seq<Event> {
    Banner("Applying System Optimizations") +
    Tweak(Selected(sel, "cpu_governor"), "[+] Setting CPU governor to performance mode...",
          GovernorDefault, GovernorTmpfiles) +
    Tweak(Selected(sel, "swappiness"), "[+] Setting swappiness to 10 for gaming...",
          SwappinessWrite, SwappinessReload) +
    Tweak(Selected(sel, "io_scheduler"), "[+] Optimizing I/O scheduler for gaming...",
          SchedulerSsd, SchedulerHdd)
  }
}
