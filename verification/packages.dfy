/** Selection -> package batches, per distribution family: which native,
    AUR and Flatpak names each selected component contributes, in the order
    the installer appends them. */
module Packages {
  import opened Text
  import opened Wrappers
  import opened Distro
  import opened Commands

  /** The check-box state: component key -> wanted. A missing key is not wanted. */
  type Selection = map<string, bool>

  /** `selections.get(key)` is true. */
  predicate Selected(sel: Selection, key: string) {
    key in sel && sel[key]
  }

  function When(b: bool, names: seq<string>): seq<string> {
    if b then names else []
  }

  datatype Batches = Batches(native: seq<string>, aur: seq<string>, flatpak: seq<string>)

  /** The names collected while walking the selection, and what was logged or
      run on the way (the Debian fallback notes, the openSUSE NVIDIA repository). */
  datatype Collected = Collected(batches: Batches, events: seq<Event>)

  function ArchVulkan(gpu: Gpu): seq<string> {
    ["vulkan-icd-loader", "lib32-vulkan-icd-loader"] +
    match gpu
    case Nvidia => ["nvidia-utils"]
    case Amd => ["vulkan-radeon", "lib32-vulkan-radeon"]
    case Intel => ["vulkan-intel", "lib32-vulkan-intel"]
    case UnknownGpu => []
  }

  /** `install_arch`'s collection: pacman, AUR and Flatpak names. */
  function ArchBatches(sel: Selection, gpu: Gpu): Batches {
    Batches(ArchToolNative(sel, ArchDriverNative(sel, gpu, ArchLauncherNative(sel))),
            ArchToolAur(sel, ArchLauncherAur(sel)),
            ArchToolFlatpak(sel, ArchLauncherFlatpak(sel)))
  }

  function ArchLauncherNative(sel: Selection): seq<string> {
    When(Selected(sel, "steam"), ["steam"]) +
    When(Selected(sel, "lutris"), ["lutris"]) +
    When(Selected(sel, "retroarch"), ["retroarch"])
  }

  function ArchLauncherAur(sel: Selection): seq<string> {
    When(Selected(sel, "heroic"), ["heroic-games-launcher-bin"]) +
    When(Selected(sel, "gamehub"), ["gamehub-bin"]) +
    When(Selected(sel, "minigalaxy"), ["minigalaxy"]) +
    When(Selected(sel, "itch"), ["itch-setup-bin"]) +
    When(Selected(sel, "pegasus"), ["pegasus-frontend-bin"])
  }

  function ArchLauncherFlatpak(sel: Selection): seq<string> {
    When(Selected(sel, "bottles"), ["com.usebottles.bottles"]) +
    When(Selected(sel, "protonplus"), ["com.vysp3r.ProtonPlus"])
  }

  /** The driver section appends to the pacman list of the launcher section. */
  function ArchDriverNative(sel: Selection, gpu: Gpu, packages: seq<string>): seq<string> {
    packages +
    When(Selected(sel, "nvidia"), ["nvidia", "nvidia-utils", "nvidia-settings"]) +
    When(Selected(sel, "nvidia-open"), ["nvidia-open", "nvidia-utils", "nvidia-settings"]) +
    When(Selected(sel, "mesa"), ["mesa", "lib32-mesa"]) +
    When(Selected(sel, "vulkan"), ArchVulkan(gpu)) +
    When(Selected(sel, "lib32"), ["lib32-mesa", "lib32-vulkan-icd-loader"])
  }

  function ArchToolNative(sel: Selection, packages: seq<string>): seq<string> {
    packages +
    When(Selected(sel, "gamemode"), ["gamemode", "lib32-gamemode"]) +
    When(Selected(sel, "mangohud"), ["mangohud", "lib32-mangohud"]) +
    When(Selected(sel, "wine"), ["wine"]) +
    When(Selected(sel, "winetricks"), ["winetricks"]) +
    When(Selected(sel, "dxvk"), ["dxvk-bin"]) +
    When(Selected(sel, "vkbasalt"), ["vkbasalt"]) +
    When(Selected(sel, "antimicrox"), ["antimicrox"]) +
    When(Selected(sel, "gamescope"), ["gamescope"]) +
    When(Selected(sel, "obs"), ["obs-studio"]) +
    When(Selected(sel, "discord"), ["discord"])
  }

  function ArchToolAur(sel: Selection, aurPackages: seq<string>): seq<string> {
    aurPackages +
    When(Selected(sel, "goverlay"), ["goverlay-bin"]) +
    When(Selected(sel, "corectrl"), ["corectrl"]) +
    When(Selected(sel, "steamtinker"), ["steamtinkerlaunch"]) +
    When(Selected(sel, "gpu_recorder"), ["gpu-screen-recorder"])
  }

  function ArchToolFlatpak(sel: Selection, flatpakPackages: seq<string>): seq<string> {
    flatpakPackages +
    When(Selected(sel, "flatseal"), ["com.github.tchx84.Flatseal"])
  }

  /** The output of `apt-cache policy <pkg>`: whether it exited with 0, and what it printed. */
  datatype AptProbe = AptProbe(exitOk: bool, stdout: string)

  /** `pkg_installable`: a real candidate version, not "(none)". */
  function AptInstallable(p: AptProbe): (ok: bool)
    ensures ok ==> p.exitOk && Contains(p.stdout, "Candidate:")
    ensures Contains(p.stdout, "Candidate: (none)") ==> !ok
  {
    p.exitOk && Contains(p.stdout, "Candidate:") && !Contains(p.stdout, "Candidate: (none)")
  }

  /** The contents of /etc/debian_version, stripped; "unknown" when it cannot be read. */
  function DebianVersion(file: Option<string>): string {
    match file
    case None => "unknown"
    case Some(text) => Strip(text)
  }

  predicate IsBookworm(version: string) {
    IsPrefix("12", version) || Contains(version, "bookworm")
  }

  const NonFreeAdvisory: seq<string> := [
    "[!] Steam requires non-free repository on Debian Bookworm.",
    "[i] Add to /etc/apt/sources.list:",
    "    deb http://deb.debian.org/debian bookworm main contrib non-free",
    "[i] Using Flatpak version instead..."]

  function Logs(texts: seq<string>): seq<Event> {
    if texts == [] then [] else [Log(texts[0])] + Logs(texts[1..])
  }

  /** `Logs` logs each text, in order. */
  lemma {:induction false} LogsEach(texts: seq<string>)
    ensures |Logs(texts)| == |texts|
    ensures forall i :: 0 <= i < |texts| ==> Logs(texts)[i] == Log(texts[i])
  {
    if texts != [] {
      LogsEach(texts[1..]);
    }
  }

  /** What `install_debian` learns before it collects: whether apt has a real
      candidate for Steam and for Lutris (`pkg_installable`), whether the
      lower-cased distribution name contains "debian", and whether the Debian
      version is 12/bookworm. The collection depends on the probes only
      through these four answers. */
  datatype DebianFacts = DebianFacts(steamOk: bool, lutrisOk: bool, onDebian: bool, bookworm: bool)

  /** What is logged when Steam is not installable with apt. */
  function SteamFallbackNotes(onDebian: bool, bookworm: bool): seq<string> {
    if onDebian then
      if bookworm then NonFreeAdvisory
      else ["[i] Debian Testing/Sid - using Flatpak for Steam..."]
    else ["[i] Steam not in apt, using Flatpak..."]
  }

  /** `install_debian`'s collection, given what it learned from the probes. */
  function DebianCollect(sel: Selection, facts: DebianFacts): Collected
  {
    Collected(Batches(DebianNative(sel, facts.steamOk, facts.lutrisOk), [],
                      DebianFlatpak(sel, facts.steamOk, facts.lutrisOk)),
              Logs(DebianNotes(sel, facts)))
  }

  function DebianNative(sel: Selection, steamOk: bool, lutrisOk: bool): seq<string> {
    DebianDriverAndToolNative(sel, DebianLauncherNative(sel, steamOk, lutrisOk))
  }

  function DebianLauncherNative(sel: Selection, steamOk: bool, lutrisOk: bool): seq<string> {
    When(Selected(sel, "steam") && steamOk, ["steam"]) +
    When(Selected(sel, "lutris") && lutrisOk, ["lutris"])
  }

  /** The drivers and tools append to the apt list of the launchers. */
  function DebianDriverAndToolNative(sel: Selection, packages: seq<string>): seq<string> {
    packages +
    When(Selected(sel, "nvidia"), ["nvidia-driver", "nvidia-driver-libs:i386"]) +
    When(Selected(sel, "mesa"), ["mesa-vulkan-drivers", "mesa-vulkan-drivers:i386"]) +
    When(Selected(sel, "vulkan"), ["libvulkan1", "libvulkan1:i386"]) +
    When(Selected(sel, "lib32"), ["libc6:i386", "libstdc++6:i386"]) +
    When(Selected(sel, "gamemode"), ["gamemode", "libgamemode0:i386"]) +
    When(Selected(sel, "mangohud"), ["mangohud"]) +
    When(Selected(sel, "wine"), ["wine"]) +
    When(Selected(sel, "winetricks"), ["winetricks"]) +
    When(Selected(sel, "vkbasalt"), ["vkbasalt"]) +
    When(Selected(sel, "corectrl"), ["corectrl"]) +
    When(Selected(sel, "gamescope"), ["gamescope"]) +
    When(Selected(sel, "obs"), ["obs-studio"])
  }

  function DebianFlatpak(sel: Selection, steamOk: bool, lutrisOk: bool): seq<string> {
    DebianOtherFlatpak(sel, DebianLauncherFlatpak(sel, steamOk, lutrisOk))
  }

  function DebianLauncherFlatpak(sel: Selection, steamOk: bool, lutrisOk: bool): seq<string> {
    When(Selected(sel, "steam") && !steamOk, ["com.valvesoftware.Steam"]) +
    When(Selected(sel, "lutris") && !lutrisOk, ["net.lutris.Lutris"])
  }

  /** The other Flatpaks append to the fallbacks of the two launchers. */
  function DebianOtherFlatpak(sel: Selection, flatpakPackages: seq<string>): seq<string> {
    flatpakPackages +
    When(Selected(sel, "heroic"), ["com.heroicgameslauncher.hgl"]) +
    When(Selected(sel, "bottles"), ["com.usebottles.bottles"]) +
    When(Selected(sel, "protonplus"), ["com.vysp3r.ProtonPlus"]) +
    When(Selected(sel, "gamehub"), ["com.github.tkashkin.gamehub"]) +
    When(Selected(sel, "minigalaxy"), ["io.github.sharkwouter.Minigalaxy"]) +
    When(Selected(sel, "itch"), ["io.itch.itch"]) +
    When(Selected(sel, "retroarch"), ["org.libretro.RetroArch"]) +
    When(Selected(sel, "pegasus"), ["org.pegasus_frontend.Pegasus"]) +
    When(Selected(sel, "goverlay"), ["io.github.benjamimgois.goverlay"]) +
    When(Selected(sel, "steamtinker"), ["com.github.Matoking.SteamTinkerLaunch"]) +
    When(Selected(sel, "antimicrox"), ["io.github.antimicrox.antimicrox"]) +
    When(Selected(sel, "gpu_recorder"), ["com.dec05eba.gpu_screen_recorder"]) +
    When(Selected(sel, "discord"), ["com.discordapp.Discord"]) +
    When(Selected(sel, "flatseal"), ["com.github.tchx84.Flatseal"])
  }

  /** The notes logged while the launchers are resolved. */
  function DebianNotes(sel: Selection, facts: DebianFacts): seq<string>
  {
    When(Selected(sel, "steam") && !facts.steamOk, SteamFallbackNotes(facts.onDebian, facts.bookworm)) +
    When(Selected(sel, "lutris") && !facts.lutrisOk, ["[i] Lutris not in apt, using Flatpak..."])
  }

  /** `install_fedora`'s collection. */
  function FedoraBatches(sel: Selection): Batches {
    var native :=
      When(Selected(sel, "steam"), ["steam"]) +
      When(Selected(sel, "lutris"), ["lutris"]) +
      When(Selected(sel, "retroarch"), ["retroarch"]) +
      When(Selected(sel, "nvidia"), ["akmod-nvidia", "xorg-x11-drv-nvidia-cuda"]) +
      When(Selected(sel, "mesa"), ["mesa-dri-drivers", "mesa-vulkan-drivers"]) +
      When(Selected(sel, "vulkan"), ["vulkan-loader", "vulkan-tools"]) +
      When(Selected(sel, "lib32"), ["mesa-dri-drivers.i686", "mesa-vulkan-drivers.i686"]) +
      When(Selected(sel, "gamemode"), ["gamemode", "gamemode.i686"]) +
      When(Selected(sel, "mangohud"), ["mangohud"]) +
      When(Selected(sel, "wine"), ["wine"]) +
      When(Selected(sel, "winetricks"), ["winetricks"]) +
      When(Selected(sel, "vkbasalt"), ["vkbasalt"]) +
      When(Selected(sel, "corectrl"), ["corectrl"]) +
      When(Selected(sel, "antimicrox"), ["antimicrox"]) +
      When(Selected(sel, "gamescope"), ["gamescope"]) +
      When(Selected(sel, "obs"), ["obs-studio"]);
    var flatpak :=
      When(Selected(sel, "heroic"), ["com.heroicgameslauncher.hgl"]) +
      When(Selected(sel, "bottles"), ["com.usebottles.bottles"]) +
      When(Selected(sel, "protonplus"), ["com.vysp3r.ProtonPlus"]) +
      When(Selected(sel, "gamehub"), ["com.github.tkashkin.gamehub"]) +
      When(Selected(sel, "minigalaxy"), ["io.github.sharkwouter.Minigalaxy"]) +
      When(Selected(sel, "itch"), ["io.itch.itch"]) +
      When(Selected(sel, "pegasus"), ["org.pegasus_frontend.Pegasus"]) +
      When(Selected(sel, "goverlay"), ["io.github.benjamimgois.goverlay"]) +
      When(Selected(sel, "steamtinker"), ["com.github.Matoking.SteamTinkerLaunch"]) +
      When(Selected(sel, "gpu_recorder"), ["com.dec05eba.gpu_screen_recorder"]) +
      When(Selected(sel, "discord"), ["com.discordapp.Discord"]) +
      When(Selected(sel, "flatseal"), ["com.github.tchx84.Flatseal"]);
    Batches(native, [], flatpak)
  }

  const NvidiaRepoCommand: Command :=
    Command("zypper addrepo --refresh https://download.nvidia.com/opensuse/tumbleweed NVIDIA", [], true)

  /** `install_opensuse`'s collection; selecting NVIDIA adds the NVIDIA
      repository right away, while the selection is being read. */
  function OpenSuseCollect(sel: Selection): Collected {
    var native :=
      When(Selected(sel, "lutris"), ["lutris"]) +
      When(Selected(sel, "nvidia"), ["nvidia-glG06", "nvidia-computeG06"]) +
      When(Selected(sel, "mesa"), ["Mesa", "Mesa-dri", "Mesa-vulkan-device-select"]) +
      When(Selected(sel, "vulkan"), ["libvulkan1", "vulkan-tools"]) +
      When(Selected(sel, "lib32"), ["Mesa-32bit", "libvulkan1-32bit"]) +
      When(Selected(sel, "gamemode"), ["gamemode"]) +
      When(Selected(sel, "mangohud"), ["mangohud"]) +
      When(Selected(sel, "wine"), ["wine"]) +
      When(Selected(sel, "winetricks"), ["winetricks"]) +
      When(Selected(sel, "gamescope"), ["gamescope"]) +
      When(Selected(sel, "obs"), ["obs-studio"]);
    var flatpak :=
      When(Selected(sel, "steam"), ["com.valvesoftware.Steam"]) +
      When(Selected(sel, "heroic"), ["com.heroicgameslauncher.hgl"]) +
      When(Selected(sel, "bottles"), ["com.usebottles.bottles"]) +
      When(Selected(sel, "protonplus"), ["com.vysp3r.ProtonPlus"]) +
      When(Selected(sel, "gamehub"), ["com.github.tkashkin.gamehub"]) +
      When(Selected(sel, "minigalaxy"), ["io.github.sharkwouter.Minigalaxy"]) +
      When(Selected(sel, "itch"), ["io.itch.itch"]) +
      When(Selected(sel, "retroarch"), ["org.libretro.RetroArch"]) +
      When(Selected(sel, "pegasus"), ["org.pegasus_frontend.Pegasus"]) +
      When(Selected(sel, "goverlay"), ["io.github.benjamimgois.goverlay"]) +
      When(Selected(sel, "corectrl"), ["org.corectrl.CoreCtrl"]) +
      When(Selected(sel, "steamtinker"), ["com.github.Matoking.SteamTinkerLaunch"]) +
      When(Selected(sel, "antimicrox"), ["io.github.antimicrox.antimicrox"]) +
      When(Selected(sel, "gpu_recorder"), ["com.dec05eba.gpu_screen_recorder"]) +
      When(Selected(sel, "discord"), ["com.discordapp.Discord"]) +
      When(Selected(sel, "flatseal"), ["com.github.tchx84.Flatseal"]);
    Collected(Batches(native, [], flatpak),
              if Selected(sel, "nvidia") then [Run(NvidiaRepoCommand)] else [])
  }
}

module PackageFacts {
  import opened Text
  import opened Distro
  import opened Commands
  import opened Packages

  /** On Arch the AMD Vulkan driver comes only from the `vulkan` choice, and
      only on an AMD GPU. */
  lemma ArchRadeonOnlyOnAmd(sel: Selection, gpu: Gpu)
    ensures "vulkan-radeon" in ArchBatches(sel, gpu).native <==> Selected(sel, "vulkan") && gpu == Amd
  {
    ArchNativeParts(sel, gpu, "vulkan-radeon");
    ArchVulkanNames(gpu);
  }

  /** On Arch the Intel Vulkan driver comes only from the `vulkan` choice, and
      only on an Intel GPU. */
  lemma ArchIntelVulkanOnlyOnIntel(sel: Selection, gpu: Gpu)
    ensures "vulkan-intel" in ArchBatches(sel, gpu).native <==> Selected(sel, "vulkan") && gpu == Intel
  {
    ArchNativeParts(sel, gpu, "vulkan-intel");
    ArchVulkanNames(gpu);
  }

  lemma ArchVulkanNames(gpu: Gpu)
    ensures "vulkan-radeon" in ArchVulkan(gpu) <==> gpu == Amd
    ensures "vulkan-intel" in ArchVulkan(gpu) <==> gpu == Intel
    ensures "nvidia-utils" in ArchVulkan(gpu) <==> gpu == Nvidia
  {
  }

  /** `nvidia-utils` is wanted by either NVIDIA driver and by Vulkan on an
      NVIDIA GPU, and by nothing else. */
  lemma ArchNvidiaUtilsSources(sel: Selection, gpu: Gpu)
    ensures "nvidia-utils" in ArchBatches(sel, gpu).native <==>
              Selected(sel, "nvidia") || Selected(sel, "nvidia-open") ||
              (Selected(sel, "vulkan") && gpu == Nvidia)
  {
    ArchNativeParts(sel, gpu, "nvidia-utils");
    ArchVulkanNames(gpu);
  }

  /** A name that no launcher or tool contributes is in the Arch native list
      exactly when a selected driver contributes it. */
  lemma ArchNativeParts(sel: Selection, gpu: Gpu, x: string)
    requires x !in ["steam", "lutris", "retroarch"]
    requires x !in ["gamemode", "lib32-gamemode", "mangohud", "lib32-mangohud", "wine", "winetricks",
                    "dxvk-bin", "vkbasalt", "antimicrox", "gamescope", "obs-studio", "discord"]
    ensures x in ArchBatches(sel, gpu).native <==>
      (Selected(sel, "nvidia") && x in ["nvidia", "nvidia-utils", "nvidia-settings"]) ||
      (Selected(sel, "nvidia-open") && x in ["nvidia-open", "nvidia-utils", "nvidia-settings"]) ||
      (Selected(sel, "mesa") && x in ["mesa", "lib32-mesa"]) ||
      (Selected(sel, "vulkan") && x in ArchVulkan(gpu)) ||
      (Selected(sel, "lib32") && x in ["lib32-mesa", "lib32-vulkan-icd-loader"])
  {
    ArchLauncherNames(sel);
    ArchDriverNames(sel, gpu, ArchLauncherNative(sel));
    ArchToolNames(sel, ArchDriverNative(sel, gpu, ArchLauncherNative(sel)));
  }

  lemma ArchLauncherNames(sel: Selection)
    ensures forall x :: x in ArchLauncherNative(sel) ==> x in ["steam", "lutris", "retroarch"]
  {
  }

  lemma ArchToolNames(sel: Selection, packages: seq<string>)
    ensures forall x :: x in ArchToolNative(sel, packages) ==>
      x in packages ||
      x in ["gamemode", "lib32-gamemode", "mangohud", "lib32-mangohud", "wine", "winetricks",
            "dxvk-bin", "vkbasalt", "antimicrox", "gamescope", "obs-studio", "discord"]
  {
  }

  lemma ArchDriverNames(sel: Selection, gpu: Gpu, packages: seq<string>)
    ensures forall x :: x in ArchDriverNative(sel, gpu, packages) <==> (x in packages ||
      (Selected(sel, "nvidia") && x in ["nvidia", "nvidia-utils", "nvidia-settings"]) ||
      (Selected(sel, "nvidia-open") && x in ["nvidia-open", "nvidia-utils", "nvidia-settings"]) ||
      (Selected(sel, "mesa") && x in ["mesa", "lib32-mesa"]) ||
      (Selected(sel, "vulkan") && x in ArchVulkan(gpu)) ||
      (Selected(sel, "lib32") && x in ["lib32-mesa", "lib32-vulkan-icd-loader"]))
  {
  }

  /** The names `install_debian` puts in the apt batch besides the two launchers. */
  const DebianOtherNative: seq<string> := [
    "nvidia-driver", "nvidia-driver-libs:i386", "mesa-vulkan-drivers", "mesa-vulkan-drivers:i386",
    "libvulkan1", "libvulkan1:i386", "libc6:i386", "libstdc++6:i386", "gamemode", "libgamemode0:i386",
    "mangohud", "wine", "winetricks", "vkbasalt", "corectrl", "gamescope", "obs-studio"]

  lemma DebianDriverAndToolNames(sel: Selection, packages: seq<string>)
    ensures forall x :: x in DebianDriverAndToolNative(sel, packages) ==> x in packages || x in DebianOtherNative
  {
  }

  /** Steam goes to the apt batch exactly when it is selected and apt has a candidate. */
  lemma DebianSteamNative(sel: Selection, steamOk: bool, lutrisOk: bool)
    ensures "steam" in DebianNative(sel, steamOk, lutrisOk) <==> Selected(sel, "steam") && steamOk
  {
    var launchers := DebianLauncherNative(sel, steamOk, lutrisOk);
    DebianDriverAndToolNames(sel, launchers);
    assert "steam" !in DebianOtherNative;
    assert "steam" in launchers <==> Selected(sel, "steam") && steamOk;
  }

  /** Lutris goes to the apt batch exactly when it is selected and apt has a candidate. */
  lemma DebianLutrisNative(sel: Selection, steamOk: bool, lutrisOk: bool)
    ensures "lutris" in DebianNative(sel, steamOk, lutrisOk) <==> Selected(sel, "lutris") && lutrisOk
  {
    DebianDriverAndToolNames(sel, DebianLauncherNative(sel, steamOk, lutrisOk));
  }

  const DebianOtherFlatpakIds: seq<string> := [
    "com.heroicgameslauncher.hgl", "com.usebottles.bottles", "com.vysp3r.ProtonPlus",
    "com.github.tkashkin.gamehub", "io.github.sharkwouter.Minigalaxy", "io.itch.itch",
    "org.libretro.RetroArch", "org.pegasus_frontend.Pegasus", "io.github.benjamimgois.goverlay",
    "com.github.Matoking.SteamTinkerLaunch", "io.github.antimicrox.antimicrox",
    "com.dec05eba.gpu_screen_recorder", "com.discordapp.Discord", "com.github.tchx84.Flatseal"]

  /** An id outside the other fourteen is in the Debian Flatpak list exactly
      when the launchers put it there. */
  lemma DebianOtherFlatpakKeeps(sel: Selection, flatpakPackages: seq<string>, x: string)
    requires x !in DebianOtherFlatpakIds
    ensures x in DebianOtherFlatpak(sel, flatpakPackages) <==> x in flatpakPackages
  {
  }

  lemma LauncherFlatpaksNotOther()
    ensures "com.valvesoftware.Steam" !in DebianOtherFlatpakIds
    ensures "net.lutris.Lutris" !in DebianOtherFlatpakIds
  {
  }

  /** The Steam Flatpak replaces the apt package exactly when apt has no candidate. */
  lemma DebianSteamFlatpak(sel: Selection, steamOk: bool, lutrisOk: bool)
    ensures "com.valvesoftware.Steam" in DebianFlatpak(sel, steamOk, lutrisOk) <==>
              Selected(sel, "steam") && !steamOk
  {
    LauncherFlatpaksNotOther();
    DebianOtherFlatpakKeeps(sel, DebianLauncherFlatpak(sel, steamOk, lutrisOk), "com.valvesoftware.Steam");
  }

  /** The Lutris Flatpak replaces the apt package exactly when apt has no candidate. */
  lemma DebianLutrisFlatpak(sel: Selection, steamOk: bool, lutrisOk: bool)
    ensures "net.lutris.Lutris" in DebianFlatpak(sel, steamOk, lutrisOk) <==>
              Selected(sel, "lutris") && !lutrisOk
  {
    LauncherFlatpaksNotOther();
    DebianOtherFlatpakKeeps(sel, DebianLauncherFlatpak(sel, steamOk, lutrisOk), "net.lutris.Lutris");
  }

  /** The non-free advisory is logged exactly for a wanted Steam that apt cannot
      install, on a distribution whose name says Debian, at version 12/bookworm. */
  lemma DebianAdvisory(sel: Selection, facts: DebianFacts)
    ensures NonFreeAdvisory[0] in DebianNotes(sel, facts) <==>
              Selected(sel, "steam") && !facts.steamOk && facts.onDebian && facts.bookworm
  {
  }

  /** The Arch example with an AMD GPU: Steam, Mesa and Vulkan give one pacman
      batch of seven names and nothing for the AUR or Flatpak. */
  lemma ArchAmdExample(sel: Selection)
    requires sel == AmdExampleSelection
    ensures var b := ArchBatches(sel, Amd);
      b.native == ["steam", "mesa", "lib32-mesa", "vulkan-icd-loader", "lib32-vulkan-icd-loader",
                   "vulkan-radeon", "lib32-vulkan-radeon"] &&
      b.aur == [] && b.flatpak == []
  {
    AmdExampleLaunchers();
    AmdExampleDrivers();
    AmdExampleTools();
  }

  const AmdExampleSelection: Selection := map["steam" := true, "mesa" := true, "vulkan" := true]

  lemma AmdExampleLaunchers()
    ensures ArchLauncherNative(AmdExampleSelection) == ["steam"]
    ensures ArchLauncherAur(AmdExampleSelection) == [] && ArchLauncherFlatpak(AmdExampleSelection) == []
  {
  }

  lemma AmdExampleDrivers()
    ensures ArchDriverNative(AmdExampleSelection, Amd, ["steam"]) ==
      ["steam", "mesa", "lib32-mesa", "vulkan-icd-loader", "lib32-vulkan-icd-loader", "vulkan-radeon", "lib32-vulkan-radeon"]
  {
  }

  lemma AmdExampleTools()
    ensures forall xs :: ArchToolNative(AmdExampleSelection, xs) == xs
    ensures ArchToolAur(AmdExampleSelection, []) == [] && ArchToolFlatpak(AmdExampleSelection, []) == []
  {
  }

  /** Both NVIDIA driver choices want `nvidia-utils` (and Vulkan on an NVIDIA GPU
      wants it a third time); the deduplicated pacman batch names it exactly once. */
  lemma ArchNvidiaUtilsOnce(sel: Selection, gpu: Gpu)
    requires Selected(sel, "nvidia") || Selected(sel, "nvidia-open")
    ensures multiset(Dedup(ArchBatches(sel, gpu).native))["nvidia-utils"] == 1
  {
    ArchNvidiaUtilsSources(sel, gpu);
    DistinctOnce(Dedup(ArchBatches(sel, gpu).native), "nvidia-utils");
  }
}
