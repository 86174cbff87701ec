# Game installer orchestration core

This project models the core of a Linux game-setup tool. A single Python file drives the package
managers of four distribution families (Arch, Debian, Fedora, openSUSE) from a key→bool selection of
launchers, drivers, tools and tweaks. It also provisions mounts for drives that the operator has
configured.

The model covers the following parts:

- **`InstallationManager`** (module `Manager`) is a class. It has the source's state: the detected
  system, the mount configurations, and what the host answers. Each of its methods does what the
  Python method does. A method appends every line it logs and every command it runs to a `trace`.
  It is then proved to produce exactly the trace of a pure specification function:
  - `Plan.Install`, `Plan.Uninstall` and `Plan.Optimizations` for the package side;
  - `Mounts.ApplyMounts` for the mount side.
- **`run_command`** appends `Run(cmd)` to the trace. A command is a value: its program, its
  arguments and its sudo flag. Its exit status comes from an oracle `exitOk`. Callers ignore that
  status, except in two places where it changes the host:
  - installing Flatpak makes later `which flatpak` checks succeed;
  - the `echo … >> /etc/fstab` command grows the fstab contents.
- **What the host answers** is an input. This covers:
  - which programs `which` finds;
  - the `apt-cache policy` results and `/etc/debian_version`;
  - `id -u`/`id -g`;
  - the environment and the fstab contents.
- **The pure parts** are functions with lemmas about them:
  - the per-distribution package batches (module `Packages`);
  - distribution-family classification from `/etc/os-release` (module `Distro`);
  - `lsblk` line parsing (module `Drives`);
  - mount options and fstab lines (module `Mounts`).
- **`SystemInfo`** (module `System`) is a class. Its `DetectDistro` and `DetectDrives` methods
  assign its fields as the source does.

The package plan has several properties, and they are proved in `PlanFacts`:

- Each command belongs to a stage: bootstrap, native, AUR, Flatpak installer, Flathub remote,
  Flatpak installs, then ProtonUp-Qt.
- Every install trace is non-decreasing in that order.
- The native batch is issued once and names each collected package exactly once.
- The AUR helper is `yay`, else `paru`; if neither is found, a warning is logged.
- Flatpak setup is lazy.
- An unknown family runs nothing.

`MaintenanceFacts` covers uninstall and optimizations, and `MountFacts` covers the drive mounts:

- the fstab backup comes first;
- each drive gets its commands and is always mounted;
- the fstab line is appended only when its mount point does not already occur in fstab;
- applying the same configurations a second time, whatever the exit statuses of either run, keeps
  what the first run wrote and appends only lines of configurations whose mount points the first
  run left missing, so a line the first run wrote is never written again;
- when the first run's appends succeeded, the second run issues no append at all and leaves fstab
  as it was, whatever its own exit statuses; with exit statuses fixed by the command text, the
  second run leaves fstab unchanged in every case.

Behaviour of the code worth knowing, all of which the model keeps:

- An unknown family logs "Unsupported distribution" and returns False, after the opening banner,
  even for an empty selection (gameinstaller-gui.py:284-294).
- Uninstalling on an unknown family still removes the selected Flatpaks and returns True
  (gameinstaller-gui.py:782-868).
- A component that a distribution has no package for is dropped silently; nothing reports it as
  unsupported (gameinstaller-gui.py:296-705).
- Exit statuses are returned by `run_command` but never read by the install methods, which return
  True whatever they are (gameinstaller-gui.py:255-276, `PlanFacts.ExitStatusesIgnored`).

## Model

| member | source | states |
|---|---|---|
| Commands.CommandLine | gameinstaller-gui.py:255-259 | a command run with sudo is issued as `sudo <cmd>` |
| Commands.SudoLine | gameinstaller-gui.py:257-258 | `use_sudo` only puts `sudo ` in front of the command text, which is otherwise the same |
| Commands.CommandLineFields | gameinstaller-gui.py:374-394 | with blank-free arguments the command text splits into `sudo` (when `run_command` adds it), the words of the fixed part, then exactly the arguments that `' '.join(...)` laid out |
| Commands.Runs | gameinstaller-gui.py:255-276 | the commands `run_command` executed, in trace order, at most one per event; `Commands.RunsAppend` states that it distributes over concatenation |
| Commands.Dedup | gameinstaller-gui.py:375-378 | `list(set(xs))`: the result has no repeated name, holds exactly the names of the input, and is no longer than it |
| Commands.DistinctOnce | gameinstaller-gui.py:376 | in a deduplicated list every listed name occurs exactly once |
| Distro.FamilyExactly | gameinstaller-gui.py:155-162 | an os-release ID maps to arch/debian/fedora/opensuse exactly when it is in that family's list, and to unknown exactly when it is in none |
| Distro.FamilyOfId | gameinstaller-gui.py:155-162 | the family of an os-release ID; its meaning is stated by `Distro.FamilyExactly` |
| Distro.DetectDistroFamily | gameinstaller-gui.py:1543-1563 | the family read from /etc/os-release, unknown without the file; stated by `Distro.NoIdLineIsUnknown`, `Distro.OtherLineSkipped`, `Distro.IdLineDecides` and `Distro.QuotedIdClassified` |
| Distro.FirstValueFinds | gameinstaller-gui.py:141-143 | the `^KEY=(.*)$` search finds nothing exactly when no line starts with `KEY=`, and otherwise returns the rest of such a line |
| Distro.NoIdLineIsUnknown | gameinstaller-gui.py:1550-1563 | an os-release file without an `ID=` line yields the unknown family |
| Distro.OtherLineSkipped | gameinstaller-gui.py:1550 | a line that does not start with `ID=` (such as `VERSION_ID=`) does not affect the family |
| Distro.IdLineDecides | gameinstaller-gui.py:1550-1560 | the first `ID=` line decides the family, from its value unquoted and lower-cased |
| Distro.QuotedIdClassified | gameinstaller-gui.py:1552-1560 | `ID="x"` is classified as `x` lower-cased |
| Drives.DrivesOf | gameinstaller-gui.py:207-234 | the drives parsed from the lsblk output line by line; its properties are those of `Drives.ParsedDrives`, and `System.SystemInfo.DetectDrives` stores it |
| Drives.ParseLine | gameinstaller-gui.py:207-234 | a drive read from an lsblk line has a filesystem type that is not swap, RAID or LVM, a `/dev/` device, and an empty sixth word |
| Drives.ParsedDrives | gameinstaller-gui.py:207-234 | the drive list has no more entries than lines and contains only eligible filesystem types |
| Drives.RenderFields | gameinstaller-gui.py:211 | splitting an lsblk `-l` row on whitespace gives its non-empty columns in order |
| Drives.RowDrive | gameinstaller-gui.py:220-234 | an lsblk row is offered exactly when it is unmounted and has an eligible filesystem, with device, size, type, uuid and label taken from their columns |
| Drives.ParseLineAgreesWhenEmptiesTrail | gameinstaller-gui.py:211-234 | when no empty column precedes a non-empty one, reading by word position gives the intended drive |
| Drives.MountedUnlabeledListed | gameinstaller-gui.py:211-222 | a mounted partition with a uuid but no label is offered as an unmounted drive whose label is its mount point |
| Text.StripChar | gameinstaller-gui.py:146 | `strip('"')` leaves no quote at either end and never lengthens the text |
| Text.StripCharQuoted | gameinstaller-gui.py:146 | stripping quotes from a quoted word gives back the word |
| Text.LowerEach | gameinstaller-gui.py:146 | `lower()` keeps the length and lower-cases each character in place |
| Text.SplitOnFirst | gameinstaller-gui.py:207 | `split('\n')` yields the text before the first separator, then the split of the rest |
| Text.FieldsOfJoin | gameinstaller-gui.py:378 | non-empty blank-free words joined by single spaces split back into exactly those words |
| Text.FieldsOfSpaced | gameinstaller-gui.py:211 | `split()` on `a + " " + b` yields the word `a` (if any) followed by the words of `b` |
| Text.StripKeepsLeadingWord | gameinstaller-gui.py:208 | a line that starts with a non-blank character is not skipped as blank |
| Text.ContainsPiece | gameinstaller-gui.py:951 | text built around a needle contains it as a substring |
| Text.ContainsInRight | gameinstaller-gui.py:951 | a substring of the tail is a substring of the whole |
| Text.ContainsInLeft | gameinstaller-gui.py:951 | a substring of the head is a substring of the whole |
| System.SystemInfo.constructor | gameinstaller-gui.py:120-126 | a new SystemInfo has distro "Unknown", the unknown family, no version, an unknown GPU and no drives |
| System.SystemInfo.DetectDistro | gameinstaller-gui.py:133-165 | without the file or an `ID=` line nothing changes; otherwise the pretty name and version are taken when present, and the family is set when the ID is a known one and kept otherwise |
| System.SystemInfo.DetectDrives | gameinstaller-gui.py:197-237 | the drive list becomes the drives parsed from the lsblk output (empty when it cannot be run), and no other field changes |
| Packages.ArchBatches | gameinstaller-gui.py:296-372 | the Arch native, AUR and Flatpak lists; stated by the `PackageFacts.Arch…` lemmas and built step by step by `Manager.InstallationManager.CollectArch` |
| Packages.DebianCollect | gameinstaller-gui.py:408-513 | the Debian lists and fallback notes; stated by the `PackageFacts.Debian…` lemmas and `PlanFacts.BookwormAdvisory` |
| Packages.FedoraBatches | gameinstaller-gui.py:533-607 | the Fedora lists; built step by step by `Manager.InstallationManager.CollectFedora`, with the native batch stated by `PlanFacts.NativeBatchOnce` |
| Packages.OpenSuseCollect | gameinstaller-gui.py:627-689 | the openSUSE lists and repository command; stated by `PlanFacts.OpenSusePreludeRuns` and built by `Manager.InstallationManager.CollectOpenSuse` |
| Packages.AptInstallable | gameinstaller-gui.py:419-425 | a package counts as installable only if the policy query succeeded and printed `Candidate:`, and never when it printed `Candidate: (none)` |
| PackageFacts.ArchRadeonOnlyOnAmd | gameinstaller-gui.py:331-338 | the Arch batch has `vulkan-radeon` exactly when Vulkan is selected on an AMD GPU |
| PackageFacts.ArchIntelVulkanOnlyOnIntel | gameinstaller-gui.py:331-338 | the Arch batch has `vulkan-intel` exactly when Vulkan is selected on an Intel GPU |
| PackageFacts.ArchVulkanNames | gameinstaller-gui.py:333-338 | the GPU-specific Vulkan packages are those of the detected vendor only |
| PackageFacts.ArchNvidiaUtilsSources | gameinstaller-gui.py:325-334 | `nvidia-utils` is collected exactly when nvidia, nvidia-open, or Vulkan on an NVIDIA GPU is selected |
| PackageFacts.ArchNativeParts | gameinstaller-gui.py:325-340 | a driver package is in the Arch native batch exactly when one of the driver choices that names it is selected |
| PackageFacts.ArchLauncherNames | gameinstaller-gui.py:303-320 | the Arch launchers contribute only steam, lutris and retroarch natively |
| PackageFacts.ArchToolNames | gameinstaller-gui.py:343-370 | the Arch tools add only their fixed native names |
| PackageFacts.ArchDriverNames | gameinstaller-gui.py:325-340 | the Arch driver step adds exactly the names of the selected driver choices |
| PackageFacts.DebianDriverAndToolNames | gameinstaller-gui.py:476-509 | the Debian driver and tool choices add only their fixed apt names |
| PackageFacts.DebianSteamNative | gameinstaller-gui.py:428-430 | on Debian `steam` goes to apt exactly when selected and apt has a candidate |
| PackageFacts.DebianLutrisNative | gameinstaller-gui.py:452-454 | on Debian `lutris` goes to apt exactly when selected and apt has a candidate |
| PackageFacts.DebianSteamFlatpak | gameinstaller-gui.py:428-451 | the Steam Flatpak is chosen exactly when Steam is selected and apt has no candidate |
| PackageFacts.DebianLutrisFlatpak | gameinstaller-gui.py:452-457 | the Lutris Flatpak is chosen exactly when Lutris is selected and apt has no candidate |
| PackageFacts.DebianOtherFlatpakKeeps | gameinstaller-gui.py:458-513 | the other Debian choices neither add nor drop any Flatpak id outside their own, so the launcher fallbacks survive them |
| PackageFacts.LauncherFlatpaksNotOther | gameinstaller-gui.py:448-457 | the fallback Flatpak ids are not among the ids the other Debian choices add |
| PackageFacts.DebianAdvisory | gameinstaller-gui.py:432-447 | the non-free repository advisory is logged exactly for a selected Steam without an apt candidate on Debian Bookworm |
| PackageFacts.ArchAmdExample | gameinstaller-gui.py:296-372 | Steam, Mesa and Vulkan selected on AMD collect exactly steam, the Mesa pair, the loader pair and the Radeon pair, with no AUR or Flatpak work |
| PackageFacts.ArchNvidiaUtilsOnce | gameinstaller-gui.py:325-328 | with both NVIDIA driver choices contributing it, the deduplicated batch names `nvidia-utils` once |
| Plan.Install | gameinstaller-gui.py:278-294 | the install trace and result for the detected system; stated by `PlanFacts.InstallOrdered`, `PlanFacts.Unsupported`, `PlanFacts.NativeBatchOnce`, `PlanFacts.AurBatch`, `PlanFacts.FlatpakGate`, `PlanFacts.ProtonGate` and `PlanFacts.ExitStatusesIgnored` |
| Plan.NativeStep | gameinstaller-gui.py:374-378 | the native batch; stated by `PlanFacts.NativeStepRuns` and `PlanFacts.ProceedNativeOnce` |
| Plan.AurStep | gameinstaller-gui.py:380-394 | the AUR batch; stated by `PlanFacts.AurHelperPriority`, `PlanFacts.AurStepRuns` and `PlanFacts.ProceedAur` |
| Plan.FlatpakSteps | gameinstaller-gui.py:870-892 | the Flatpak setup, remote and installs; stated by `PlanFacts.FlatpakCommands`, `PlanFacts.FlatpakAvailableAfter`, `PlanFacts.FlatpakPartStatuses` and `PlanFacts.InstallerInSteps` |
| Plan.ProtonSteps | gameinstaller-gui.py:894-899 | the ProtonUp-Qt step; stated by `PlanFacts.ProtonRuns` and `PlanFacts.ProceedProton` |
| Plan.Uninstall | gameinstaller-gui.py:743-868 | the uninstall trace; stated by `MaintenanceFacts.UninstallRuns`, `MaintenanceFacts.FlatpakRemovedIff`, `MaintenanceFacts.UninstallUnknownFamily` and `MaintenanceFacts.AutoremoveIff` |
| Plan.Optimizations | gameinstaller-gui.py:707-741 | the optimization trace; stated by `MaintenanceFacts.OptimizationRuns` and `MaintenanceFacts.SchedulerRulesInOrder` |
| Plan.Banner | gameinstaller-gui.py:280-282 | the opening banner only logs and runs nothing |
| Plan.FirstFound | gameinstaller-gui.py:384-388 | the helper search stops at the first helper found, after skipping only helpers that are absent |
| Plan.FlatpakInstalls | gameinstaller-gui.py:889-892 | one `flatpak install` per package, in list order |
| Plan.FlatpakRemovals | gameinstaller-gui.py:785-786 | one `flatpak uninstall` per id, in list order |
| PlanFacts.PreludeStages | gameinstaller-gui.py:411-416 | every command issued while the lists are collected is a bootstrap command |
| PlanFacts.PreludeRuns | gameinstaller-gui.py:411-416 | the collection phase runs exactly the family's bootstrap commands: apt update and i386 on Debian, RPM Fusion on Fedora, the NVIDIA repository on openSUSE when NVIDIA is chosen |
| PlanFacts.OpenSusePreludeRuns | gameinstaller-gui.py:653-655 | openSUSE adds the NVIDIA repository exactly when the NVIDIA driver is selected |
| PlanFacts.DebianPreludeRuns | gameinstaller-gui.py:411-416 | on Debian the collection phase runs apt update then the i386 architecture, and nothing else |
| PlanFacts.BookwormAdvisory | gameinstaller-gui.py:428-447 | the advisory is logged exactly when Steam is selected, the policy output has no real candidate, the distro name contains "debian" and the version is 12 or bookworm |
| PlanFacts.DebianBootstrapRuns | gameinstaller-gui.py:412-416 | the Debian bootstrap is `apt update` then `dpkg --add-architecture i386` |
| PlanFacts.FedoraBootstrapRuns | gameinstaller-gui.py:537-545 | the Fedora bootstrap enables RPM Fusion free then nonfree |
| PlanFacts.NativeStepRuns | gameinstaller-gui.py:375-378 | the native step issues nothing for an empty list and otherwise one privileged command over the deduplicated names |
| PlanFacts.AurHelperPriority | gameinstaller-gui.py:383-388 | the AUR helper is yay if present, else paru if present, else none |
| PlanFacts.AurStepRuns | gameinstaller-gui.py:381-394 | the AUR step issues one unprivileged command over the deduplicated names when there are names and a helper, and nothing otherwise |
| PlanFacts.FlatpakInstallsRuns | gameinstaller-gui.py:889-892 | the install loop issues the installs of the packages in order |
| PlanFacts.FlatpakCommands | gameinstaller-gui.py:870-892 | `install_flatpak_packages` runs the Flatpak installer only if missing, then the Flathub remote, then one install per package in order |
| PlanFacts.FlatpakSetupRuns | gameinstaller-gui.py:872-883 | the setup runs the family's Flatpak installer only when `which flatpak` fails |
| PlanFacts.FlatpakAvailableAfter | gameinstaller-gui.py:873-883 | afterwards flatpak is available exactly when it was, or its installer ran and succeeded; nothing else becomes available |
| PlanFacts.InstallerInSteps | gameinstaller-gui.py:873-883 | the Flatpak installer is issued exactly when flatpak is missing |
| PlanFacts.ProtonRuns | gameinstaller-gui.py:894-899 | ProtonUp-Qt is installed exactly when flatpak is available at that moment |
| PlanFacts.ProceedRuns | gameinstaller-gui.py:374-404 | after collection an install runs the native, AUR, Flatpak and Proton steps in that order |
| PlanFacts.ProceedOrdered | gameinstaller-gui.py:374-404 | after a bootstrap-only collection phase the whole command trace follows the stage order |
| PlanFacts.InstallOrdered | gameinstaller-gui.py:278-404 | every install trace follows the order bootstrap, native, AUR, Flatpak installer, remote, Flatpak installs, ProtonUp-Qt |
| PlanFacts.Unsupported | gameinstaller-gui.py:284-294 | the install succeeds exactly for a known family; an unknown family runs no command, leaves the host unchanged and logs "Unsupported distribution: unknown" |
| PlanFacts.RefusedEvents | gameinstaller-gui.py:280-294 | the refusal logs the banner and the unsupported message and runs nothing |
| PlanFacts.ProceedNativeOnce | gameinstaller-gui.py:374-378 | a native-manager command is issued exactly when the native list is non-empty, always with sudo, naming each collected package exactly once |
| PlanFacts.NativeBatchOnce | gameinstaller-gui.py:375-378 | the same for the whole install: the native batch names exactly the collected set, each once |
| PlanFacts.ProceedAur | gameinstaller-gui.py:380-394 | an AUR command is issued exactly when there are AUR names and a helper; it is the helper's single batch; with names and no helper the warning is logged |
| PlanFacts.AurBatch | gameinstaller-gui.py:380-394 | on Arch the AUR command over the selection's AUR names follows the helper found, or the warning is logged |
| PlanFacts.FlatpakPartStatuses | gameinstaller-gui.py:870-892 | the Flatpak step's trace does not depend on exit statuses, and with flatpak present the available programs stay the same |
| PlanFacts.ExitStatusesIgnored | gameinstaller-gui.py:296-404 | when ProtonUp-Qt does not hinge on a fresh Flatpak install, exit statuses change neither the trace nor the result |
| PlanFacts.ProceedProton | gameinstaller-gui.py:400-402 | ProtonUp-Qt is issued exactly when selected and flatpak was present or was just installed successfully |
| PlanFacts.ProtonGate | gameinstaller-gui.py:400-402 | for a whole install, ProtonUp-Qt is issued exactly when the family is known, Proton-GE is selected and flatpak is available by then |
| PlanFacts.ProceedRemote | gameinstaller-gui.py:396-398 | the Flathub remote is added exactly when there are Flatpak packages |
| PlanFacts.ProceedInstaller | gameinstaller-gui.py:873-883 | the Flatpak installer runs exactly when there are Flatpak packages and flatpak is missing |
| PlanFacts.FlatpakGate | gameinstaller-gui.py:870-887 | for a whole install, the remote is added exactly for Flatpak work on a known family, and the installer runs exactly when flatpak is also missing |
| PlanFacts.RemoteGate | gameinstaller-gui.py:885-887 | for a whole install, the Flathub remote is added exactly for Flatpak work on a known family |
| PlanFacts.InstallerGate | gameinstaller-gui.py:873-883 | for a whole install, the Flatpak installer runs exactly when there is Flatpak work and flatpak is missing |
| PlanFacts.DebianBootstrapFirst | gameinstaller-gui.py:411-416 | a Debian install trace starts with apt update then the i386 architecture |
| PlanFacts.FedoraBootstrapFirst | gameinstaller-gui.py:536-545 | a Fedora install trace starts with the two RPM Fusion commands |
| MaintenanceFacts.NativeRemovalCommands | gameinstaller-gui.py:788-865 | native removal never issues a Flatpak uninstall |
| MaintenanceFacts.FlatpakRemovalsRuns | gameinstaller-gui.py:783-786 | the removal loop uninstalls each id in order |
| MaintenanceFacts.NativeRemovalRuns | gameinstaller-gui.py:788-865 | the native part runs one removal batch for a non-empty list, followed by autoremove on Debian only |
| MaintenanceFacts.RemovalRuns | gameinstaller-gui.py:782-865 | uninstall runs the Flatpak removals first, then the native part |
| MaintenanceFacts.UninstallRuns | gameinstaller-gui.py:743-868 | the uninstall trace is the selected Flatpak removals followed by the family's native removal |
| MaintenanceFacts.FlatpakRemovedIff | gameinstaller-gui.py:749-786 | a Flatpak is uninstalled exactly when the selection lists it |
| MaintenanceFacts.RemovalFlatpakIff | gameinstaller-gui.py:783-786 | the removal issues an uninstall for exactly the listed ids |
| MaintenanceFacts.UninstallUnknownFamily | gameinstaller-gui.py:788-868 | on an unknown family uninstall still removes the selected Flatpaks and nothing else |
| MaintenanceFacts.AutoremoveIff | gameinstaller-gui.py:826-829 | `apt autoremove` runs exactly on Debian with native packages to remove |
| MaintenanceFacts.RemovalAutoremoveIff | gameinstaller-gui.py:826-829 | `apt autoremove` runs exactly for a non-empty Debian removal |
| MaintenanceFacts.OptimizationRuns | gameinstaller-gui.py:707-741 | optimizations run the governor, swappiness and I/O scheduler pairs for exactly the chosen tweaks, in that order |
| MaintenanceFacts.TweakRuns | gameinstaller-gui.py:713-722 | a tweak runs its two commands when chosen and nothing otherwise |
| MaintenanceFacts.SchedulerRulesInOrder | gameinstaller-gui.py:732-741 | the SSD scheduler rule is written before the HDD rule is appended, and these are the last commands |
| Mounts.MountUser | gameinstaller-gui.py:926 | the owner is `SUDO_USER`, else `USER`, else root; `Manager.InstallationManager.ApplyMountConfigs` runs the mount plan for this user |
| Mounts.MountOptions | gameinstaller-gui.py:929-939 | the mount options per filesystem; stated by `Mounts.MountOptionsShape` and `Mounts.MountOptionsWord` |
| Mounts.FstabEntry | gameinstaller-gui.py:942-945 | the fstab line; stated by `Mounts.FstabEntryNamesMountPoint` and `Mounts.FstabEntryFields` |
| Mounts.SetupMount | gameinstaller-gui.py:914-959 | one drive's trace and fstab update; stated by `MountFacts.SetupMountRuns`, `MountFacts.SetupMountFstab` and `MountFacts.StepCommands` |
| Mounts.ApplyMounts | gameinstaller-gui.py:901-959 | the whole mount run; stated by `MountFacts.BackupFirst`, `MountFacts.MountsEach`, `MountFacts.MountIdempotent`, `MountFacts.ReapplyKeepsFstab` and `MountFacts.ReapplyAppendsOnlyMissing` |
| Mounts.MountOptionsShape | gameinstaller-gui.py:929-939 | every option string ends in `nofail`; exactly ntfs, ntfs3 and exfat get the user's uid/gid and masks; exactly ntfs and ntfs3 get `windows_names` |
| Mounts.MountOptionsWord | gameinstaller-gui.py:929-939 | with blank-free ids the options are a single non-empty word |
| Mounts.FstabEntryNamesMountPoint | gameinstaller-gui.py:942-945 | the fstab line contains its mount point |
| Mounts.FstabEntryFields | gameinstaller-gui.py:942-945 | the fstab line splits into source (`UUID=…` or device), mount point, type, options, 0 and 2 |
| MountFacts.SetupMountRuns | gameinstaller-gui.py:920-959 | per drive: mkdir, chown, the append only when the mount point is not in fstab, then mount |
| MountFacts.PrepareRuns | gameinstaller-gui.py:922-927 | per drive the mount point is created and then given to the user |
| MountFacts.RecordRuns | gameinstaller-gui.py:951-955 | the append runs only when the line is to be added |
| MountFacts.SetupMountFstab | gameinstaller-gui.py:947-955 | fstab either stays or gains exactly the line; it grows exactly when the mount point was absent and the append succeeded; afterwards it names the mount point exactly when it did before or the append succeeded |
| MountFacts.SetupAllGrows | gameinstaller-gui.py:914-959 | processing the drives only ever appends to fstab |
| MountFacts.SetupAllSettles | gameinstaller-gui.py:947-955 | when the appends succeed, every mount point is in fstab afterwards |
| MountFacts.SettledSetupAll | gameinstaller-gui.py:947-955 | on an fstab that names every mount point, nothing is appended and fstab is unchanged |
| MountFacts.StepCommands | gameinstaller-gui.py:920-959 | each drive issues only per-drive commands, always includes its mount, and issues no append when its mount point is present |
| MountFacts.MountIdempotent | gameinstaller-gui.py:947-955 | when the first run's appends succeed, applying the same configurations a second time, with any exit statuses, issues no append and leaves fstab unchanged |
| MountFacts.ReapplyKeepsFstab | gameinstaller-gui.py:947-955 | with one exit-status function shared by both runs, applying the same configurations a second time leaves fstab exactly as the first run left it |
| MountFacts.RerunKeeps | gameinstaller-gui.py:947-955 | re-running the drive loop on any fstab that extends the first run's result leaves it unchanged: a mount point still missing had its append fail, and with the same exit-status function it fails again |
| MountFacts.ReapplyAppendsOnlyMissing | gameinstaller-gui.py:947-955 | with any exit statuses in either run, the second application keeps the first run's fstab as a prefix, appends only lines of configurations whose mount points the first run's fstab lacks, and every configuration whose first append succeeded has its mount point in that fstab |
| MountFacts.SetupAllAppends | gameinstaller-gui.py:914-955 | whatever the exit statuses, the drive loop appends only lines of configurations whose mount points the starting fstab lacks |
| MountFacts.StepAppends | gameinstaller-gui.py:947-953 | the only append one configuration issues is its own line, and only when its mount point is missing |
| MountFacts.SucceededStays | gameinstaller-gui.py:947-955 | once a configuration's append succeeds, its mount point stays in fstab for the rest of the run |
| MountFacts.ApplyRuns | gameinstaller-gui.py:910-914 | with configurations, the backup runs before all per-drive commands |
| MountFacts.SetupAllDevice | gameinstaller-gui.py:914-959 | the drive loop issues only per-drive commands |
| MountFacts.BackupFirst | gameinstaller-gui.py:901-914 | without configurations nothing happens; otherwise the first command is the backup and everything after it is per-drive |
| MountFacts.SetupAllMounts | gameinstaller-gui.py:957-959 | every configured mount point is mounted, whether or not its line was appended |
| MountFacts.MountsEach | gameinstaller-gui.py:914-959 | the whole mount run mounts every configured mount point |
| MountFacts.SubstringSkip | gameinstaller-gui.py:951 | `/mnt/games` is skipped when fstab only has `/mnt/games2`, because the check is a substring test |
| Manager.InstallationManager.constructor | gameinstaller-gui.py:245-248 | a new manager has an empty trace and no mount configurations |
| Manager.InstallationManager.Log | gameinstaller-gui.py:250-253 | logging appends one line to the trace and changes nothing else |
| Manager.InstallationManager.RunCommand | gameinstaller-gui.py:255-276 | running appends the command, returns its exit status, and applies its host effect only on success |
| Manager.InstallationManager.InstallPackages | gameinstaller-gui.py:278-294 | the trace grows by exactly the install plan for the detected system, the result is its outcome, and the mount state is unchanged |
| Manager.InstallationManager.Dispatch | gameinstaller-gui.py:284-294 | a known family runs its collection then its batches and returns True; an unknown family logs the refusal and returns False |
| Manager.InstallationManager.InstallArch | gameinstaller-gui.py:296-404 | the Arch install appends its collection then its batches and returns True |
| Manager.InstallationManager.InstallDebian | gameinstaller-gui.py:406-529 | the Debian install appends the bootstrap, the fallback notes and the batches and returns True |
| Manager.InstallationManager.InstallFedora | gameinstaller-gui.py:531-623 | the Fedora install appends RPM Fusion then the batches and returns True |
| Manager.InstallationManager.InstallOpenSuse | gameinstaller-gui.py:625-705 | the openSUSE install appends the optional repository then the batches and returns True |
| Manager.InstallationManager.InstallBatches | gameinstaller-gui.py:374-404 | the native, AUR, Flatpak and Proton steps append their trace in that order |
| Manager.InstallationManager.InstallNative | gameinstaller-gui.py:375-378 | appends the native step for the deduplicated list |
| Manager.InstallationManager.InstallAur | gameinstaller-gui.py:380-394 | appends the AUR step for the helper found |
| Manager.InstallationManager.FindAurHelper | gameinstaller-gui.py:383-388 | the helper returned is present, and none is returned only when neither yay nor paru is |
| Manager.InstallationManager.InstallFlatpakPackages | gameinstaller-gui.py:870-892 | appends the lazy setup, the remote and the installs, and records flatpak as present when its install succeeded |
| Manager.InstallationManager.EnsureFlatpak | gameinstaller-gui.py:872-883 | installs flatpak with the family's manager only when it is missing |
| Manager.InstallationManager.InstallProtonge | gameinstaller-gui.py:894-899 | installs ProtonUp-Qt only when flatpak is present |
| Manager.InstallationManager.CollectArch | gameinstaller-gui.py:298-372 | the lists grown step by step are the Arch batches of the selection and GPU |
| Manager.InstallationManager.DebianLaunchers | gameinstaller-gui.py:427-473 | the launcher lists follow the apt candidate test, and the trace gains exactly the fallback notes |
| Manager.InstallationManager.SteamFallbackLog | gameinstaller-gui.py:432-450 | logs the Bookworm advisory, the testing note or the plain fallback note, as the host decides |
| Manager.InstallationManager.CollectDebian | gameinstaller-gui.py:408-513 | the Debian lists are the batches of the selection and the apt answers, and only the notes are logged |
| Manager.InstallationManager.CollectFedora | gameinstaller-gui.py:533-607 | the lists grown step by step are the Fedora batches |
| Manager.InstallationManager.CollectOpenSuse | gameinstaller-gui.py:627-689 | the openSUSE lists are its batches, and only the NVIDIA repository command is issued on the way |
| Manager.InstallationManager.UninstallPackages | gameinstaller-gui.py:743-868 | the trace grows by exactly the uninstall plan, the result is True, and the host is unchanged |
| Manager.InstallationManager.UninstallFlatpakList | gameinstaller-gui.py:749-780 | the Flatpak ids grown step by step are those of the selection |
| Manager.InstallationManager.RemoveFlatpaks | gameinstaller-gui.py:782-786 | logs the heading and uninstalls each id in order, and does nothing for an empty list |
| Manager.InstallationManager.UninstallNativeList | gameinstaller-gui.py:788-861 | the native names grown step by step are those of the family and selection |
| Manager.InstallationManager.RemoveNative | gameinstaller-gui.py:788-865 | appends the family's native removal |
| Manager.InstallationManager.ApplyOptimizations | gameinstaller-gui.py:707-741 | the trace grows by exactly the optimization plan |
| Manager.InstallationManager.ApplyTweak | gameinstaller-gui.py:713-741 | appends one tweak's heading and command pair when chosen |
| Manager.InstallationManager.ApplyMountConfigs | gameinstaller-gui.py:901-959 | the trace and fstab become those of the mount plan for the configured drives and the environment's user |
| Manager.InstallationManager.SetupMountPoints | gameinstaller-gui.py:914-959 | the loop over the configurations gives the trace and fstab of processing them in order |
| Manager.InstallationManager.SetupMountPoint | gameinstaller-gui.py:915-959 | one configuration gives its setup trace and its fstab update |
| Manager.InstallationManager.RecordMountPoint | gameinstaller-gui.py:941-955 | the line is appended, and fstab grows, only when the mount point is absent and the append succeeds |

## Left out

- The Tk interface, the output queue and the worker threads that start detection and installs.
  They are presentation and concurrency, not decisions.
- Process execution and output streaming in `run_command`. A run is a trace entry and its exit
  status an input, and subprocess output is not part of the trace.
- Reading `/etc/os-release`, `lsblk`, `/etc/debian_version`, `apt-cache policy`, `which`, `id`,
  the environment and `/etc/fstab`. These are inputs. An os-release or lsblk that cannot be read
  is `None`.
- `detect_gpu`: the GPU vendor is a field of `SystemInfo` that is given, not detected.
- `detect_all`, `check_for_updates`, `install_dependencies` and `main`. They are GUI bootstrap or
  network fetches.
- Shell quoting and what the issued commands do on the host: a command is a value. The
  `$(date …)` and `$(rpm -E %fedora)` expansions stay literal text. The only modelled effects are
  flatpak becoming available and the fstab append.
- An error while reading `/etc/fstab`, which would end `apply_mount_configs` with an exception.
- The `apt-cache policy` probes are inputs, read as if after `apt update`. The installer consults
  them only through whether steam and lutris have a candidate, whether the distro name contains
  "debian", and whether the version file says 12 or bookworm.
- `id -u`/`id -g` run once per configuration in the source. The model reads them once per run
  for the same user, and their answers do not change within a run.
- Text.IsSpace, Text.Lower: of the characters Python's `split()` and `strip()` treat as whitespace,
  only the ASCII ones are handled (space, `\t` to `\r`, and `\x1c` to `\x1f`), not Unicode ones such
  as `\x85` or `\xa0`; and `lower()` changes only ASCII upper case. os-release IDs, lsblk columns
  and /etc/debian_version are ASCII in practice.
- MountFacts.ReapplyKeepsFstab, MountFacts.RerunKeeps: these assume
  exit statuses are a fixed function of the command text, the same in both runs, so an append that
  failed once fails again. A real host may let a retried append succeed. With independent exit
  statuses the model promises `MountFacts.ReapplyAppendsOnlyMissing` and `MountFacts.MountIdempotent`:
  a line the first run wrote is never written again, though fstab may grow by lines whose first
  append failed.
- Commands.Dedup: Python's `set` order is its hash order, so the model only states that the batch
  has the same names, each once. It does not state which order they are in. The model keeps the
  last occurrence of each name.
- The helper methods of `InstallationManager` (`Dispatch`, `Collect…`, `InstallBatches`,
  `SetupMountPoint`, …) factor out stretches of the Python methods' inline code. They do not
  stand for methods of the source.
- Manager.InstallationManager.CollectOpenSuse: the NVIDIA repository command is issued after the
  lists are built rather than between two appends. The lists are local, so the trace is the same.

## Findings

| source | as written | input that shows it | evidently intended | confidence | as-written member | corrected member |
|---|---|---|---|---|---|---|
| gameinstaller-gui.py:211-222 | the columns of `lsblk -l` are split on whitespace and read by position, so an empty LABEL column shifts MOUNTPOINT into the label slot | the row `sdb1 500G ext4 1234-ABCD <no label> /home`: the sixth word is missing, so the mounted partition is offered as unmounted with label `/home` | a partition is offered only when its MOUNTPOINT column is empty, reading each column by name | not executed | Drives.MountedUnlabeledListed | Drives.RowDrive |
