/** `SystemInfo`: the host facts, filled in by the detection methods from the
    text the probes return (the probes themselves are not modelled). */
module System {
  import opened Wrappers
  import opened Text
  import opened Distro
  import opened Drives

  class SystemInfo {
    var distro: string
    var distroFamily: Family
    var distroVersion: string
    var gpuVendor: Gpu
    var drives: seq<Drive>

    constructor ()
      ensures distro == "Unknown" && distroFamily == UnknownFamily && distroVersion == ""
      ensures gpuVendor == UnknownGpu && drives == []
    {
      distro := "Unknown";
      distroFamily := UnknownFamily;
      distroVersion := "";
      gpuVendor := UnknownGpu;
      drives := [];
    }

    /** `detect_distro`, given the contents of /etc/os-release (None when the
        file is missing or unreadable). Nothing changes without an `ID=` line;
        the family changes only for an ID of one of the four lists, so the
        result agrees with `detect_distro_family()` whenever that one is known. */
    method DetectDistro(osRelease: Option<string>)
      modifies this
      ensures osRelease.None? || DistroId(osRelease.value).None? ==>
                distro == old(distro) && distroVersion == old(distroVersion) &&
                distroFamily == old(distroFamily)
      ensures osRelease.Some? && DistroId(osRelease.value).Some? ==>
                distro == OsReleaseField(osRelease.value, "PRETTY_NAME").GetOr(old(distro)) &&
                distroVersion == OsReleaseField(osRelease.value, "VERSION_ID").GetOr(old(distroVersion))
      ensures distroFamily ==
                if DetectDistroFamily(osRelease) != UnknownFamily then DetectDistroFamily(osRelease)
                else old(distroFamily)
      ensures gpuVendor == old(gpuVendor) && drives == old(drives)
    {
      if osRelease.Some? {
        var content := osRelease.value;
        var idMatch := OsReleaseField(content, "ID");
        var versionMatch := OsReleaseField(content, "VERSION_ID");
        var nameMatch := OsReleaseField(content, "PRETTY_NAME");
        if idMatch.Some? {
          var distroId := Lower(idMatch.value);
          if nameMatch.Some? {
            distro := nameMatch.value;
          }
          assert distro == nameMatch.GetOr(old(distro));
          if versionMatch.Some? {
            distroVersion := versionMatch.value;
          }
          assert distroVersion == versionMatch.GetOr(old(distroVersion));
          if distroId in ArchIds {
            distroFamily := Arch;
          } else if distroId in DebianIds {
            distroFamily := Debian;
          } else if distroId in FedoraIds {
            distroFamily := Fedora;
          } else if distroId in OpenSuseIds {
            distroFamily := OpenSuse;
          }
          assert distroFamily == if FamilyOfId(distroId) != UnknownFamily then FamilyOfId(distroId)
                                 else old(distroFamily);
        }
      }
    }

    /** `detect_drives`, given the output of lsblk (None when it cannot be run):
        the list is rebuilt from scratch, one entry per eligible line in order. */
    method DetectDrives(lsblk: Option<string>)
      modifies this
      ensures drives == if lsblk.None? then [] else DrivesOf(lsblk.value)
      ensures distro == old(distro) && distroFamily == old(distroFamily) &&
              distroVersion == old(distroVersion) && gpuVendor == old(gpuVendor)
    {
      drives := [];
      if lsblk.Some? {
        var lines := SplitOn(Strip(lsblk.value), '\n');
        var i := 0;
        while i < |lines|
          invariant 0 <= i <= |lines|
          invariant drives == ParsedDrives(lines[..i])
          invariant distro == old(distro) && distroFamily == old(distroFamily)
          invariant distroVersion == old(distroVersion) && gpuVendor == old(gpuVendor)
        {
          var line := lines[i];
          assert lines[..i + 1][..i] == lines[..i];
          if Strip(line) != "" {
            var parts := Fields(line);
            if |parts| >= 2 {
              var name := parts[0];
              var size := parts[1];
              var fstype := if |parts| > 2 then parts[2] else "";
              var uuid := if |parts| > 3 then parts[3] else "";
              var fsLabel := if |parts| > 4 then parts[4] else "";
              var mountpoint := if |parts| > 5 then parts[5] else "";
              if mountpoint == "" && fstype != "" && fstype !in ExcludedFsTypes {
                drives := drives + [Drive("/dev/" + name, size, fstype, uuid, fsLabel)];
              }
            }
          }
          i := i + 1;
        }
        assert lines[..|lines|] == lines;
      }
    }
  }
}
