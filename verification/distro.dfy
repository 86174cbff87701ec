/** Host facts the installer branches on: the distribution family derived
    from the `ID=` line of /etc/os-release, and the GPU vendor. */
module Distro {
  import opened Wrappers
  import opened Text

  datatype Family = Arch | Debian | Fedora | OpenSuse | UnknownFamily

  /** `SystemInfo.gpu_vendor`: one of the three vendors found in `lspci`, or "Unknown". */
  datatype Gpu = Nvidia | Amd | Intel | UnknownGpu

  const ArchIds: seq<string> := ["arch", "manjaro", "endeavouros", "garuda", "artix", "arcolinux"]
  const DebianIds: seq<string> := ["debian", "ubuntu", "linuxmint", "pop", "elementary", "zorin"]
  const FedoraIds: seq<string> := ["fedora", "nobara", "ultramarine"]
  const OpenSuseIds: seq<string> := ["opensuse-leap", "opensuse-tumbleweed", "opensuse"]

  /** The family an os-release ID belongs to; `UnknownFamily` for any other ID. */
  function FamilyOfId(id: string): Family {
    if id in ArchIds then Arch
    else if id in DebianIds then Debian
    else if id in FedoraIds then Fedora
    else if id in OpenSuseIds then OpenSuse
    else UnknownFamily
  }

  /** The four ID lists are disjoint, so each family is reached exactly from its own list. */
  lemma FamilyExactly(id: string)
    ensures FamilyOfId(id) == Arch <==> id in ArchIds
    ensures FamilyOfId(id) == Debian <==> id in DebianIds
    ensures FamilyOfId(id) == Fedora <==> id in FedoraIds
    ensures FamilyOfId(id) == OpenSuse <==> id in OpenSuseIds
    ensures FamilyOfId(id) == UnknownFamily <==>
              id !in ArchIds && id !in DebianIds && id !in FedoraIds && id !in OpenSuseIds
  {
  }

  /** The value of the first line that starts with `key=`, as the multi-line
      regular expression `^KEY=(.*)$` finds it. */
  function FirstValue(lines: seq<string>, key: string): Option<string> {
    if lines == [] then None
    else if IsPrefix(key + "=", lines[0]) then Some(lines[0][|key| + 1..])
    else FirstValue(lines[1..], key)
  }

  /** `FirstValue` finds nothing exactly when no line starts with `key=`, and
      what it finds is the rest of such a line. */
  lemma {:induction false} FirstValueFinds(lines: seq<string>, key: string)
    ensures FirstValue(lines, key).None? <==>
              forall i :: 0 <= i < |lines| ==> !IsPrefix(key + "=", lines[i])
    ensures FirstValue(lines, key).Some? ==>
              exists i :: 0 <= i < |lines| && lines[i] == key + "=" + FirstValue(lines, key).value
  {
    if lines == [] {
    } else if IsPrefix(key + "=", lines[0]) {
      assert lines[0] == key + "=" + lines[0][|key| + 1..];
    } else {
      FirstValueFinds(lines[1..], key);
      assert forall i :: 1 <= i < |lines| ==> lines[i] == lines[1..][i - 1];
      if FirstValue(lines, key).Some? {
        var j :| 0 <= j < |lines[1..]| && lines[1..][j] == key + "=" + FirstValue(lines, key).value;
        assert lines[j + 1] == lines[1..][j];
      }
    }
  }

  /** A field of os-release, with surrounding double quotes removed. */
  function OsReleaseField(content: string, key: string): Option<string> {
    match FirstValue(SplitOn(content, '\n'), key)
    case None => None
    case Some(v) => Some(StripChar(v, '"'))
  }

  /** The distribution ID: the `ID=` value unquoted and lower-cased. */
  function DistroId(content: string): Option<string> {
    match OsReleaseField(content, "ID")
    case None => None
    case Some(v) => Some(Lower(v))
  }

  /** `detect_distro_family()`: the family of the os-release ID, `UnknownFamily`
      when the file is missing, has no `ID=` line, or names another distribution. */
  function DetectDistroFamily(osRelease: Option<string>): Family {
    match osRelease
    case None => UnknownFamily
    case Some(content) =>
      match DistroId(content)
      case None => UnknownFamily
      case Some(id) => FamilyOfId(id)
  }

  /** A file without any `ID=` line leaves the family unknown. */
  lemma NoIdLineIsUnknown(content: string)
    requires forall line :: line in SplitOn(content, '\n') ==> !IsPrefix("ID=", line)
    ensures DetectDistroFamily(Some(content)) == UnknownFamily
  {
    var lines := SplitOn(content, '\n');
    FirstValueFinds(lines, "ID");
    assert forall i :: 0 <= i < |lines| ==> !IsPrefix("ID" + "=", lines[i]) by {
      assert "ID" + "=" == "ID=";
      forall i | 0 <= i < |lines| ensures !IsPrefix("ID=", lines[i]) {
        assert lines[i] in lines;
      }
    }
  }

  /** A line that is not an `ID=` line (a `VERSION_ID=` line, say) does not change the result. */
  lemma {:induction false} OtherLineSkipped(line: string, rest: string)
    requires '\n' !in line && !IsPrefix("ID=", line)
    ensures DetectDistroFamily(Some(line + "\n" + rest)) == DetectDistroFamily(Some(rest))
  {
    SplitOnFirst(line, '\n', rest);
    assert "ID" + "=" == "ID=";
  }

  /** The first `ID=` line decides the family; quotes around the value and
      upper-case ASCII letters do not matter. */
  lemma {:induction false} IdLineDecides(v: string, rest: string)
    requires '\n' !in v
    ensures DetectDistroFamily(Some("ID=" + v + "\n" + rest)) == FamilyOfId(Lower(StripChar(v, '"')))
  {
    SplitOnFirst("ID=" + v, '\n', rest);
    assert "ID=" + v + "\n" + rest == ("ID=" + v) + ['\n'] + rest;
    assert "ID" + "=" == "ID=";
    assert IsPrefix("ID=", "ID=" + v);
    assert ("ID=" + v)[3..] == v;
  }

  /** `ID="manjaro"` and `ID=manjaro` are classified alike. */
  lemma {:induction false} QuotedIdClassified(id: string, rest: string)
    requires id != "" && id[0] != '"' && id[|id| - 1] != '"' && '\n' !in id
    ensures DetectDistroFamily(Some("ID=\"" + id + "\"\n" + rest)) == FamilyOfId(Lower(id))
  {
    var quoted := "\"" + id + "\"";
    assert '\n' !in quoted;
    assert "ID=\"" + id + "\"\n" + rest == "ID=" + quoted + "\n" + rest;
    IdLineDecides(quoted, rest);
    assert seq(1, _ => '"') == "\"";
    StripCharQuoted(id, '"', 1, 1);
  }
}
