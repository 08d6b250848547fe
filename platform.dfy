/** Cloud-host detection: `read_if_readable` and `is_ec2`. */
module Platform {

  import opened Wrappers

  /** What a path names on the host's filesystem: a readable regular file, a
      regular file whose opening or reading raises, or something that is not a
      regular file. A path absent from the map does not exist. */
  datatype FileEntry = Readable(contents: string) | Unreadable | NotAFile

  /** The host as `is_ec2` sees it: `sys.platform`, the filesystem, and the
      `PrimaryOwnerName` that the WMI `Win32_ComputerSystem` query yields on Windows. */
  datatype Host = Host(platform: string, files: map<string, FileEntry>, windowsOwner: string)

  /** `read_if_readable`: the file's text, or `""` for a missing, non-regular
      or unreadable file. */
  function ReadIfReadable(files: map<string, FileEntry>, path: string): (text: string)
    ensures path in files && files[path].Readable? ==> text == files[path].contents
    ensures !(path in files && files[path].Readable?) ==> text == ""
  {
    if path in files then
      match files[path]
      case Readable(contents) => contents
      case Unreadable => ""
      case NotAFile => ""
    else ""
  }

  /** `needle` occurs in `s` at position `i`. */
  predicate OccursAt(s: string, needle: string, i: int)
  {
    0 <= i <= |s| - |needle| && s[i..i + |needle|] == needle
  }

  /** Python's `needle in s` on strings. */
  function Contains(s: string, needle: string): (r: bool)
    ensures r <==> exists i :: OccursAt(s, needle, i)
    decreases |s|
  {
    if |s| < |needle| then false
    else if s[..|needle|] == needle then assert OccursAt(s, needle, 0); true
    else
      var r := Contains(s[1..], needle);
      assert forall i :: OccursAt(s[1..], needle, i) <==> OccursAt(s, needle, i + 1);
      assert !OccursAt(s, needle, 0);
      assert (exists i :: OccursAt(s, needle, i)) ==> exists i :: OccursAt(s[1..], needle, i) by {
        if exists i :: OccursAt(s, needle, i) {
          var i :| OccursAt(s, needle, i);
          assert OccursAt(s[1..], needle, i - 1);
        }
      }
      r
  }

  /** One test of `is_ec2`'s Linux branch. */
  datatype Probe = StartsWith(path: string, prefix: string) | Mentions(path: string, needle: string)

  const DmiDir := "/sys/devices/virtual/dmi/id/"

  /** The Linux probes in the order `is_ec2` tries them (the `sys_vendor` test appears twice). */
  const LinuxProbes: seq<Probe> := [
    StartsWith("/sys/hypervisor/uuid", "ec2"),
    StartsWith("/sys/class/dmi/id/product_uuid", "EC2"),
    StartsWith(DmiDir + "board_vendor", "Amazon EC2"),
    StartsWith(DmiDir + "sys_vendor", "Amazon EC2"),
    StartsWith(DmiDir + "sys_vendor", "Amazon EC2"),
    StartsWith(DmiDir + "bios_vendor", "Amazon EC2"),
    StartsWith(DmiDir + "chassis_vendor", "Amazon EC2"),
    StartsWith(DmiDir + "chassis_asset_tag", "Amazon EC2"),
    Mentions(DmiDir + "modalias", "AmazonEC2"),
    Mentions(DmiDir + "uevent", "AmazonEC2")
  ]

  /** Whether one probe matches the file it reads. */
  predicate Matches(files: map<string, FileEntry>, p: Probe)
  {
    match p
    case StartsWith(path, prefix) => prefix <= ReadIfReadable(files, path)
    case Mentions(path, needle) => Contains(ReadIfReadable(files, path), needle)
  }

  /** The index of the first probe that matches, if any. */
  function FirstMatch(files: map<string, FileEntry>, probes: seq<Probe>): (r: Option<nat>)
    ensures r.Some? ==> r.value < |probes| && Matches(files, probes[r.value])
    ensures r.Some? ==> forall j :: 0 <= j < r.value ==> !Matches(files, probes[j])
    ensures r.None? ==> forall j :: 0 <= j < |probes| ==> !Matches(files, probes[j])
  {
    if probes == [] then None
    else if Matches(files, probes[0]) then Some(0)
    else match FirstMatch(files, probes[1..])
      case None => None
      case Some(i) => Some(i + 1)
  }

  /** The Linux branch of `is_ec2`, as the chain of `elif` tests it is written as. */
  predicate IsEc2Linux(files: map<string, FileEntry>)
  {
    if "ec2" <= ReadIfReadable(files, "/sys/hypervisor/uuid") then true
    else if "EC2" <= ReadIfReadable(files, "/sys/class/dmi/id/product_uuid") then true
    else if "Amazon EC2" <= ReadIfReadable(files, DmiDir + "board_vendor") then true
    else if "Amazon EC2" <= ReadIfReadable(files, DmiDir + "sys_vendor") then true
    else if "Amazon EC2" <= ReadIfReadable(files, DmiDir + "sys_vendor") then true
    else if "Amazon EC2" <= ReadIfReadable(files, DmiDir + "bios_vendor") then true
    else if "Amazon EC2" <= ReadIfReadable(files, DmiDir + "chassis_vendor") then true
    else if "Amazon EC2" <= ReadIfReadable(files, DmiDir + "chassis_asset_tag") then true
    else if Contains(ReadIfReadable(files, DmiDir + "modalias"), "AmazonEC2") then true
    else if Contains(ReadIfReadable(files, DmiDir + "uevent"), "AmazonEC2") then true
    else false
  }

  /** `is_ec2`: Windows asks WMI, Linux probes files, any other platform yields
      `None`, which callers read as false. */
  predicate IsEc2(host: Host)
    ensures IsEc2(host) ==>
              || ("win" <= host.platform && host.windowsOwner == "EC2")
              || ("linux" <= host.platform && FirstMatch(host.files, LinuxProbes).Some?)
  {
    IsEc2LinuxFirstMatch(host.files);
    if "win" <= host.platform then host.windowsOwner == "EC2"
    else if "linux" <= host.platform then IsEc2Linux(host.files)
    else false
  }

  /** The `elif` chain holds exactly when some probe of the ordered list matches. */
  lemma IsEc2LinuxFirstMatch(files: map<string, FileEntry>)
    ensures IsEc2Linux(files) <==> FirstMatch(files, LinuxProbes).Some?
  {
    var m := FirstMatch(files, LinuxProbes);
    assert Matches(files, LinuxProbes[0]) == ("ec2" <= ReadIfReadable(files, "/sys/hypervisor/uuid"));
    assert Matches(files, LinuxProbes[1]) == ("EC2" <= ReadIfReadable(files, "/sys/class/dmi/id/product_uuid"));
    assert Matches(files, LinuxProbes[2]) == ("Amazon EC2" <= ReadIfReadable(files, DmiDir + "board_vendor"));
    assert Matches(files, LinuxProbes[3]) == ("Amazon EC2" <= ReadIfReadable(files, DmiDir + "sys_vendor"));
    assert Matches(files, LinuxProbes[4]) == ("Amazon EC2" <= ReadIfReadable(files, DmiDir + "sys_vendor"));
    assert Matches(files, LinuxProbes[5]) == ("Amazon EC2" <= ReadIfReadable(files, DmiDir + "bios_vendor"));
    assert Matches(files, LinuxProbes[6]) == ("Amazon EC2" <= ReadIfReadable(files, DmiDir + "chassis_vendor"));
    assert Matches(files, LinuxProbes[7]) == ("Amazon EC2" <= ReadIfReadable(files, DmiDir + "chassis_asset_tag"));
    assert Matches(files, LinuxProbes[8]) == Contains(ReadIfReadable(files, DmiDir + "modalias"), "AmazonEC2");
    assert Matches(files, LinuxProbes[9]) == Contains(ReadIfReadable(files, DmiDir + "uevent"), "AmazonEC2");
  }

  /** A missing or unreadable file reads as `""`, so the probe that reads it
      does not match, whatever the other files hold. */
  lemma UnreadableProbeFails(files: map<string, FileEntry>, j: nat)
    requires j < |LinuxProbes|
    requires !(LinuxProbes[j].path in files && files[LinuxProbes[j].path].Readable?)
    ensures !Matches(files, LinuxProbes[j])
  {
    assert !Contains("", "AmazonEC2");
  }

  /** Hence a host none of whose probed files is readable is not taken for an
      EC2 instance. */
  lemma NoReadableProbeFile(files: map<string, FileEntry>)
    requires forall j :: 0 <= j < |LinuxProbes| ==>
      !(LinuxProbes[j].path in files && files[LinuxProbes[j].path].Readable?)
    ensures !IsEc2Linux(files)
  {
    forall j | 0 <= j < |LinuxProbes|
      ensures !Matches(files, LinuxProbes[j])
    {
      UnreadableProbeFails(files, j);
    }
    IsEc2LinuxFirstMatch(files);
  }
}
