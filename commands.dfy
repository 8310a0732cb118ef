/** The command lines and file contents that the installation steps of
    installer-backend/app.py build from the submitted configuration: plain
    string and list construction, no effects. */
module Commands {
  import opened Text

  type Argv = seq<string>

  /** Where the target root file system is mounted during the run. */
  const MountPoint: string := "/mnt/twinaos"
  const EfiMountPoint: string := MountPoint + "/boot/efi"
  const FstabPath: string := MountPoint + "/etc/fstab"
  const HostnamePath: string := MountPoint + "/etc/hostname"
  const HostnameText: string := "twinaos\n"

  /** The EFI system partition, `disk + "1"`, and the root partition,
      `disk + "2"`: two different devices, both named after the disk. */
  function EfiPartition(disk: string): (p: string)
    ensures |p| == |disk| + 1 && p[..|disk|] == disk && p[|disk|] == '1'
  {
    disk + "1"
  }

  function RootPartition(disk: string): (p: string)
    ensures |p| == |disk| + 1 && p[..|disk|] == disk && p[|disk|] == '2'
  {
    disk + "2"
  }

  lemma PartitionsDiffer(disk: string)
    ensures EfiPartition(disk) != RootPartition(disk)
  {
    assert EfiPartition(disk)[|disk|] != RootPartition(disk)[|disk|];
  }

  /** The four `parted` command lines of `prepare_disk`, as the f-strings
      write them before `cmd.split()`. */
  function PartedLines(disk: string): seq<string> {
    [ "parted -s " + disk + " mklabel gpt",
      "parted -s " + disk + " mkpart primary fat32 1MiB 513MiB",
      "parted -s " + disk + " set 1 esp on",
      "parted -s " + disk + " mkpart primary ext4 513MiB 100%" ]
  }

  /** The argument vectors `prepare_disk` passes to the shell for the
      partitioning: each line split at white space. */
  function PartedArgvs(disk: string): (r: seq<Argv>)
    ensures |r| == 4
  {
    SplitEach(PartedLines(disk))
  }

  /** `[line.split() for line in lines]`. */
  function SplitEach(lines: seq<string>): (r: seq<Argv>)
    ensures |r| == |lines|
    ensures forall i :: 0 <= i < |lines| ==> r[i] == Split(lines[i])
  {
    if lines == [] then [] else [Split(lines[0])] + SplitEach(lines[1..])
  }

  /** When the disk path is a single word (no white space), splitting the
      four lines gives exactly: a GPT label, a FAT32 partition from 1 MiB to
      513 MiB, the `esp` flag on partition 1, and an ext4 partition from
      513 MiB to the end of the disk, in that order. */
  lemma PartedArgvsOfPlainDisk(disk: string)
    requires IsWord(disk)
    ensures PartedArgvs(disk) == [
      ["parted", "-s", disk, "mklabel", "gpt"],
      ["parted", "-s", disk, "mkpart", "primary", "fat32", "1MiB", "513MiB"],
      ["parted", "-s", disk, "set", "1", "esp", "on"],
      ["parted", "-s", disk, "mkpart", "primary", "ext4", "513MiB", "100%"]]
  {
    PartedLabel(disk);
    PartedEfi(disk);
    PartedEsp(disk);
    PartedRoot(disk);
  }

  lemma PartedLabel(disk: string)
    requires IsWord(disk)
    ensures Split(PartedLines(disk)[0]) == ["parted", "-s", disk, "mklabel", "gpt"]
  {
    LabelWords();
    JoinTwo("mklabel", "gpt");
    LabelText();
    PartedLine(disk, ["mklabel", "gpt"], " mklabel gpt");
  }

  lemma PartedEfi(disk: string)
    requires IsWord(disk)
    ensures Split(PartedLines(disk)[1]) == ["parted", "-s", disk, "mkpart", "primary", "fat32", "1MiB", "513MiB"]
  {
    EfiWords();
    JoinFive("mkpart", "primary", "fat32", "1MiB", "513MiB");
    EfiText();
    PartedLine(disk, ["mkpart", "primary", "fat32", "1MiB", "513MiB"], " mkpart primary fat32 1MiB 513MiB");
  }

  lemma PartedEsp(disk: string)
    requires IsWord(disk)
    ensures Split(PartedLines(disk)[2]) == ["parted", "-s", disk, "set", "1", "esp", "on"]
  {
    EspWords();
    JoinFour("set", "1", "esp", "on");
    EspText();
    PartedLine(disk, ["set", "1", "esp", "on"], " set 1 esp on");
  }

  lemma PartedRoot(disk: string)
    requires IsWord(disk)
    ensures Split(PartedLines(disk)[3]) == ["parted", "-s", disk, "mkpart", "primary", "ext4", "513MiB", "100%"]
  {
    RootWords();
    JoinFive("mkpart", "primary", "ext4", "513MiB", "100%");
    RootText();
    PartedLine(disk, ["mkpart", "primary", "ext4", "513MiB", "100%"], " mkpart primary ext4 513MiB 100%");
  }

  // Each fact below about the string literals of one line is its own lemma:
  // asserted inside the line's proof, the longer ones exceed the solver's
  // resource limit there.
  lemma LabelWords()
    ensures IsWord("mklabel") && IsWord("gpt")
  {
  }

  lemma EfiWords()
    ensures IsWord("mkpart") && IsWord("primary") && IsWord("fat32") && IsWord("1MiB") && IsWord("513MiB")
  {
  }

  lemma EspWords()
    ensures IsWord("set") && IsWord("1") && IsWord("esp") && IsWord("on")
  {
  }

  lemma RootWords()
    ensures IsWord("mkpart") && IsWord("primary") && IsWord("ext4") && IsWord("513MiB") && IsWord("100%")
  {
  }

  lemma LabelText()
    ensures " " + ("mklabel" + (" " + "gpt")) == " mklabel gpt"
  {
  }

  lemma EfiText()
    ensures " " + ("mkpart" + (" " + ("primary" + (" " + ("fat32" + (" " + ("1MiB" + (" " + "513MiB"))))))))
            == " mkpart primary fat32 1MiB 513MiB"
  {
  }

  lemma EspText()
    ensures " " + ("set" + (" " + ("1" + (" " + ("esp" + (" " + "on")))))) == " set 1 esp on"
  {
  }

  lemma RootText()
    ensures " " + ("mkpart" + (" " + ("primary" + (" " + ("ext4" + (" " + ("513MiB" + (" " + "100%"))))))))
            == " mkpart primary ext4 513MiB 100%"
  {
  }

  /** A `parted -s <disk> ...` line whose words after the disk are `post`
      splits into those words. */
  lemma PartedLine(disk: string, post: Argv, tail: string)
    requires IsWord(disk)
    requires |post| > 0 && forall i :: 0 <= i < |post| ==> IsWord(post[i])
    requires " " + Join(post) == tail
    ensures Split("parted -s " + disk + tail) == ["parted", "-s", disk] + post
  {
    var ws := ["parted", "-s", disk] + post;
    JoinParted(disk, post);
    forall i | 0 <= i < |ws| ensures IsWord(ws[i]) {
      if i >= 3 { assert ws[i] == post[i - 3]; }
    }
    LineOfWords(ws, "parted -s " + disk + tail);
  }

  lemma JoinParted(disk: string, post: Argv)
    requires |post| > 0
    ensures Join(["parted", "-s", disk] + post) == "parted -s " + disk + (" " + Join(post))
  {
    var a := [disk] + post;
    JoinCons(disk, post);
    var b := ["-s"] + a;
    JoinCons("-s", a);
    JoinCons("parted", b);
    assert ["parted"] + b == ["parted", "-s", disk] + post;
    BlankAssoc(disk, Join(post));
  }

  lemma BlankAssoc(disk: string, j: string)
    ensures "parted" + " " + ("-s" + " " + (disk + " " + j)) == "parted -s " + disk + (" " + j)
  {
  }

  /** A line that is the blank-separated join of some words splits back into
      those words. */
  lemma LineOfWords(ws: Argv, line: string)
    requires forall i :: 0 <= i < |ws| ==> IsWord(ws[i])
    requires line == Join(ws)
    ensures Split(line) == ws
  {
    assert line + "" == line;
    SplitJoin(ws, "");
  }

  function MkfsFatArgv(disk: string): Argv {
    ["mkfs.fat", "-F32", EfiPartition(disk)]
  }

  function MkfsExt4Argv(disk: string): Argv {
    ["mkfs.ext4", "-F", RootPartition(disk)]
  }

  function MountRootArgv(disk: string): Argv {
    ["mount", RootPartition(disk), MountPoint]
  }

  function MountEfiArgv(disk: string): Argv {
    ["mount", EfiPartition(disk), EfiMountPoint]
  }

  const DebootstrapArgv: Argv :=
    ["debootstrap", "--arch=amd64", "--variant=minbase", "bookworm", MountPoint,
     "http://deb.debian.org/debian/"]

  /** `blkid -s UUID -o value <device>`: prints the UUID of the device. */
  function BlkidArgv(device: string): Argv {
    ["blkid", "-s", "UUID", "-o", "value", device]
  }

  /** The two lines written to the target's `/etc/fstab`, root first. */
  function FstabLines(rootUuid: string, bootUuid: string): (lines: seq<string>)
    ensures |lines| == 2
  {
    [ "UUID=" + rootUuid + " / ext4 defaults 0 1\n",
      "UUID=" + bootUuid + " /boot/efi vfat defaults 0 2\n" ]
  }

  /** Read as fstab's white-space separated fields, the first line mounts the
      root UUID on `/` as ext4 with fsck pass 1 and the second the EFI UUID on
      `/boot/efi` as vfat with pass 2, each with `defaults` and dump 0. */
  lemma FstabFields(rootUuid: string, bootUuid: string)
    requires NoSpace(rootUuid) && NoSpace(bootUuid)
    ensures Split(FstabLines(rootUuid, bootUuid)[0]) ==
            ["UUID=" + rootUuid, "/", "ext4", "defaults", "0", "1"]
    ensures Split(FstabLines(rootUuid, bootUuid)[1]) ==
            ["UUID=" + bootUuid, "/boot/efi", "vfat", "defaults", "0", "2"]
  {
    FstabRootLine(rootUuid, bootUuid);
    FstabEfiLine(rootUuid, bootUuid);
  }

  lemma FstabRootLine(rootUuid: string, bootUuid: string)
    requires NoSpace(rootUuid)
    ensures Split(FstabLines(rootUuid, bootUuid)[0]) ==
            ["UUID=" + rootUuid, "/", "ext4", "defaults", "0", "1"]
  {
    FstabRootWords();
    JoinFive("/", "ext4", "defaults", "0", "1");
    FstabRootText();
    FstabLine(rootUuid, ["/", "ext4", "defaults", "0", "1"], " / ext4 defaults 0 1\n");
  }

  lemma FstabEfiLine(rootUuid: string, bootUuid: string)
    requires NoSpace(bootUuid)
    ensures Split(FstabLines(rootUuid, bootUuid)[1]) ==
            ["UUID=" + bootUuid, "/boot/efi", "vfat", "defaults", "0", "2"]
  {
    FstabEfiWords();
    JoinFive("/boot/efi", "vfat", "defaults", "0", "2");
    FstabEfiText();
    FstabLine(bootUuid, ["/boot/efi", "vfat", "defaults", "0", "2"], " /boot/efi vfat defaults 0 2\n");
  }

  // Separate lemmas for the same reason as the parted literals above.
  lemma FstabRootWords()
    ensures IsWord("/") && IsWord("ext4") && IsWord("defaults") && IsWord("0") && IsWord("1")
  {
  }

  lemma FstabEfiWords()
    ensures IsWord("/boot/efi") && IsWord("vfat") && IsWord("defaults") && IsWord("0") && IsWord("2")
  {
  }

  lemma FstabRootText()
    ensures " " + ("/" + (" " + ("ext4" + (" " + ("defaults" + (" " + ("0" + (" " + "1")))))))) + "\n"
            == " / ext4 defaults 0 1\n"
  {
  }

  lemma FstabEfiText()
    ensures " " + ("/boot/efi" + (" " + ("vfat" + (" " + ("defaults" + (" " + ("0" + (" " + "2")))))))) + "\n"
            == " /boot/efi vfat defaults 0 2\n"
  {
  }

  /** A `UUID=<uuid> ...` line whose remaining fields are `rest`, ended by a
      newline, splits into the UUID field followed by `rest`. */
  lemma FstabLine(uuid: string, rest: Argv, tail: string)
    requires NoSpace(uuid)
    requires |rest| > 0 && forall i :: 0 <= i < |rest| ==> IsWord(rest[i])
    requires " " + Join(rest) + "\n" == tail
    ensures Split("UUID=" + uuid + tail) == ["UUID=" + uuid] + rest
  {
    var ws := ["UUID=" + uuid] + rest;
    UuidFieldIsWord(uuid);
    JoinCons("UUID=" + uuid, rest);
    forall i | 0 <= i < |ws| ensures IsWord(ws[i]) {
      if i >= 1 { assert ws[i] == rest[i - 1]; }
    }
    SplitJoin(ws, "\n");
    assert Join(ws) + "\n" == "UUID=" + uuid + tail;
  }

  lemma UuidFieldIsWord(uuid: string)
    requires NoSpace(uuid)
    ensures IsWord("UUID=" + uuid)
  {
    var f := "UUID=" + uuid;
    forall i | 0 <= i < |f| ensures !IsSpace(f[i]) {
      if i >= 5 { assert f[i] == uuid[i - 5]; }
    }
  }

  /** `chroot_command`: the command run with its root changed to the mount
      point; the command itself follows the two-word prefix unchanged. */
  function ChrootArgv(mountPoint: string, command: Argv): (argv: Argv)
    ensures |argv| == |command| + 2
    ensures argv[..2] == ["chroot", mountPoint] && argv[2..] == command
  {
    ["chroot", mountPoint] + command
  }

  function UseraddCommand(username: string): Argv {
    ["useradd", "-m", "-s", "/bin/bash", "-G", "sudo", username]
  }

  /** The password is set by piping `user:password` into `chpasswd`. */
  function ChpasswdCommand(username: string, password: string): Argv {
    ["bash", "-c", "echo '" + username + ":" + password + "' | chpasswd"]
  }

  function TimezoneCommand(timezone: string): Argv {
    ["ln", "-sf", "/usr/share/zoneinfo/" + timezone, "/etc/localtime"]
  }

  const AptUpdateCommand: Argv := ["apt", "update"]
  const AptInstallCommand: Argv := ["apt", "install", "-y", "grub-efi-amd64", "linux-image-amd64"]

  function GrubInstallCommand(disk: string): Argv {
    ["grub-install", "--target=x86_64-efi", "--efi-directory=/boot/efi", disk]
  }

  const GrubMkconfigCommand: Argv := ["grub-mkconfig", "-o", "/boot/grub/grub.cfg"]

  const UmountEfiArgv: Argv := ["umount", EfiMountPoint]
  const UmountRootArgv: Argv := ["umount", MountPoint]
}
