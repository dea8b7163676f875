/** Moving an old cron log into the cron folder, over names, inodes and bytes.
    (crates/cli/src/cron.rs) */
module CronMoveLog {
  import opened Wrappers

  type Path = string

  /** A file's identity: its filesystem and its inode there. */
  datatype Node = Node(dev: nat, ino: nat)

  /** What a name is: of a regular file, or of something else (a symlink, a directory). */
  datatype Entry = Regular(node: Node) | Other

  datatype Disk = Disk(names: map<Path, Entry>, bytes: map<Node, string>)

  /** Every regular file has its bytes. */
  predicate Sane(d: Disk) {
    forall p | p in d.names && d.names[p].Regular? :: d.names[p].node in d.bytes
  }

  predicate IsFile(d: Disk, p: Path) {
    p in d.names && d.names[p].Regular? && d.names[p].node in d.bytes
  }

  function Content(d: Disk, p: Path): string
    requires IsFile(d, p)
  {
    d.bytes[d.names[p].node]
  }

  /** `old` under the name `new` too. */
  function Linked(d: Disk, old_: Path, new_: Path): Disk
    requires old_ in d.names
  {
    d.(names := d.names[new_ := d.names[old_]])
  }

  function Unlinked(d: Disk, p: Path): Disk {
    d.(names := d.names - {p})
  }

  /** The bytes at the end of the file `new`, which is made if need be. */
  function Appended(d: Disk, new_: Path, made: Node, more: string): Disk
    requires new_ in d.names ==> IsFile(d, new_)
  {
    if new_ in d.names then d.(bytes := d.bytes[d.names[new_].node := Content(d, new_) + more])
    else Disk(d.names[new_ := Regular(made)], d.bytes[made := more])
  }

  /** What the new log holds once the old one is moved there. */
  function MovedContent(d: Disk, old_: Path, new_: Path): string
    requires IsFile(d, old_) && (new_ in d.names ==> IsFile(d, new_))
  {
    if new_ !in d.names || d.names[new_] == d.names[old_] then Content(d, old_) else Content(d, new_) + Content(d, old_)
  }

  /** No name but the two, and no file but the new log, has changed. */
  ghost predicate OthersSame(d: Disk, d': Disk, old_: Path, new_: Path) {
    && (forall p | p != old_ && p != new_ :: p in d'.names <==> p in d.names)
    && (forall p | p != old_ && p != new_ && p in d.names :: d'.names[p] == d.names[p])
    && (forall n | n in d.bytes && (new_ in d'.names ==> d'.names[new_] != Regular(n)) ::
       n in d'.bytes && d'.bytes[n] == d.bytes[n])
  }

  /** The log is moved: the old name is gone, the new one holds it. */
  ghost predicate Moved(d: Disk, d': Disk, old_: Path, new_: Path)
    requires IsFile(d, old_) && (new_ in d.names ==> IsFile(d, new_))
  {
    old_ !in d'.names && IsFile(d', new_) && Content(d', new_) == MovedContent(d, old_, new_)
        && OthersSame(d, d', old_, new_)
  }

  /** Cut short: the old log is as it was, and of the new one nothing that was there is gone. */
  ghost predicate CutShort(d: Disk, d': Disk, old_: Path, new_: Path)
    requires IsFile(d, old_)
  {
    && IsFile(d', old_) && Content(d', old_) == Content(d, old_) && OthersSame(d, d', old_, new_)
    && (new_ in d.names ==> new_ in d'.names && d'.names[new_] == d.names[new_])
    && (IsFile(d, new_) ==>
       IsFile(d', new_) && Content(d, new_) <= Content(d', new_) <= Content(d, new_) + Content(d, old_))
    && (new_ !in d.names && new_ in d'.names ==> IsFile(d', new_) && Content(d', new_) <= Content(d, old_))
  }

  datatype Outcome = Done(moved: bool) | Failed

  /** Which calls succeed: making the new log's folder, a hard link where one can be, the copy, the removal. */
  datatype Calls = Calls(folder: bool, link: bool, copy: bool, remove: bool)

  /** The home's filesystems. */
  class FileSystem {
    var disk: Disk

    constructor (d: Disk)
      requires Sane(d)
      ensures disk == d
    {
      disk := d;
    }

    /** A hard link: never over a name that is there, nor across filesystems; or it fails for a reason
        of its own. */
    method HardLink(old_: Path, new_: Path, devOfNew: nat, works: bool) returns (ok: bool)
      requires Sane(disk) && IsFile(disk, old_)
      modifies this
      ensures ok <==> works && new_ !in old(disk).names && old(disk).names[old_].node.dev == devOfNew
      ensures disk == if ok then Linked(old(disk), old_, new_) else old(disk)
    {
      ok := works && new_ !in disk.names && disk.names[old_].node.dev == devOfNew;
      if ok {
        disk := Linked(disk, old_, new_);
      }
    }

    /** The first `length` bytes of one file to the end of another, piece by piece; it may fail
        before any piece, or after the last. */
    method CopyOnto(from: Path, new_: Path, made: Node, length: nat, works: bool)
      requires Sane(disk) && IsFile(disk, from) && (new_ in disk.names ==> IsFile(disk, new_))
      requires length == |Content(disk, from)|
      requires made !in disk.bytes
      requires new_ != from && (new_ in disk.names ==> disk.names[new_] != disk.names[from])
      modifies this
      ensures works ==> disk == Appended(old(disk), new_, made, Content(old(disk), from))
      ensures !works ==> disk == old(disk) || exists k ::
                0 <= k <= length && disk == Appended(old(disk), new_, made, Content(old(disk), from)[..k])
    {
      ghost var d := disk;
      var there: bool := *;
      if !works && !there {
        return;
      }
      var cut: int := *;
      var goal := if !works && 0 <= cut < length then cut else length;
      disk := Appended(disk, new_, made, "");
      var at := 0;
      assert Content(d, from)[..0] == "";
      assert new_ in d.names ==> Content(d, new_) + "" == Content(d, new_);
      while at < goal
        invariant at <= goal <= length && disk == Appended(d, new_, made, Content(d, from)[..at])
      {
        var n: int := *;
        var piece := if 0 < n <= goal - at then n else 1;
        AppendedMore(d, from, new_, made, at, piece);
        disk := Appended(disk, new_, made, Content(disk, from)[at..at + piece]);
        at := at + piece;
      }
      assert Content(d, from)[..length] == Content(d, from);
    }

    method Remove(p: Path, works: bool)
      requires p in disk.names
      modifies this
      ensures disk == if works then Unlinked(old(disk), p) else old(disk)
    {
      if works {
        disk := Unlinked(disk, p);
      }
    }

    /** Move the old log to the new one's place. `made`: the inode of a new log made here. It is refused only
        for a new log that is no regular file, and fails only if a call does. */
    method MoveCronLog(old_: Path, new_: Path, devOfNew: nat, made: Node, calls: Calls) returns (r: Outcome)
      requires Sane(disk) && IsFile(disk, old_) && old_ != new_ && made !in disk.bytes
      modifies this
      ensures r == Done(false) <==> calls.folder && new_ in old(disk).names && old(disk).names[new_] == Other
      ensures calls.folder && calls.copy && calls.remove ==> r != Failed
      ensures r == Done(true) ==>
                (new_ in old(disk).names ==> IsFile(old(disk), new_)) && Moved(old(disk), disk, old_, new_)
      ensures r == Done(false) ==> disk == old(disk)
      ensures new_ in old(disk).names && old(disk).names[new_] == Other ==> r != Done(true) && disk == old(disk)
      ensures r == Failed ==> CutShort(old(disk), disk, old_, new_)
    {
      if !calls.folder {
        return Failed;
      }
      var linked := HardLink(old_, new_, devOfNew, calls.link);
      if !linked {
        var was := disk.names[old_];
        if new_ in disk.names && disk.names[new_] == Other {
          return Done(false);
        }
        if !(new_ in disk.names && disk.names[new_] == was) {
          CopyOnto(old_, new_, made, |Content(disk, old_)|, calls.copy);
          if !calls.copy {
            return Failed;
          }
        }
      }
      Remove(old_, calls.remove);
      r := if calls.remove then Done(true) else Failed;
    }
  }

  lemma AppendedMore(d: Disk, from: Path, new_: Path, made: Node, at: nat, piece: nat)
    requires IsFile(d, from) && (new_ in d.names ==> IsFile(d, new_) && d.names[new_] != d.names[from])
    requires made !in d.bytes && new_ != from && at + piece <= |Content(d, from)|
    ensures var d' := Appended(d, new_, made, Content(d, from)[..at]);
            && IsFile(d', new_) && IsFile(d', from) && Content(d', from) == Content(d, from)
            && Appended(d', new_, made, Content(d, from)[at..at + piece])
               == Appended(d, new_, made, Content(d, from)[..at + piece])
  {
    var c := Content(d, from);
    assert c[..at] + c[at..at + piece] == c[..at + piece];
    if new_ in d.names {
      assert Content(d, new_) + c[..at] + c[at..at + piece] == Content(d, new_) + c[..at + piece];
    }
  }

  // ---- stopped and run again ------------------------------------------------------------------------

  /** Stopped between its link and its unlink, a move run again still leaves the content there once. */
  lemma StoppedAfterTheLink(d: Disk, old_: Path, new_: Path, d': Disk)
    requires Sane(d) && IsFile(d, old_) && old_ != new_ && new_ !in d.names
    requires Moved(Linked(d, old_, new_), d', old_, new_)
    ensures Moved(d, d', old_, new_)
  {}

  /** Stopped after its copy instead, it leaves it there twice. */
  lemma StoppedAfterTheCopy(d: Disk, old_: Path, new_: Path, made: Node, d': Disk)
    requires Sane(d) && IsFile(d, old_) && old_ != new_ && made !in d.bytes
    requires new_ in d.names ==> IsFile(d, new_) && d.names[new_] != d.names[old_]
    requires var c := Appended(d, new_, made, Content(d, old_));
             IsFile(c, old_) && IsFile(c, new_) && Moved(c, d', old_, new_)
    ensures Content(d', new_)
            == (if new_ in d.names then Content(d, new_) else "") + Content(d, old_) + Content(d, old_)
    ensures Moved(d, d', old_, new_) <==> Content(d, old_) == ""
  {
    var c := Appended(d, new_, made, Content(d, old_));
    assert c.names[old_] == d.names[old_] && c.names[new_] != c.names[old_];
    assert Content(c, old_) == Content(d, old_);
    assert Content(d', new_) == Content(c, new_) + Content(c, old_);
    if Content(d, old_) == "" {
      assert new_ in d.names ==> Content(d, new_) + "" == Content(d, new_);
    }
  }
}
