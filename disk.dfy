/** The file system as the server sees it: a map from path to what `fs.stat`
    reports there, either an entry (a file with its bytes and modification
    time, or a directory) or the error code the call fails with. A path that
    is not in the map does not exist. */
module Disk {

  newtype byte = b: int | 0 <= b < 256

  datatype Entry =
    | File(content: seq<byte>, mtime: int)
    | Directory(size: nat, mtime: int)

  datatype StatResult = Found(entry: Entry) | Failed(code: string)

  type Disk = map<string, StatResult>

  const ENOENT: string := "ENOENT"

  /** `fs.stat(p)`: what the map holds at `p`; ENOENT for the empty path and
      for a path the map does not hold. */
  function Stat(disk: Disk, p: string): (r: StatResult)
    ensures p != "" && p in disk ==> r == disk[p]
    ensures p == "" || p !in disk ==> r == Failed(ENOENT)
  {
    if p != "" && p in disk then disk[p] else Failed(ENOENT)
  }

  /** `fse.pathExistsSync(p)`: the path can be stat'ed. */
  predicate Exists(disk: Disk, p: string): (b: bool)
    ensures b <==> p != "" && p in disk && disk[p].Found?
  {
    Stat(disk, p).Found?
  }

  /** `stats.size`: a file's byte count, a directory's recorded size. */
  function Size(e: Entry): nat {
    match e
    case File(content, _) => |content|
    case Directory(size, _) => size
  }

  /** `fs.writeFileSync` can replace what is at `p`: nothing is there yet or
      a regular file is. */
  predicate Writable(disk: Disk, p: string): (b: bool)
    // an absent path, one whose stat reports ENOENT, or a regular file
    ensures b <==> p != "" && (p !in disk || disk[p] == Failed(ENOENT) || (disk[p].Found? && disk[p].entry.File?))
  {
    p != "" && (Stat(disk, p) == Failed(ENOENT) || (Stat(disk, p).Found? && Stat(disk, p).entry.File?))
  }

  /** The disk after `fs.writeFileSync(p, content)` at time `now`. */
  function Write(disk: Disk, p: string, content: seq<byte>, now: int): (d: Disk)
    requires Writable(disk, p)
    ensures Stat(d, p) == Found(File(content, now))
    ensures forall q :: q != p ==> Stat(d, q) == Stat(disk, q)
  {
    disk[p := Found(File(content, now))]
  }
}
