/**
 * The RAM-disk directory layout shared by the filebench and postmark drivers:
 * disk `d` is mounted at `<base>/ram<d>` and holds test directories
 * `<base>/ram<d>/test<k>`; both drivers walk the pairs disk-major.
 */
module Layout {
  import opened Text
  import opened Arith

  /** `os.path.join(base, 'ram%d' % disk, 'test%d' % dir)` */
  function RamDiskDir(base: string, disk: nat, dir: nat): string {
    PathJoin(PathJoin(base, "ram" + Decimal(disk)), "test" + Decimal(dir))
  }

  /** What `os.path.join(base, name)` puts in front of `name` when `name` is relative. */
  function JoinPrefix(base: string): string {
    if base == [] || base[|base| - 1] == '/' then base else base + "/"
  }

  /** Joining a name that does not start with `/` keeps that name as the suffix. */
  lemma PathJoinSuffix(a: string, b: string)
    requires b != [] && b[0] != '/'
    ensures PathJoin(a, b) == JoinPrefix(a) + b
  {
  }

  /** The directory is the base's join prefix followed by `ram<disk>/test<dir>`. */
  lemma RamDiskDirShape(base: string, disk: nat, dir: nat)
    ensures RamDiskDir(base, disk, dir) == JoinPrefix(base) + ("ram" + Decimal(disk) + "/test" + Decimal(dir))
  {
    var r := "ram" + Decimal(disk);
    var t := "test" + Decimal(dir);
    var q := JoinPrefix(base) + r;
    PathJoinSuffix(base, r);
    assert q[|q| - 1] == Decimal(disk)[|Decimal(disk)| - 1];
    PathJoinSuffix(q, t);
    assert "ram" + Decimal(disk) + "/test" + Decimal(dir) == r + "/" + t;
  }

  /** The directory always ends in `ram<disk>/test<dir>`, whatever the base. */
  lemma RamDiskDirSuffix(base: string, disk: nat, dir: nat)
    ensures var p, tail := RamDiskDir(base, disk, dir), "ram" + Decimal(disk) + "/test" + Decimal(dir);
            |tail| <= |p| && p[|p| - |tail|..] == tail
  {
    RamDiskDirShape(base, disk, dir);
    SuffixOfAppend(JoinPrefix(base), "ram" + Decimal(disk) + "/test" + Decimal(dir));
  }

  lemma SuffixOfAppend(pre: string, tail: string)
    ensures |tail| <= |pre + tail| && (pre + tail)[|pre + tail| - |tail|..] == tail
  {
  }

  /** The pairs of one disk: `(disk, 0), ..., (disk, dirs - 1)`. */
  function Row(disk: nat, dirs: nat): (r: seq<(nat, nat)>)
    ensures |r| == dirs
    ensures forall k :: 0 <= k < dirs ==> r[k] == (disk, k)
  {
    if dirs == 0 then [] else Row(disk, dirs - 1) + [(disk, dirs - 1)]
  }

  /** The (disk, dir) pairs of `for disk in range(disks): for dir in range(dirs)`. */
  function DiskDirPairs(disks: nat, dirs: nat): (ps: seq<(nat, nat)>)
    ensures |ps| == disks * dirs
    ensures forall i :: 0 <= i < |ps| ==> ps[i].0 < disks && ps[i].1 < dirs
  {
    if disks == 0 then []
    else DiskDirPairs(disks - 1, dirs) + Row(disks - 1, dirs)
  }

  /** The position of pair `(d, k)` in a disk-major walk with `dirs` directories per disk. */
  function FlatIndex(d: nat, dirs: nat, k: nat): nat {
    MulLe(0, d, dirs);
    d * dirs + k
  }

  /** Pair `(d, k)` sits at flat index `d * dirs + k`. */
  lemma {:induction false} DiskDirPairsAt(disks: nat, dirs: nat, d: nat, k: nat)
    requires d < disks && k < dirs
    ensures FlatIndex(d, dirs, k) < disks * dirs
    ensures DiskDirPairs(disks, dirs)[FlatIndex(d, dirs, k)] == (d, k)
  {
    var prev := DiskDirPairs(disks - 1, dirs);
    assert |prev| == (disks - 1) * dirs;
    if d < disks - 1 {
      DiskDirPairsAt(disks - 1, dirs, d, k);
    } else {
      assert d * dirs == (disks - 1) * dirs;
    }
  }

  /**
   * One more step of the inner loop `for dir in range(dirs)` of disk `disk`
   * appends the pair `(disk, dir)`.
   */
  lemma PairsStep(disk: nat, dirs: nat, dir: nat)
    ensures DiskDirPairs(disk, dirs) + Row(disk, dir + 1) == DiskDirPairs(disk, dirs) + Row(disk, dir) + [(disk, dir)]
  {
    assert Row(disk, dir + 1) == Row(disk, dir) + [(disk, dir)];
  }
}
