/** The per-cycle comparison the folder watcher makes between the previous
    snapshot {path: mtime} and the current one (resource_folder.py:108-122). */
module SnapshotDiff {
  import opened Types

  /** The watcher's record of the directory's files (`is_file()`: a regular file or a link to one) and their modification times. */
  type Snapshot = map<Path, Mtime>

  /** The classification of one poll cycle: paths that appeared, paths whose
      modification time changed, and paths that disappeared. */
  datatype Changes = Changes(added: set<Path>, modified: set<Path>, removed: set<Path>)
  {
    predicate IsEmpty() {
      added == {} && modified == {} && removed == {}
    }
  }

  /** A path present in both snapshots with the same modification time. */
  predicate Unchanged(last: Snapshot, current: Snapshot, p: Path) {
    p in last && p in current && last[p] == current[p]
  }

  /** New: in `current` but not in `last`. Modified: in both, with a different
      modification time. Removed: in `last` but not in `current`. */
  function Diff(last: Snapshot, current: Snapshot): (d: Changes)
    ensures d.added !! d.modified && d.added !! d.removed && d.modified !! d.removed
    ensures d.added + d.modified <= current.Keys
    ensures d.removed <= last.Keys
    ensures forall p :: Unchanged(last, current, p) ==> p !in d.added && p !in d.modified && p !in d.removed
  {
    Changes((set p | p in current && p !in last),
            (set p | p in current && p in last && last[p] != current[p]),
            last.Keys - current.Keys)
  }

  /** Every path of either snapshot falls into one of the three classes or is unchanged. */
  lemma DiffCovers(last: Snapshot, current: Snapshot, p: Path)
    requires p in last.Keys + current.Keys
    ensures var d := Diff(last, current);
      p in d.added || p in d.modified || p in d.removed || Unchanged(last, current, p)
  {
  }

  /** A cycle classifies nothing exactly when the directory did not change. */
  lemma DiffEmptyIff(last: Snapshot, current: Snapshot)
    ensures Diff(last, current).IsEmpty() <==> last == current
  {
  }

  /** Comparing the snapshots the other way round swaps new and removed and
      keeps the modified class. */
  lemma DiffReversed(last: Snapshot, current: Snapshot)
    ensures var d := Diff(last, current);
      Diff(current, last) == Changes(d.removed, d.modified, d.added)
  {
  }

  /** The new snapshot's paths are the old ones without the removed and with the new. */
  lemma DiffKeys(last: Snapshot, current: Snapshot)
    ensures var d := Diff(last, current);
      current.Keys == (last.Keys - d.removed) + d.added
  {
  }

  /** The number of files grows by the new ones and shrinks by the removed ones. */
  lemma DiffSizes(last: Snapshot, current: Snapshot)
    ensures var d := Diff(last, current);
      |current| + |d.removed| == |last| + |d.added|
  {
    var d := Diff(last, current);
    assert d.added == current.Keys - last.Keys;
    SwapSizes(last.Keys, current.Keys);
    assert |current| == |current.Keys| && |last| == |last.Keys|;
  }

  lemma SwapSizes<T>(a: set<T>, b: set<T>)
    ensures |b| + |a - b| == |a| + |b - a|
  {
  }
}
