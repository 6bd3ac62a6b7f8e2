/** The folder watcher `setup_watcher` installs (resource_folder.py:94-139):
    the startup registration of the files already present, and one cycle of
    the `watch_resources` polling loop. Directory reads, `stat` and the sleep
    are outside the model: a listing or a snapshot is an input. The URI
    `file://{f.resolve()}` is computed twice per path, and `resolve` follows
    symlinks only while they exist: the watcher's `uriOf` is the URI of a path
    that is present (for adds and updates), its `goneUriOf` the URI of a path
    that has been deleted (for removals). Neither is assumed injective, and
    the two differ for a deleted symlink, which resolves to its own location. */
module FolderWatcher {
  import opened Types
  import opened SnapshotDiff
  import opened Fanout
  import opened ResourceFolder

  /** One registry call or update fan-out a cycle makes, and for which path. */
  datatype Call = AddCall(path: Path) | UpdateCall(path: Path) | RemoveCall(path: Path)

  function CallCount(c: Call, added: set<Path>, modified: set<Path>, removed: set<Path>): (k: nat)
  {
    match c
    case AddCall(p) => if p in added then 1 else 0
    case UpdateCall(p) => if p in modified then 1 else 0
    case RemoveCall(p) => if p in removed then 1 else 0
  }

  /** `calls` adds each path of `added` once, fans out an update for each path
      of `modified` once, removes each path of `removed` once, and does
      nothing else. */
  ghost predicate EachOnce(calls: seq<Call>, added: set<Path>, modified: set<Path>, removed: set<Path>) {
    forall c {:trigger multiset(calls)[c]} :: multiset(calls)[c] == CallCount(c, added, modified, removed)
  }

  /** Every removal comes after every addition and update (the deletions loop
      runs after the loop over the current files). */
  ghost predicate RemovalsLast(calls: seq<Call>) {
    forall i, j :: 0 <= i < j < |calls| && calls[i].RemoveCall? ==> calls[j].RemoveCall?
  }

  /** `r` is the resource the watcher builds for one of the paths `files`. */
  ghost predicate FromFile(r: Resource, files: set<Path>, uriOf: Path -> Uri) {
    r.provider.ReadText? && r.provider.path in files && r == FileResource(r.provider.path, uriOf(r.provider.path))
  }

  /** The registry's URIs after a cycle: the new files' URIs (resolved while
      present) are added first, then the removed files' URIs (resolved once
      gone) are deleted. */
  function KeysAfterPoll(keys: set<Uri>, d: Changes, uriOf: Path -> Uri, goneUriOf: Path -> Uri): (r: set<Uri>)
    ensures UrisOf(d.added, uriOf) - UrisOf(d.removed, goneUriOf) <= r <= keys + UrisOf(d.added, uriOf)
    ensures r !! UrisOf(d.removed, goneUriOf)
  {
    (keys + UrisOf(d.added, uriOf)) - UrisOf(d.removed, goneUriOf)
  }

  predicate InjectiveOn(uriOf: Path -> Uri, paths: set<Path>) {
    forall p, q :: p in paths && q in paths && uriOf(p) == uriOf(q) ==> p == q
  }

  /** When no two files of the two snapshots share a URI, every file of the
      previous snapshot was registered, and each deleted path resolves once
      gone to the URI it had while present (a regular file, not a symlink), a
      cycle leaves a file's URI registered exactly when the file is in the
      current snapshot. */
  lemma PollTracksDirectory(keys: set<Uri>, last: Snapshot, current: Snapshot,
                            uriOf: Path -> Uri, goneUriOf: Path -> Uri)
    requires InjectiveOn(uriOf, last.Keys + current.Keys)
    requires UrisOf(last.Keys, uriOf) <= keys
    requires forall p :: p in last && p !in current ==> goneUriOf(p) == uriOf(p)
    ensures forall p :: p in last.Keys + current.Keys ==>
      (uriOf(p) in KeysAfterPoll(keys, Diff(last, current), uriOf, goneUriOf) <==> p in current)
  {
    var d := Diff(last, current);
    forall p | p in last.Keys + current.Keys
      ensures uriOf(p) in KeysAfterPoll(keys, d, uriOf, goneUriOf) <==> p in current
    {
      if p in current {
        if p in last {
          assert uriOf(p) in keys;
        } else {
          assert p in d.added;
        }
        forall q | q in d.removed ensures goneUriOf(q) != uriOf(p) {
          assert q != p;
        }
      } else {
        assert p in d.removed;
      }
    }
  }

  /** Deleting a symlink `alias` to a file `target` that stays leaves the
      target registered: once gone, the alias resolves to its own location,
      not to the target's URI it was added under. */
  lemma DeletedAliasKeepsTarget(target: Path, alias: Path, t: Mtime, uriOf: Path -> Uri, goneUriOf: Path -> Uri)
    requires target != alias && uriOf(alias) == uriOf(target) && goneUriOf(alias) != uriOf(target)
    ensures var last := map[target := t, alias := t];
      var current := map[target := t];
      uriOf(target) in KeysAfterPoll(UrisOf(last.Keys, uriOf), Diff(last, current), uriOf, goneUriOf)
  {
    var last := map[target := t, alias := t];
    var current := map[target := t];
    assert Diff(last, current).removed == {alias};
    assert uriOf(target) in UrisOf(last.Keys, uriOf);
  }

  /** Deleting a symlink whose target lies outside the directory leaves the
      target's URI registered, with its subscriber entry, although no file of
      the directory maps to it any more. */
  lemma DeletedLinkLeavesStaleUri(link: Path, t: Mtime, uriOf: Path -> Uri, goneUriOf: Path -> Uri,
                                  subs: map<Uri, set<Session>>)
    requires goneUriOf(link) != uriOf(link)
    ensures var last: Snapshot := map[link := t];
      var current: Snapshot := map[];
      var d := Diff(last, current);
      && uriOf(link) in KeysAfterPoll(UrisOf(last.Keys, uriOf), d, uriOf, goneUriOf)
      && UrisOf(current.Keys, uriOf) == {}
      && (uriOf(link) in subs ==> SubscribersOf(subs - UrisOf(d.removed, goneUriOf), uriOf(link)) == subs[uriOf(link)])
  {
    var last: Snapshot := map[link := t];
    var current: Snapshot := map[];
    assert Diff(last, current).removed == {link};
    assert uriOf(link) in UrisOf(last.Keys, uriOf);
  }

  /** The files of a directory listing, in listing order (`iterdir` filtered
      by `is_file`). Each path occurs as often as the listing has it as a file. */
  function FilesIn(listing: seq<DirEntry>): (files: seq<Path>)
    ensures forall p {:trigger multiset(files)[p]} :: multiset(files)[p] == multiset(listing)[DirEntry(p, true)]
  {
    if listing == [] then []
    else
      var e := listing[|listing| - 1];
      var rest := listing[..|listing| - 1];
      assert listing == rest + [e];
      FilesIn(rest) + (if e.isFile then [e.path] else [])
  }

  function PathSet(paths: seq<Path>): (r: set<Path>)
  {
    set p | p in paths
  }

  /** The state of `watch_resources` between two cycles: its last snapshot. */
  class Watcher {
    const server: Server
    const uriOf: Path -> Uri
    const goneUriOf: Path -> Uri
    var lastSnap: Snapshot

    /** The watcher task starts from its own first read of the directory
        (resource_folder.py:102-103). */
    constructor (server: Server, uriOf: Path -> Uri, goneUriOf: Path -> Uri, first: Snapshot)
      ensures this.server == server && this.uriOf == uriOf && this.goneUriOf == goneUriOf && lastSnap == first
    {
      this.server := server;
      this.uriOf := uriOf;
      this.goneUriOf := goneUriOf;
      lastSnap := first;
    }

    /** One cycle of `watch_resources` (resource_folder.py:106-126): add every
        new file, fan out an update to the subscribers of every modified
        file's URI, remove every deleted file, and keep `current` as the next
        snapshot. The ghost `calls` records which path caused which call. */
    method Poll(current: Snapshot) returns (ghost calls: seq<Call>)
      requires server.Valid()
      modifies this, server
      ensures server.Valid()
      ensures lastSnap == current
      ensures var d := Diff(old(lastSnap), current);
        && EachOnce(calls, d.added, d.modified, d.removed) && RemovalsLast(calls)
        && RegistryAfterPoll(server.resources, old(server.resources), d, uriOf, goneUriOf)
        && server.subscribers == old(server.subscribers) - UrisOf(d.removed, goneUriOf)
      ensures server.allSessions == old(server.allSessions)
      ensures old(server.outbox) <= server.outbox
      ensures var d := Diff(old(lastSnap), current);
        PollSent(server.outbox[|old(server.outbox)|..], server.allSessions, old(server.subscribers), uriOf,
                 d.added, d.modified, d.removed)
    {
      ghost var d := Diff(lastSnap, current);
      ghost var r0, subs0, out0 := server.resources, server.subscribers, server.outbox;
      var c1, s1 := HandleCurrent(current);
      ghost var r1 := server.resources;
      var c2, s2 := HandleDeleted(current);
      PollCombine(c1, c2, s1, s2, r0, r1, server.resources, server.allSessions, subs0, d, uriOf, goneUriOf);
      calls := c1 + c2;
      ConcatAssoc(out0, s1, s2);
      assert server.outbox[|out0|..] == s1 + s2;
      lastSnap := current;
    }

    /** The loop over the current snapshot (resource_folder.py:108-120): a
        path missing from the last snapshot is added to the registry, a path
        whose modification time changed has an update sent to each subscriber
        of its URI, looked up without creating an entry. */
    method HandleCurrent(current: Snapshot) returns (ghost calls: seq<Call>, ghost sent: seq<Notification>)
      requires server.Valid()
      modifies server
      ensures server.Valid()
      ensures server.allSessions == old(server.allSessions) && server.subscribers == old(server.subscribers)
      ensures server.outbox == old(server.outbox) + sent
      ensures var d := Diff(lastSnap, current);
        CurrentSoFar(server.resources, sent, calls, old(server.resources), server.allSessions, server.subscribers,
                     uriOf, d.added, d.modified)
    {
      ghost var d := Diff(lastSnap, current);
      ghost var r0, out0 := server.resources, server.outbox;
      ghost var added: set<Path>, modified: set<Path> := {}, {};
      sent := [];
      calls := [];
      CurrentNothing(r0, server.allSessions, server.subscribers, uriOf);
      var todo := current.Keys;
      while todo != {}
        invariant todo <= current.Keys
        invariant added == d.added - todo && modified == d.modified - todo
        invariant server.Valid()
        invariant server.allSessions == old(server.allSessions) && server.subscribers == old(server.subscribers)
        invariant server.outbox == out0 + sent
        invariant CurrentSoFar(server.resources, sent, calls, r0, server.allSessions, server.subscribers,
                               uriOf, added, modified)
        decreases todo
      {
        var f :| f in todo;
        var mtime := current[f];
        var uri := uriOf(f);
        ClassifyStep(lastSnap, current, todo, f);
        ghost var r := server.resources;
        ghost var b: seq<Notification> := [];
        if f !in lastSnap {
          b := server.AddResource(FileResource(f, uri));
          CurrentAdded(server.resources, r, sent, b, calls, r0, server.allSessions, server.subscribers,
                       uriOf, added, modified, f);
          calls := calls + [AddCall(f)];
          added := added + {f};
        } else if lastSnap[f] != mtime {
          b := server.Deliver(SubscribersOf(server.subscribers, uri), Updated(uri));
          CurrentModified(server.resources, sent, b, calls, r0, server.allSessions, server.subscribers,
                          uriOf, added, modified, f);
          calls := calls + [UpdateCall(f)];
          modified := modified + {f};
        }
        ConcatAssoc(out0, sent, b);
        sent := sent + b;
        todo := todo - {f};
      }
      assert added == d.added && modified == d.modified;
    }

    /** The loop over the paths of the last snapshot that are gone
        (resource_folder.py:122-125): each one's URI is removed from the
        registry, which broadcasts list-changed and drops its subscribers. */
    method HandleDeleted(current: Snapshot) returns (ghost calls: seq<Call>, ghost sent: seq<Notification>)
      requires server.Valid()
      modifies server
      ensures server.Valid()
      ensures server.allSessions == old(server.allSessions)
      ensures server.outbox == old(server.outbox) + sent
      ensures DeletedSoFar(server.resources, server.subscribers, sent, calls, old(server.resources),
                           old(server.subscribers), server.allSessions, Diff(lastSnap, current).removed, goneUriOf)
    {
      ghost var removed := Diff(lastSnap, current).removed;
      ghost var res0, subs0, out0 := server.resources, server.subscribers, server.outbox;
      ghost var done: set<Path> := {};
      ghost var sessions := server.allSessions;
      sent := [];
      calls := [];
      DeletedNothing(res0, subs0, server.allSessions, goneUriOf);
      var gone := lastSnap.Keys - current.Keys;
      while gone != {}
        invariant gone <= removed && done == removed - gone
        invariant server.Valid()
        invariant server.allSessions == sessions
        invariant server.outbox == out0 + sent
        invariant DeletedSoFar(server.resources, server.subscribers, sent, calls, res0, subs0,
                               sessions, done, goneUriOf)
        decreases gone
      {
        var f :| f in gone;
        TakeStep(removed, gone, f);
        ghost var r, subs := server.resources, server.subscribers;
        var b := server.RemoveResource(goneUriOf(f));
        DeletedStep(server.resources, r, server.subscribers, subs, sent, b, calls, res0, subs0,
                    sessions, done, f, goneUriOf);
        ConcatAssoc(out0, sent, b);
        calls := calls + [RemoveCall(f)];
        sent := sent + b;
        done := done + {f};
        gone := gone - {f};
      }
      assert done == removed;
    }
  }

  /** The registry after a cycle: exactly `KeysAfterPoll` as keys, an entry
      under a URI no new file maps to is the old one, and an entry under a new
      file's URI is the old one or one built for a new file. */
  ghost predicate RegistryAfterPoll(after: map<Uri, Resource>, before: map<Uri, Resource>, d: Changes,
                                    uriOf: Path -> Uri, goneUriOf: Path -> Uri) {
    && after.Keys == KeysAfterPoll(before.Keys, d, uriOf, goneUriOf)
    && (forall u :: u in after && u !in UrisOf(d.added, uriOf) ==> u in before && after[u] == before[u])
    && (forall u :: u in after ==> (u in before && after[u] == before[u]) || FromFile(after[u], d.added, uriOf))
  }

  /** Handling one more path of the current snapshot moves it into the class
      `Diff` puts it in, or into none when it is unchanged. */
  lemma ClassifyStep(last: Snapshot, current: Snapshot, todo: set<Path>, f: Path)
    requires f in todo && todo <= current.Keys
    ensures var d, rest := Diff(last, current), todo - {f};
      && (f !in last ==> d.added - rest == (d.added - todo) + {f} && d.modified - rest == d.modified - todo)
      && (f in last && last[f] != current[f] ==>
            d.added - rest == d.added - todo && d.modified - rest == (d.modified - todo) + {f})
      && (f in last && last[f] == current[f] ==>
            d.added - rest == d.added - todo && d.modified - rest == d.modified - todo)
  {
  }

  /** What the loop over the current snapshot has done once it has handled
      the new paths `added` and the modified paths `modified`. */
  ghost predicate CurrentSoFar(res: map<Uri, Resource>, sent: seq<Notification>, calls: seq<Call>,
                               res0: map<Uri, Resource>, sessions: set<Session>, subs: map<Uri, set<Session>>,
                               uriOf: Path -> Uri, added: set<Path>, modified: set<Path>)
  {
    && PollSent(sent, sessions, subs, uriOf, added, modified, {})
    && EachOnce(calls, added, modified, {})
    && AddedFiles(res, res0, added, uriOf)
  }

  lemma CurrentNothing(res0: map<Uri, Resource>, sessions: set<Session>, subs: map<Uri, set<Session>>, uriOf: Path -> Uri)
    ensures CurrentSoFar(res0, [], [], res0, sessions, subs, uriOf, {}, {})
  {
  }

  lemma CurrentAdded(res: map<Uri, Resource>, mid: map<Uri, Resource>, sent: seq<Notification>, b: seq<Notification>,
                     calls: seq<Call>, res0: map<Uri, Resource>, sessions: set<Session>, subs: map<Uri, set<Session>>,
                     uriOf: Path -> Uri, added: set<Path>, modified: set<Path>, f: Path)
    requires CurrentSoFar(mid, sent, calls, res0, sessions, subs, uriOf, added, modified) && f !in added
    requires res.Keys == mid.Keys + {uriOf(f)}
    requires res[uriOf(f)] == FileResource(f, uriOf(f)) || (uriOf(f) in mid && res[uriOf(f)] == mid[uriOf(f)])
    requires forall u :: u in res && u != uriOf(f) ==> res[u] == mid[u]
    requires SentOnce(b, sessions, ListChanged)
    ensures CurrentSoFar(res, sent + b, calls + [AddCall(f)], res0, sessions, subs, uriOf, added + {f}, modified)
  {
    PollSentAdded(sent, b, sessions, subs, uriOf, added, modified, {}, f);
    StepAdded(calls, added, modified, {}, f);
    AddedFilesStep(res, mid, res0, added, f, uriOf);
  }

  lemma CurrentModified(res: map<Uri, Resource>, sent: seq<Notification>, b: seq<Notification>,
                        calls: seq<Call>, res0: map<Uri, Resource>, sessions: set<Session>, subs: map<Uri, set<Session>>,
                        uriOf: Path -> Uri, added: set<Path>, modified: set<Path>, f: Path)
    requires CurrentSoFar(res, sent, calls, res0, sessions, subs, uriOf, added, modified) && f !in modified
    requires SentOnce(b, SubscribersOf(subs, uriOf(f)), Updated(uriOf(f)))
    ensures CurrentSoFar(res, sent + b, calls + [UpdateCall(f)], res0, sessions, subs, uriOf, added, modified + {f})
  {
    PollSentModified(sent, b, sessions, subs, uriOf, added, modified, {}, f);
    StepModified(calls, added, modified, {}, f);
  }

  /** Taking one more path out of the ones left to handle. */
  lemma TakeStep(all: set<Path>, todo: set<Path>, f: Path)
    requires f in todo && todo <= all
    ensures f !in all - todo && all - (todo - {f}) == (all - todo) + {f}
  {
  }

  /** What the loop over the deleted paths has done once it has handled `done`. */
  ghost predicate DeletedSoFar(res: map<Uri, Resource>, subs: map<Uri, set<Session>>, sent: seq<Notification>,
                               calls: seq<Call>, res0: map<Uri, Resource>, subs0: map<Uri, set<Session>>,
                               sessions: set<Session>, done: set<Path>, uriOf: Path -> Uri)
  {
    && res == res0 - UrisOf(done, uriOf)
    && subs == subs0 - UrisOf(done, uriOf)
    && SentTimes(sent, sessions, ListChanged, |done|)
    && EachOnce(calls, {}, {}, done)
  }

  lemma DeletedNothing(res0: map<Uri, Resource>, subs0: map<Uri, set<Session>>, sessions: set<Session>, uriOf: Path -> Uri)
    ensures DeletedSoFar(res0, subs0, [], [], res0, subs0, sessions, {}, uriOf)
  {
  }

  lemma DeletedStep(res: map<Uri, Resource>, mid: map<Uri, Resource>, subs: map<Uri, set<Session>>,
                    subsMid: map<Uri, set<Session>>, sent: seq<Notification>, b: seq<Notification>, calls: seq<Call>,
                    res0: map<Uri, Resource>, subs0: map<Uri, set<Session>>, sessions: set<Session>,
                    done: set<Path>, f: Path, uriOf: Path -> Uri)
    requires DeletedSoFar(mid, subsMid, sent, calls, res0, subs0, sessions, done, uriOf) && f !in done
    requires res == mid - {uriOf(f)} && subs == subsMid - {uriOf(f)}
    requires SentOnce(b, sessions, ListChanged)
    ensures DeletedSoFar(res, subs, sent + b, calls + [RemoveCall(f)], res0, subs0, sessions, done + {f}, uriOf)
  {
    assert |done + {f}| == |done| + 1;
    SentTimesAppend(sent, b, sessions, ListChanged, |done|);
    StepRemoved(calls, {}, {}, done, f);
    UrisOfInsert(done, f, uriOf);
    MinusStep(res0, UrisOf(done, uriOf), uriOf(f));
    MinusStep(subs0, UrisOf(done, uriOf), uriOf(f));
  }

  /** The two loops of a cycle together: additions and updates first, then
      removals, give the cycle's calls, registry and sends. */
  lemma PollCombine(c1: seq<Call>, c2: seq<Call>, s1: seq<Notification>, s2: seq<Notification>,
                    r0: map<Uri, Resource>, r1: map<Uri, Resource>, r2: map<Uri, Resource>,
                    sessions: set<Session>, subs0: map<Uri, set<Session>>, d: Changes,
                    uriOf: Path -> Uri, goneUriOf: Path -> Uri)
    requires CurrentSoFar(r1, s1, c1, r0, sessions, subs0, uriOf, d.added, d.modified)
    requires DeletedSoFar(r2, subs0 - UrisOf(d.removed, goneUriOf), s2, c2, r1, subs0, sessions, d.removed, goneUriOf)
    ensures EachOnce(c1 + c2, d.added, d.modified, d.removed) && RemovalsLast(c1 + c2)
    ensures RegistryAfterPoll(r2, r0, d, uriOf, goneUriOf)
    ensures PollSent(s1 + s2, sessions, subs0, uriOf, d.added, d.modified, d.removed)
  {
    EachOnceConcat(c1, c2, d.added, d.modified, d.removed);
    RemovalsAfter(c1, c2, d.added, d.modified, d.removed);
    PollSentConcat(s1, s2, sessions, subs0, uriOf, d.added, d.modified, d.removed);
  }

  ghost predicate AddedFiles(after: map<Uri, Resource>, before: map<Uri, Resource>, added: set<Path>, uriOf: Path -> Uri) {
    && after.Keys == before.Keys + UrisOf(added, uriOf)
    && (forall u :: u in after && u !in UrisOf(added, uriOf) ==> u in before && after[u] == before[u])
    && (forall u :: u in after ==> (u in before && after[u] == before[u]) || FromFile(after[u], added, uriOf))
  }

  lemma AddedFilesStep(after: map<Uri, Resource>, mid: map<Uri, Resource>, before: map<Uri, Resource>,
                       added: set<Path>, f: Path, uriOf: Path -> Uri)
    requires AddedFiles(mid, before, added, uriOf)
    requires after.Keys == mid.Keys + {uriOf(f)}
    requires after[uriOf(f)] == FileResource(f, uriOf(f)) || (uriOf(f) in mid && after[uriOf(f)] == mid[uriOf(f)])
    requires forall u :: u in after && u != uriOf(f) ==> after[u] == mid[u]
    ensures AddedFiles(after, before, added + {f}, uriOf)
  {
    UrisOfInsert(added, f, uriOf);
  }

  lemma ConcatAssoc<T>(a: seq<T>, b: seq<T>, c: seq<T>)
    ensures (a + b) + c == a + (b + c)
  {
  }

  /** The first loop makes no removal and the second makes nothing else. */
  lemma RemovalsAfter(c1: seq<Call>, c2: seq<Call>, added: set<Path>, modified: set<Path>, removed: set<Path>)
    requires EachOnce(c1, added, modified, {}) && EachOnce(c2, {}, {}, removed)
    ensures RemovalsLast(c1 + c2)
  {
    forall i | 0 <= i < |c1| ensures !c1[i].RemoveCall? {
      assert multiset(c1)[c1[i]] > 0;
    }
    forall j | 0 <= j < |c2| ensures c2[j].RemoveCall? {
      assert multiset(c2)[c2[j]] > 0;
    }
  }

  /** Gluing the two loops of a cycle: additions and updates, then removals. */
  lemma EachOnceConcat(c1: seq<Call>, c2: seq<Call>, added: set<Path>, modified: set<Path>, removed: set<Path>)
    requires EachOnce(c1, added, modified, {}) && EachOnce(c2, {}, {}, removed)
    ensures EachOnce(c1 + c2, added, modified, removed)
  {
  }

  lemma StepAdded(calls: seq<Call>, added: set<Path>, modified: set<Path>, removed: set<Path>, f: Path)
    requires EachOnce(calls, added, modified, removed) && f !in added
    ensures EachOnce(calls + [AddCall(f)], added + {f}, modified, removed)
  {
    assert multiset(calls + [AddCall(f)]) == multiset(calls) + multiset{AddCall(f)};
  }

  lemma StepModified(calls: seq<Call>, added: set<Path>, modified: set<Path>, removed: set<Path>, f: Path)
    requires EachOnce(calls, added, modified, removed) && f !in modified
    ensures EachOnce(calls + [UpdateCall(f)], added, modified + {f}, removed)
  {
  }

  lemma StepRemoved(calls: seq<Call>, added: set<Path>, modified: set<Path>, removed: set<Path>, f: Path)
    requires EachOnce(calls, added, modified, removed) && f !in removed
    ensures EachOnce(calls + [RemoveCall(f)], added, modified, removed + {f})
  {
    assert multiset(calls + [RemoveCall(f)]) == multiset(calls) + multiset{RemoveCall(f)};
  }

  lemma MinusStep<V>(m: map<Uri, V>, gone: set<Uri>, u: Uri)
    ensures (m - gone) - {u} == m - (gone + {u})
  {
  }

  lemma UrisOfInsert(paths: set<Path>, f: Path, uriOf: Path -> Uri)
    ensures UrisOf(paths + {f}, uriOf) == UrisOf(paths, uriOf) + {uriOf(f)}
  {
  }

  /** `_start_watcher` (resource_folder.py:129-139): register every file of
      the startup listing through the patched `add_resource`, in listing
      order, and only then start the watcher task from its own first
      snapshot. The ghost `registered` records the path of each add. */
  method StartWatcher(server: Server, uriOf: Path -> Uri, goneUriOf: Path -> Uri, listing: seq<DirEntry>, first: Snapshot)
    returns (w: Watcher, ghost registered: seq<Path>)
    requires server.Valid()
    modifies server
    ensures server.Valid()
    ensures registered == FilesIn(listing)
    ensures server.resources.Keys == old(server.resources).Keys + UrisOf(PathSet(registered), uriOf)
    ensures forall u :: u in server.resources ==>
      (u in old(server.resources) && server.resources[u] == old(server.resources)[u]) ||
      FromFile(server.resources[u], PathSet(registered), uriOf)
    ensures server.allSessions == old(server.allSessions) && server.subscribers == old(server.subscribers)
    ensures old(server.outbox) <= server.outbox
    ensures SentTimes(server.outbox[|old(server.outbox)|..], server.allSessions, ListChanged, |registered|)
    ensures fresh(w) && w.server == server && w.uriOf == uriOf && w.goneUriOf == goneUriOf && w.lastSnap == first
  {
    registered := [];
    ghost var out0, sessions := server.outbox, server.allSessions;
    ghost var sent: seq<Notification> := [];
    for i := 0 to |listing|
      invariant server.Valid()
      invariant registered == FilesIn(listing[..i])
      invariant server.allSessions == sessions && server.subscribers == old(server.subscribers)
      invariant server.outbox == out0 + sent
      invariant SentTimes(sent, sessions, ListChanged, |registered|)
      invariant server.resources.Keys == old(server.resources).Keys + UrisOf(PathSet(registered), uriOf)
      invariant forall u :: u in server.resources ==>
        (u in old(server.resources) && server.resources[u] == old(server.resources)[u]) ||
        FromFile(server.resources[u], PathSet(registered), uriOf)
    {
      var e := listing[i];
      assert listing[..i + 1] == listing[..i] + [e];
      assert listing[..i + 1][..i] == listing[..i];
      if e.isFile {
        var b := server.AddResource(FileResource(e.path, uriOf(e.path)));
        SentTimesAppend(sent, b, sessions, ListChanged, |registered|);
        UrisOfInsert(PathSet(registered), e.path, uriOf);
        assert (PathSet(registered + [e.path])) == PathSet(registered) + {e.path};
        ConcatAssoc(out0, sent, b);
        sent := sent + b;
        registered := registered + [e.path];
      }
    }
    assert listing[..|listing|] == listing;
    assert server.outbox[|old(server.outbox)|..] == sent;
    w := new Watcher(server, uriOf, goneUriOf, first);
  }
}
