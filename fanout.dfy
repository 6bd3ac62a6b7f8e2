/** What a batch of queued sends contains, counted per notification.
    The source starts one task per recipient (resource_folder.py:48-49, 64-65,
    119-120); the model queues one Notification per task, in an order it does
    not fix, so batches are described by the multiset of what they hold. */
module Fanout {
  import opened Types

  /** `sent` holds exactly `k` notifications carrying `e` to each session of
      `to`, and nothing else. */
  ghost predicate SentTimes(sent: seq<Notification>, to: set<Session>, e: Event, k: nat) {
    forall n {:trigger multiset(sent)[n]} ::
      multiset(sent)[n] == if n.event == e && n.to in to then k else 0
  }

  /** One broadcast: exactly one notification carrying `e` per session of `to`. */
  ghost predicate SentOnce(sent: seq<Notification>, to: set<Session>, e: Event) {
    SentTimes(sent, to, e, 1)
  }

  /** The subscriber set of a URI as `subscribers.get(key, [])` reads it:
      empty when the URI has no entry (resource_folder.py:119). */
  function SubscribersOf(subs: map<Uri, set<Session>>, uri: Uri): (r: set<Session>)
  {
    if uri in subs then subs[uri] else {}
  }

  /** The URIs a set of paths maps to. The mapping need not be injective. */
  function UrisOf(paths: set<Path>, uriOf: Path -> Uri): (r: set<Uri>)
  {
    set p | p in paths :: uriOf(p)
  }

  /** The paths among `paths` that map to `u`. */
  function PathsWithUri(paths: set<Path>, uriOf: Path -> Uri, u: Uri): (r: set<Path>)
  {
    set p | p in paths && uriOf(p) == u
  }

  /** A broadcast reaches every recipient exactly once, so it has as many sends
      as there are recipients. */
  lemma {:induction false} SentOnceSize(sent: seq<Notification>, to: set<Session>, e: Event)
    requires SentOnce(sent, to, e)
    ensures |sent| == |to|
    decreases |sent|
  {
    if sent == [] {
      assert forall s :: s in to ==> multiset(sent)[Notification(s, e)] == 1;
      assert to == {};
    } else {
      var x := sent[|sent| - 1];
      var rest := sent[..|sent| - 1];
      assert sent == rest + [x];
      assert multiset(sent) == multiset(rest) + multiset{x};
      assert multiset(sent)[x] >= 1;
      assert x.event == e && x.to in to;
      assert x == Notification(x.to, e);
      forall n: Notification ensures multiset(rest)[n] == if n.event == e && n.to in to - {x.to} then 1 else 0 {
        assert multiset(sent)[n] == multiset(rest)[n] + if n == x then 1 else 0;
      }
      SentOnceSize(rest, to - {x.to}, e);
    }
  }

  /** Two broadcasts of `e` to the same sessions, one after the other, send `e`
      to each of them `k + 1` times. */
  lemma SentTimesAppend(a: seq<Notification>, b: seq<Notification>, to: set<Session>, e: Event, k: nat)
    requires SentTimes(a, to, e, k) && SentOnce(b, to, e)
    ensures SentTimes(a + b, to, e, k + 1)
  {
  }

  /** How many copies of `n` a poll cycle sends once it has handled the new
      paths `added`, the modified paths `modified` and the removed paths
      `removed`: every list-changed broadcast goes to the tracked sessions, and
      every modified path's update goes to the subscribers of its URI. */
  function PollCount(n: Notification, sessions: set<Session>, subs: map<Uri, set<Session>>,
                     uriOf: Path -> Uri, added: set<Path>, modified: set<Path>, removed: set<Path>): (k: nat)
  {
    match n.event
    case ListChanged => if n.to in sessions then |added| + |removed| else 0
    case Updated(u) => if n.to in SubscribersOf(subs, u) then |PathsWithUri(modified, uriOf, u)| else 0
  }

  /** `sent` holds exactly what a poll cycle sends for those paths. */
  ghost predicate PollSent(sent: seq<Notification>, sessions: set<Session>, subs: map<Uri, set<Session>>,
                           uriOf: Path -> Uri, added: set<Path>, modified: set<Path>, removed: set<Path>)
  {
    forall n {:trigger multiset(sent)[n]} ::
      multiset(sent)[n] == PollCount(n, sessions, subs, uriOf, added, modified, removed)
  }

  /** Subscription scoping: a poll cycle sends list-changed only to tracked
      sessions, and an update for a URI only to that URI's subscribers. */
  lemma PollSentScoped(sent: seq<Notification>, sessions: set<Session>, subs: map<Uri, set<Session>>,
                       uriOf: Path -> Uri, added: set<Path>, modified: set<Path>, removed: set<Path>)
    requires PollSent(sent, sessions, subs, uriOf, added, modified, removed)
    ensures forall n :: n in sent && n.event == ListChanged ==> n.to in sessions
    ensures forall n :: n in sent && n.event.Updated? ==> n.to in SubscribersOf(subs, n.event.uri)
  {
    forall n | n in sent
      ensures n.event == ListChanged ==> n.to in sessions
      ensures n.event.Updated? ==> n.to in SubscribersOf(subs, n.event.uri)
    {
      assert multiset(sent)[n] > 0;
    }
  }

  /** Handling one more new path adds one list-changed broadcast. */
  lemma PollSentAdded(sent: seq<Notification>, b: seq<Notification>, sessions: set<Session>,
                      subs: map<Uri, set<Session>>, uriOf: Path -> Uri,
                      added: set<Path>, modified: set<Path>, removed: set<Path>, f: Path)
    requires PollSent(sent, sessions, subs, uriOf, added, modified, removed)
    requires SentOnce(b, sessions, ListChanged) && f !in added
    ensures PollSent(sent + b, sessions, subs, uriOf, added + {f}, modified, removed)
  {
    assert |added + {f}| == |added| + 1;
    forall n: Notification ensures multiset(sent + b)[n] == PollCount(n, sessions, subs, uriOf, added + {f}, modified, removed) {
      assert multiset(sent + b) == multiset(sent) + multiset(b);
      assert multiset(sent)[n] == PollCount(n, sessions, subs, uriOf, added, modified, removed);
      assert multiset(b)[n] == if n.event == ListChanged && n.to in sessions then 1 else 0;
    }
  }

  /** The removals of a cycle come after its additions and updates: one
      list-changed broadcast per removed path follows what the first loop sent. */
  lemma PollSentConcat(s1: seq<Notification>, s2: seq<Notification>, sessions: set<Session>,
                       subs: map<Uri, set<Session>>, uriOf: Path -> Uri,
                       added: set<Path>, modified: set<Path>, removed: set<Path>)
    requires PollSent(s1, sessions, subs, uriOf, added, modified, {})
    requires SentTimes(s2, sessions, ListChanged, |removed|)
    ensures PollSent(s1 + s2, sessions, subs, uriOf, added, modified, removed)
  {
  }

  /** Handling one more modified path adds one update to each subscriber of its URI. */
  lemma PollSentModified(sent: seq<Notification>, b: seq<Notification>, sessions: set<Session>,
                         subs: map<Uri, set<Session>>, uriOf: Path -> Uri,
                         added: set<Path>, modified: set<Path>, removed: set<Path>, f: Path)
    requires PollSent(sent, sessions, subs, uriOf, added, modified, removed)
    requires SentOnce(b, SubscribersOf(subs, uriOf(f)), Updated(uriOf(f))) && f !in modified
    ensures PollSent(sent + b, sessions, subs, uriOf, added, modified + {f}, removed)
  {
    forall n: Notification ensures multiset(sent + b)[n] == PollCount(n, sessions, subs, uriOf, added, modified + {f}, removed) {
      assert multiset(sent + b) == multiset(sent) + multiset(b);
      assert multiset(sent)[n] == PollCount(n, sessions, subs, uriOf, added, modified, removed);
      assert multiset(b)[n] == if n.event == Updated(uriOf(f)) && n.to in SubscribersOf(subs, uriOf(f)) then 1 else 0;
      if n.event.Updated? {
        var u := n.event.uri;
        if uriOf(f) == u {
          assert PathsWithUri(modified + {f}, uriOf, u) == PathsWithUri(modified, uriOf, u) + {f};
        } else {
          assert PathsWithUri(modified + {f}, uriOf, u) == PathsWithUri(modified, uriOf, u);
        }
      }
    }
  }
}
