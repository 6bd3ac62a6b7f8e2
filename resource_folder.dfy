/** The handlers `install_patches` installs (resource_folder.py:32-92): the
    resource manager's add and remove, the session-tracking list handler, and
    the subscribe and unsubscribe handlers, over the state they share. */
module ResourceFolder {
  import opened Types
  import opened Fanout

  /** The resource manager's map, the module-level `all_sessions` set and
      `subscribers` map, and the sends queued by the tasks the handlers start
      (one Notification per `asyncio.create_task(sess.send_...())`). */
  class Server {
    var resources: map<Uri, Resource>
    var allSessions: set<Session>
    var subscribers: map<Uri, set<Session>>
    var outbox: seq<Notification>

    /** The list handler that was installed before `_tracked_list` wrapped it,
        if there was one (resource_folder.py:69). It answers a request from the
        registry as it stands when the request arrives. */
    const origList: Option<(ListRequest, map<Uri, Resource>) -> ListResult>

    /** Every resource is stored under its own URI, and every list-changed
        notification ever queued went to a session that had made a list
        request (sessions are never dropped from `all_sessions`). */
    ghost predicate Valid()
      reads this
    {
      && (forall u :: u in resources ==> resources[u].uri == u)
      && (forall n :: n in outbox && n.event == ListChanged ==> n.to in allSessions)
    }

    /** The state right after `install_patches`: the resources registered so
        far, no tracked session, no subscriber, nothing queued. */
    constructor (initial: map<Uri, Resource>, origList: Option<(ListRequest, map<Uri, Resource>) -> ListResult>)
      requires forall u :: u in initial ==> initial[u].uri == u
      ensures Valid()
      ensures resources == initial && allSessions == {} && subscribers == map[] && outbox == []
      ensures this.origList == origList
    {
      resources := initial;
      allSessions := {};
      subscribers := map[];
      outbox := [];
      this.origList := origList;
    }

    /** One fire-and-forget send of `e` to each session of `to`. The
        list-changed broadcasts iterate over a copy of `all_sessions`
        (resource_folder.py:48-49, 64-65); the update fan-out iterates over the
        live subscriber set (resource_folder.py:119-120). No task runs while
        either loop does, so both queue one batch over a fixed set. */
    method Deliver(to: set<Session>, e: Event) returns (ghost sent: seq<Notification>)
      requires Valid()
      requires e == ListChanged ==> to <= allSessions
      modifies this
      ensures Valid()
      ensures resources == old(resources) && allSessions == old(allSessions) && subscribers == old(subscribers)
      ensures outbox == old(outbox) + sent && SentOnce(sent, to, e)
    {
      var pending := to;
      sent := [];
      while pending != {}
        invariant pending <= to
        invariant Valid()
        invariant resources == old(resources) && allSessions == old(allSessions) && subscribers == old(subscribers)
        invariant outbox == old(outbox) + sent
        invariant forall n {:trigger multiset(sent)[n]} ::
          multiset(sent)[n] == if n.event == e && n.to in to - pending then 1 else 0
        decreases pending
      {
        var s :| s in pending;
        outbox := outbox + [Notification(s, e)];
        sent := sent + [Notification(s, e)];
        pending := pending - {s};
      }
    }

    /** `remove_resource` (resource_folder.py:37-51): drop the URI's entry if
        there is one, broadcast list-changed to every tracked session whether
        or not there was, then drop the URI's subscriber entry. */
    method RemoveResource(uri: Uri) returns (ghost sent: seq<Notification>)
      requires Valid()
      modifies this
      ensures Valid()
      ensures resources == old(resources) - {uri}
      ensures uri !in old(resources) ==> resources == old(resources)
      ensures allSessions == old(allSessions)
      ensures subscribers == old(subscribers) - {uri}
      ensures outbox == old(outbox) + sent && SentOnce(sent, allSessions, ListChanged)
    {
      if uri in resources {
        resources := resources - {uri};
      }
      sent := Deliver(allSessions, ListChanged);
      subscribers := subscribers - {uri};
    }

    /** The patched `add_resource` (resource_folder.py:56-65): the library's
        own add, then a list-changed broadcast to every tracked session. What
        the library does with a URI already present is not part of this model:
        the entry afterwards is either the new resource or the old one, and no
        other entry changes. */
    method AddResource(r: Resource) returns (ghost sent: seq<Notification>)
      requires Valid()
      modifies this
      ensures Valid()
      ensures resources.Keys == old(resources).Keys + {r.uri}
      ensures resources[r.uri] == r || (r.uri in old(resources) && resources[r.uri] == old(resources)[r.uri])
      ensures forall u :: u in resources && u != r.uri ==> resources[u] == old(resources)[u]
      ensures allSessions == old(allSessions) && subscribers == old(subscribers)
      ensures outbox == old(outbox) + sent && SentOnce(sent, allSessions, ListChanged)
    {
      var replace: bool :| true;
      if replace || r.uri !in resources {
        resources := resources[r.uri := r];
      }
      sent := Deliver(allSessions, ListChanged);
    }

    /** `_tracked_list` (resource_folder.py:70-76): remember the caller for
        list-changed broadcasts, then answer with the original handler, or
        with an empty list when there was none. */
    method TrackedList(caller: Session, req: ListRequest) returns (result: ListResult)
      requires Valid()
      modifies this
      ensures Valid()
      ensures allSessions == old(allSessions) + {caller}
      ensures resources == old(resources) && subscribers == old(subscribers) && outbox == old(outbox)
      ensures origList.Some? ==> result == origList.value(req, resources)
      ensures origList.None? ==> result == ListResult([])
    {
      allSessions := allSessions + {caller};
      if origList.Some? {
        result := origList.value(req, resources);
      } else {
        result := ListResult([]);
      }
    }

    /** `_on_subscribe` (resource_folder.py:81-84): add the caller to the
        URI's subscriber set, creating the set if need be. */
    method OnSubscribe(uri: Uri, caller: Session)
      requires Valid()
      modifies this
      ensures Valid()
      ensures subscribers == WithSubscriber(old(subscribers), uri, caller)
      ensures resources == old(resources) && allSessions == old(allSessions) && outbox == old(outbox)
    {
      subscribers := WithSubscriber(subscribers, uri, caller);
    }

    /** `_on_unsubscribe` (resource_folder.py:88-91): discard the caller from
        the URI's subscriber set. Because `subscribers` is a defaultdict, the
        entry is created if it was missing and is kept even when it becomes
        empty; a caller that was not subscribed is no error. */
    method OnUnsubscribe(uri: Uri, caller: Session)
      requires Valid()
      modifies this
      ensures Valid()
      ensures subscribers == WithoutSubscriber(old(subscribers), uri, caller)
      ensures resources == old(resources) && allSessions == old(allSessions) && outbox == old(outbox)
    {
      subscribers := WithoutSubscriber(subscribers, uri, caller);
    }
  }

  /** `subscribers[key].add(sess)` on the defaultdict: the URI gets an entry
      holding the caller and whatever it held before; no other entry changes. */
  function WithSubscriber(subs: map<Uri, set<Session>>, uri: Uri, s: Session): (r: map<Uri, set<Session>>)
    ensures r.Keys == subs.Keys + {uri}
    ensures s in r[uri] && r[uri] - {s} == SubscribersOf(subs, uri) - {s}
    ensures forall u :: u in r && u != uri ==> r[u] == subs[u]
  {
    subs[uri := SubscribersOf(subs, uri) + {s}]
  }

  /** `subscribers[key].discard(sess)` on the defaultdict: the URI gets an
      entry, possibly empty, without the caller; no other entry changes. */
  function WithoutSubscriber(subs: map<Uri, set<Session>>, uri: Uri, s: Session): (r: map<Uri, set<Session>>)
    ensures r.Keys == subs.Keys + {uri}
    ensures s !in r[uri] && r[uri] + {s} == SubscribersOf(subs, uri) + {s}
    ensures forall u :: u in r && u != uri ==> r[u] == subs[u]
  {
    subs[uri := SubscribersOf(subs, uri) - {s}]
  }

  /** Subscribing twice is the same as subscribing once. */
  lemma SubscribeIdempotent(subs: map<Uri, set<Session>>, uri: Uri, s: Session)
    ensures WithSubscriber(WithSubscriber(subs, uri, s), uri, s) == WithSubscriber(subs, uri, s)
  {
  }

  /** Unsubscribing a session that is not subscribed changes no lookup
      `subscribers.get(key, [])` can make; it only leaves an entry behind. */
  lemma UnsubscribeAbsentInvisible(subs: map<Uri, set<Session>>, uri: Uri, s: Session, v: Uri)
    requires s !in SubscribersOf(subs, uri)
    ensures SubscribersOf(WithoutSubscriber(subs, uri, s), v) == SubscribersOf(subs, v)
  {
  }

  /** For a caller that was not subscribed before, unsubscribing right after
      subscribing gives back every lookup, with only a possibly empty entry
      left behind for the URI. */
  lemma UnsubscribeUndoesSubscribe(subs: map<Uri, set<Session>>, uri: Uri, s: Session, v: Uri)
    requires s !in SubscribersOf(subs, uri)
    ensures SubscribersOf(WithoutSubscriber(WithSubscriber(subs, uri, s), uri, s), v) == SubscribersOf(subs, v)
  {
  }

  /** What `subscribers.get(key, [])` sees after a subscribe: the caller
      joins that URI's set and every other lookup is as before. */
  lemma LookupAfterSubscribe(subs: map<Uri, set<Session>>, uri: Uri, s: Session, v: Uri)
    ensures SubscribersOf(WithSubscriber(subs, uri, s), v)
         == if v == uri then SubscribersOf(subs, uri) + {s} else SubscribersOf(subs, v)
  {
  }

  /** What `subscribers.get(key, [])` sees after an unsubscribe: the caller
      leaves that URI's set and every other lookup is as before. */
  lemma LookupAfterUnsubscribe(subs: map<Uri, set<Session>>, uri: Uri, s: Session, v: Uri)
    ensures SubscribersOf(WithoutSubscriber(subs, uri, s), v)
         == if v == uri then SubscribersOf(subs, uri) - {s} else SubscribersOf(subs, v)
  {
  }

  /** What `subscribers.get(key, [])` sees after `remove_resource` pops the
      URI's entry: nobody for that URI, every other lookup as before. */
  lemma LookupAfterRemove(subs: map<Uri, set<Session>>, uri: Uri, v: Uri)
    ensures SubscribersOf(subs - {uri}, v) == if v == uri then {} else SubscribersOf(subs, v)
  {
  }
}
