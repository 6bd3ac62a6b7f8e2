# Folder resources with list-changed and updated notifications

A model of `resource_folder.py` from an MCP demo server. The file patches
the MCP `ResourceManager` class in two ways:

- it adds a `remove_resource`;
- it makes `add_resource` broadcast `notifications/resources/list_changed` to
  every session that has listed resources.

It also installs three request handlers on the low-level MCP server:

- a list handler that wraps the original one and records the calling session;
- `resources/subscribe` and `resources/unsubscribe` handlers that keep a
  per-URI subscriber map.

A folder watcher registers the files of a directory at startup. It then polls
the directory. Each cycle adds new files, sends
`notifications/resources/updated` to the subscribers of modified files, and
removes deleted files.

The model has five modules:

- `Types`: sessions, URIs and paths are abstract values that are only
  compared. Also the resource, notification and directory-entry values.
- `SnapshotDiff`: the pure comparison of two `{path: mtime}` snapshots.
- `Fanout`: what a batch of queued sends contains, counted per notification.
  The source starts one `asyncio` task per recipient. The model queues one
  `Notification` per task, in no fixed order.
- `ResourceFolder`: the `Server` class holds the state the handlers share.
  - `resources`: the manager's map from URI to resource.
  - `allSessions`: the module-level `all_sessions` set.
  - `subscribers`: the module-level defaultdict from URI to sessions.
  - `outbox`: the sends queued so far.
- `FolderWatcher`: the `Watcher` class (its last snapshot), one polling
  cycle, and the startup registration.

The filesystem is not modelled. A directory listing or a snapshot is an
input. The watcher computes a path's URI as `file://{f.resolve()}`, and
`resolve` follows a symlink only while the link exists. The model therefore
has two mappings, both parameters of the watcher:

- `uriOf` gives the URI of a path that is present. Startup registration, adds
  and update lookups use it.
- `goneUriOf` gives the URI of a path that has been deleted. Removals use it.

Neither mapping is assumed to be injective: a file and a symlink to it share
a URI while both exist. For a regular file the two agree. For a deleted
symlink they differ, because the link resolves to its own location. So
deleting a symlink never unregisters its target. If the target lies outside
the directory, its URI stays registered, with its subscribers, after the link
is gone (`DeletedLinkLeavesStaleUri`).

The library's own `add_resource` is outside the model. What it does when the
URI is already registered is left open: afterwards the entry holds either the
new resource or the old one.

Two behaviours of the code are worth knowing:

- `remove_resource` (resource_folder.py:37-51) broadcasts list-changed to
  every tracked session even when the URI was not registered, so a no-op
  removal is not silent. It also pops the subscriber entry unconditionally.
- `_on_unsubscribe` indexes the defaultdict, so it creates an empty entry for
  a URI nobody subscribed to and keeps entries that become empty.

## Model

| member | source | states |
|---|---|---|
| SnapshotDiff.Diff | resource_folder.py:106-122 | the new, modified and removed paths are pairwise disjoint; new and modified paths are in the current snapshot; removed paths are in the last one; and a path present in both with the same mtime is in no class |
| SnapshotDiff.DiffCovers | resource_folder.py:108-122 | every path of either snapshot is new, modified, removed or unchanged |
| SnapshotDiff.DiffEmptyIff | resource_folder.py:108-122 | a cycle finds nothing to do exactly when the two snapshots are equal |
| SnapshotDiff.DiffReversed | resource_folder.py:108-122 | comparing the snapshots the other way round swaps new with removed and keeps modified |
| SnapshotDiff.DiffKeys | resource_folder.py:108-126 | the next snapshot's paths are the last ones minus the removed plus the new |
| SnapshotDiff.DiffSizes | resource_folder.py:108-126 | the file count changes by the number of new files minus the number of removed files |
| Fanout.SentOnceSize | resource_folder.py:48-49 | a broadcast that reaches each recipient exactly once has one send per recipient |
| Fanout.PollSentScoped | resource_folder.py:119-120 | what a cycle sends reaches only tracked sessions with list-changed, and only the subscribers of a URI with an update for that URI |
| ResourceFolder.Server.constructor | resource_folder.py:28-30 | after installation no session is tracked, nobody subscribes and nothing is queued |
| ResourceFolder.Server.Deliver | resource_folder.py:48-49 | iterating over a copy of the recipients queues exactly one send of the event per recipient and changes nothing else |
| ResourceFolder.Server.RemoveResource | resource_folder.py:37-51 | the URI's entry is dropped and no other entry changes; the map is unchanged when the URI was absent; one list-changed goes to every tracked session even then; the URI's subscriber entry is popped; the registry invariant is kept |
| ResourceFolder.Server.AddResource | resource_folder.py:55-65 | the URI is registered and holds the new or the old resource; no other entry changes; one list-changed goes to every tracked session and to nobody else |
| ResourceFolder.Server.TrackedList | resource_folder.py:69-77 | the caller joins the tracked sessions and nothing else changes; the caller gets the original handler's answer for the request over the current registry, or an empty list when there was no handler |
| ResourceFolder.LookupAfterSubscribe | resource_folder.py:84 | after a subscribe, the `.get` lookup (line 119) of that URI yields its former subscribers plus the caller, and every other lookup is unchanged |
| ResourceFolder.LookupAfterUnsubscribe | resource_folder.py:91 | after an unsubscribe, the `.get` lookup (line 119) of that URI yields its former subscribers minus the caller, and every other lookup is unchanged |
| ResourceFolder.LookupAfterRemove | resource_folder.py:51 | after the subscriber entry is popped, the `.get` lookup (line 119) of that URI yields nobody, and every other lookup is unchanged |
| ResourceFolder.Server.OnSubscribe | resource_folder.py:80-85 | the subscriber map becomes WithSubscriber of the old map; nothing else changes |
| ResourceFolder.Server.OnUnsubscribe | resource_folder.py:87-92 | the subscriber map becomes WithoutSubscriber of the old map; nothing else changes |
| ResourceFolder.WithSubscriber | resource_folder.py:28 | the URI gains an entry holding the caller and its former subscribers; no other entry changes |
| ResourceFolder.WithoutSubscriber | resource_folder.py:28 | the URI gains an entry, possibly empty, holding its former subscribers without the caller; no other entry changes |
| ResourceFolder.SubscribeIdempotent | resource_folder.py:84 | subscribing twice leaves the same map as subscribing once |
| ResourceFolder.UnsubscribeAbsentInvisible | resource_folder.py:91 | unsubscribing a session that is not subscribed changes no `.get` lookup |
| ResourceFolder.UnsubscribeUndoesSubscribe | resource_folder.py:84-91 | for a caller that was not subscribed before, unsubscribing right after subscribing restores every `.get` lookup |
| FolderWatcher.FilesIn | resource_folder.py:131-132 | the startup scan visits each file of the listing (`is_file()`: a regular file or a link to one) as often as the listing holds it, and nothing else |
| FolderWatcher.Watcher.constructor | resource_folder.py:101-103 | the watcher starts from its own first snapshot and is bound to the server and the two path-to-URI mappings |
| FolderWatcher.Watcher.HandleCurrent | resource_folder.py:108-120 | each new path is added once and each modified path's update goes once to each subscriber of its URI; the subscriber lookup creates no entry; the registry gains the new files' URIs, each holding its old value or a resource built for a new file |
| FolderWatcher.Watcher.HandleDeleted | resource_folder.py:122-125 | each removed path is removed once, under the URI it resolves to once gone, with one list-changed per removal to every tracked session; exactly those URIs lose their registry and subscriber entries |
| FolderWatcher.KeysAfterPoll | resource_folder.py:108-125 | the registry keys after a cycle include every new file's URI that no removal names, lie within the old keys plus the new files' URIs, and exclude every URI a removed path resolves to once gone |
| FolderWatcher.Watcher.Poll | resource_folder.py:106-126 | one cycle makes exactly one add per new path, one update fan-out per modified path and one remove per removed path, with every removal after every add and update; nothing is done for unchanged paths; the registry keys become KeysAfterPoll; the subscriber entries of the URIs the removed paths resolve to once gone are dropped; the sends are exactly one list-changed per add or remove to every tracked session plus one update per modified path to each subscriber of its URI; the next snapshot is the current one |
| FolderWatcher.PollTracksDirectory | resource_folder.py:106-126 | when no two files share a URI, every previously seen file was registered, and every deleted path resolves once gone to the URI it had while present, after a cycle a file's URI is registered exactly when the file is in the current snapshot |
| FolderWatcher.DeletedAliasKeepsTarget | resource_folder.py:109-125 | deleting a symlink to a file that stays leaves that file's URI registered |
| FolderWatcher.DeletedLinkLeavesStaleUri | resource_folder.py:109-125 | deleting the only symlink to a file outside the directory leaves the target's URI registered, with its subscriber entry, although no file of the directory maps to it |
| FolderWatcher.StartWatcher | resource_folder.py:129-139 | every file of the listing (`is_file()`: a regular file or a link to one) is registered through the patched add, in listing order and once per listing entry, before the watcher starts; the registry gains exactly their URIs; one list-changed per registration goes to every tracked session; subscribers and sessions are unchanged |

## Left out

- Network and scheduling: the MCP transport, sessions' connection lifetimes and `asyncio` scheduling are not modelled. A queued send is never lost and never reordered with respect to the model. A send that fails inside its task is not modelled.
- Filesystem: `iterdir`, `is_file`, `stat` and `read_text` are not modelled. Listings and snapshots are inputs, and a resource's provider only names the path it reads lazily. The watcher has no exception handling: an exception from `iterdir`, `stat` or `resolve` (a file deleted between the listing and its `stat`, or the directory removed) escapes `watch_resources` and stops polling for good. `Watcher.Poll` has no such outcome.
- Path resolution: `Path.resolve()` is not modelled. The URIs it yields for a present path and for a deleted one are the watcher's parameters `uriOf` and `goneUriOf`. The model does not tie them to a symlink structure, and the symlink cases are stated as hypotheses of the lemmas that need them. Both mappings are fixed for the watcher's lifetime, while the source resolves paths again in every cycle. So a symlink retargeted between cycles, whose URI then changes, is not modelled.
- Timing: the five-second `asyncio.sleep` and the unbounded `while True` are not modelled. `Watcher.Poll` is one cycle, and repeated cycles are repeated calls.
- The race between startup registration and the watcher's first snapshot is not modelled. Both are plain inputs, so a file created between them is not modelled.
- Mtimes: modification times are floats that the code only compares for equality. They are `real` here.
- Logging: the logging and its `try`/`except` around `repr` have no effect on state and are not modelled.
- Library internals are not modelled:
  - how the original `add_resource` treats a URI that is already registered;
  - `AnyUrl` normalisation of the URI string. The model assumes that every spelling of a URI is the same key:
    - the key the library stores equals the string the watcher later passes to `remove_resource`;
    - the raw `file://` string the update fan-out looks up equals the `str(uri)` key that `_on_subscribe` stores from a library-parsed request URI;
  - `FunctionResource` beyond its URI, reader and MIME type.
- `request_ctx` is not modelled. The calling session is passed as a parameter.
- server.py is not part of this model, beyond the handlers that resource_folder.py installs.
- AddResource: on a URI that is already registered, it states only that the entry holds the new or the old resource, because that choice belongs to the library.
