/** Values shared by the registry, the subscription index and the folder watcher. */
module Types {

  /** One connected client session. The transport layer creates and destroys
      sessions; the model only holds handles and compares them. */
  type Session(==, !new)

  /** A resource URI string, the key of the registry and of the subscription
      map. URIs are only compared, so the model keeps them abstract. */
  type Uri(==, !new)

  /** A directory entry's path, the key of a snapshot; only compared. */
  type Path(==, !new)

  /** A file's modification time; it is only ever compared for equality. */
  type Mtime = real

  datatype Option<T> = None | Some(value: T)

  /** The content provider of a resource. Content is produced on demand and is
      never cached, so a provider is an opaque value: a lazy read of a file, or
      some other function registered by the server. */
  datatype Provider = ReadText(path: Path) | Function(name: string)

  datatype Resource = Resource(uri: Uri, provider: Provider, mimeType: string)

  const TextPlain: string := "text/plain"

  /** The resource the watcher and the startup scan build for a file. */
  function FileResource(p: Path, uri: Uri): (r: Resource)
  {
    Resource(uri, ReadText(p), TextPlain)
  }

  /** What a notification tells its recipient: re-fetch the list, or re-fetch one resource. */
  datatype Event = ListChanged | Updated(uri: Uri)

  /** One queued send to one session. */
  datatype Notification = Notification(to: Session, event: Event)

  /** One entry of a directory listing, and whether `is_file()` holds of it
      (a regular file or a link to one). */
  datatype DirEntry = DirEntry(path: Path, isFile: bool)

  datatype ListRequest = ListRequest(cursor: Option<string>)

  datatype ListResult = ListResult(resources: seq<Resource>)
}
