/** The record a filesystem notification becomes (one row of the report)
    and the normalisation shared by the three handlers. */
module Events {
  import opened Wrappers
  import opened Paths

  /** Which handler produced the record. */
  datatype Kind = Created | Modified | Deleted

  /** The localised label stored in the 'Evento' column; the three kinds
      have three different labels. A record keeps its `Kind`, and this is
      only the mapping from that kind to the text of the cell. */
  function Label(k: Kind): (s: string)
    ensures s == "Criado" <==> k == Created
    ensures s == "Modificado" <==> k == Modified
    ensures s == "Deletado" <==> k == Deleted
  {
    match k
    case Created => "Criado"
    case Modified => "Modificado"
    case Deleted => "Deletado"
  }

  /** The owner recorded for a deleted file, whose owner cannot be read. */
  const UnknownOwner: string := "Desconhecido"

  /** The 'Tamanho (KB)' cell. `Measured` keeps the byte count that the
      cell's value `round(bytes / 1024, 2)` is computed from; `NotAvailable`
      is the 'N/A' of a deleted file. */
  datatype Size = Measured(bytes: nat) | NotAvailable

  /** One row: 'Data/Hora', 'Usuário', 'Evento', 'Arquivo', 'Caminho',
      'Tamanho (KB)', in that order. */
  datatype Event = Event(
    timestamp: string,
    user: string,
    kind: Kind,
    fileName: string,
    path: string,
    size: Size)

  /** What the watcher hands to a handler: the path and the directory flag. */
  datatype Notification = Notification(srcPath: string, isDirectory: bool)

  /** What one handler appends, given the clock reading `now` and the
      results of the size and owner lookups (`None` when the lookup raises).
      Directory notifications produce nothing; a created or modified file
      whose size or owner cannot be read produces nothing; a deleted file
      always produces a record with the unknown owner and no size. */
  function Normalize(kind: Kind, n: Notification, now: string,
                     sizeLookup: Option<nat>, ownerLookup: Option<string>): (r: Option<Event>)
    ensures n.isDirectory ==> r == None
    ensures !n.isDirectory && kind == Deleted ==> r.Some?
    ensures !n.isDirectory && kind != Deleted ==>
              (r.Some? <==> sizeLookup.Some? && ownerLookup.Some?)
    ensures r.Some? ==> r.value.kind == kind && r.value.timestamp == now
    ensures r.Some? ==> r.value.path == n.srcPath && r.value.fileName == Basename(n.srcPath)
    ensures r.Some? && kind == Deleted ==>
              r.value.user == UnknownOwner && r.value.size == NotAvailable
    ensures r.Some? && kind != Deleted ==>
              r.value.user == ownerLookup.value && r.value.size == Measured(sizeLookup.value)
  {
    if n.isDirectory then None
    else if kind == Deleted then
      Some(Event(now, UnknownOwner, Deleted, Basename(n.srcPath), n.srcPath, NotAvailable))
    else if sizeLookup.None? || ownerLookup.None? then None
    else
      Some(Event(now, ownerLookup.value, kind, Basename(n.srcPath), n.srcPath,
                 Measured(sizeLookup.value)))
  }

  /** The records an optional record contributes to the buffer. */
  function Emitted(r: Option<Event>): seq<Event> {
    match r
    case Some(e) => [e]
    case None => []
  }
}
