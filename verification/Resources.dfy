/**
 Identifiers, statuses, events and the resource object every other module works on
 (internal/resource/resource.go).

 The source identifies a resource by a type string and a name string.  Here a constructor
 stands for the type and its arguments for the node names the string is formatted from;
 module Names proves when the two representations agree.
 */
module Resources {

  /** A node, slot or database name. */
  datatype Name = Named(text: string)

  datatype Option<+T> = None | Some(value: T)

  datatype Identifier =
    | User(node: Name)
    | Node(node: Name)
    | NodeAt(orphan: Name, survivor: Name)  // the map key "orphan@survivor"; never an Identifier() result
    | Slot(provider: Name, subscriber: Name)
    | RawSlot(raw: Name)                    // a spk_ slot whose name no provider/subscriber pair produces
    | Sub(src: Name, dst: Name)
    | SlotCreate(provider: Name, subscriber: Name)
    | DisabledSub(src: Name, dst: Name)
    | SyncEvent(provider: Name, subscriber: Name)
    | WaitEvent(provider: Name, subscriber: Name)
    | PeerCatchup(peer: Name, source: Name)
    | LagTracker(origin: Name, receiver: Name)
    | SlotAdvance(provider: Name, subscriber: Name)
    | OriginAdvance(provider: Name, subscriber: Name)
  {
    /** Populate resources: their Refresh always reports "does not exist". */
    predicate Ephemeral() {
      SlotCreate? || DisabledSub? || SyncEvent? || WaitEvent? || PeerCatchup?
      || LagTracker? || SlotAdvance? || OriginAdvance?
    }
  }

  datatype Status = Status(exists_: bool, needsRecreate: bool, needsUpdate: bool)

  const MISSING := Status(false, false, false)
  const HEALTHY := Status(true, false, false)
  const DISABLED := Status(true, false, true)
  const BROKEN := Status(true, true, false)

  datatype Action = Create | Update | Delete

  /**
   The resource objects of the source share this shape.  The database it works on (`conn`),
   identity, dependencies, the `sync` flag and the struct reference to the resource whose output
   is read (`feed`) are fixed at construction; the status is overwritten by Refresh and by the
   slot health check.
   */
  class Resource {
    const conn: Name
    const id: Identifier
    const deps: seq<Identifier>
    const sync: bool
    const feed: Resource?
    var status: Status

    constructor (conn: Name, id: Identifier, deps: seq<Identifier>, sync: bool, feed: Resource?)
      ensures this.conn == conn && this.id == id && this.deps == deps && this.sync == sync && this.feed == feed
      ensures status == MISSING
    {
      this.conn, this.id, this.deps, this.sync, this.feed := conn, id, deps, sync, feed;
      status := MISSING;
    }
  }

  datatype Event = Event(action: Action, resource: Resource)

  /** What an event does, without the object it does it to. */
  datatype Task = Task(action: Action, id: Identifier)

  function TaskOf(e: Event): Task {
    Task(e.action, e.resource.id)
  }

  ghost function Ids(events: set<Event>): set<Identifier> {
    set e | e in events :: e.resource.id
  }

  ghost function Tasks(events: set<Event>): set<Task> {
    set e | e in events :: TaskOf(e)
  }

  /** Every key of the map is the identifier of the object stored under it. */
  ghost predicate KeysAreIds(m: map<Identifier, Resource>) {
    forall k | k in m :: m[k].id == k
  }
}
