/** A resource endpoint: a handle that holds the current snapshot of one
    server resource, reads its standard properties through that snapshot,
    and is initialized once, from an entry or from a feed. */
module Endpoints {
  import opened Wrappers
  import opened Resources
  import opened Http

  /** What an endpoint is bound to: nothing yet (the default constructor),
      an address given at construction, or the id of the entry or feed it
      was initialized from. */
  datatype Identity =
    | Unbound
    | Addressed(ns: Namespace, name: ResourceName)
    | FromId(id: Uri)

  class ResourceEndpoint {
    var context: Context?
    var identity: Identity
    var snapshot: Resource

    /** The snapshot is always the `Missing` sentinel or a resource some
        `Initialize` has filled in. */
    ghost predicate Valid()
      reads this, snapshot
    {
      snapshot.IsMissing() || snapshot.IsLoaded()
    }

    /** The default constructor: unbound, holding `Missing`. */
    constructor ()
      ensures context == null && identity == Unbound
      ensures fresh(snapshot) && snapshot.IsMissing() && Valid()
    {
      context := null;
      identity := Unbound;
      snapshot := new Resource.Missing();
    }

    /** `new ResourceEndpoint(context, ns, collection, name)`: addressed at
        the resource `name` within `collection`, holding `Missing`. */
    constructor Named(context: Context, ns: Namespace, collection: ResourceName, name: string)
      requires name != ""
      ensures this.context == context && identity == Addressed(ns, collection + [name])
      ensures fresh(snapshot) && snapshot.IsMissing() && Valid()
    {
      this.context := context;
      identity := Addressed(ns, collection + [name]);
      snapshot := new Resource.Missing();
    }

    // -------------------------------------------------------------------
    // The standard properties, present in every snapshot
    // -------------------------------------------------------------------

    /** `Author`: null while the snapshot is `Missing`, present once loaded. */
    function Author(): (r: Option<string>)
      reads this, snapshot
      ensures snapshot.IsMissing() ==> r.None?
      ensures snapshot.IsLoaded() ==> r.Some?
    {
      snapshot.author
    }

    /** `Id`: null while the snapshot is `Missing`, present once loaded. */
    function Id(): (r: Option<Uri>)
      reads this, snapshot
      ensures snapshot.IsMissing() ==> r.None?
      ensures snapshot.IsLoaded() ==> r.Some?
    {
      snapshot.id
    }

    /** `GeneratorVersion`: null while the snapshot is `Missing`, present
        once loaded. */
    function GeneratorVersion(): (r: Option<Version>)
      reads this, snapshot
      ensures snapshot.IsMissing() ==> r.None?
      ensures snapshot.IsLoaded() ==> r.Some?
    {
      snapshot.generatorVersion
    }

    /** `Links`: empty while the snapshot is `Missing`, present once loaded. */
    function Links(): (r: Option<map<string, Uri>>)
      reads this, snapshot
      ensures snapshot.IsMissing() ==> r == Some(map[])
      ensures snapshot.IsLoaded() ==> r.Some?
    {
      snapshot.links
    }

    /** `Title`: null while the snapshot is `Missing`, present once loaded. */
    function Title(): (r: Option<string>)
      reads this, snapshot
      ensures snapshot.IsMissing() ==> r.None?
      ensures snapshot.IsLoaded() ==> r.Some?
    {
      snapshot.title
    }

    /** `Updated`: the least date while the snapshot is `Missing`. */
    function Updated(): (r: DateTime)
      reads this, snapshot
      ensures snapshot.IsMissing() ==> r == MinValue
    {
      snapshot.updated
    }

    // -------------------------------------------------------------------
    // Initialization
    // -------------------------------------------------------------------

    /** Binding the identity of an endpoint made by the default constructor
        to a session and the id of what it is initialized from; an endpoint
        that is already bound is refused and left as it was. */
    method BindIdentity(context: Context, id: Uri) returns (err: Option<Error>)
      modifies this`context, this`identity
      ensures old(identity) != Unbound ==> err == Some(InvalidOperation)
      ensures old(identity) != Unbound ==> this.context == old(this.context) && identity == old(identity)
      ensures old(identity) == Unbound ==> err == None && this.context == context && identity == FromId(id)
    {
      if identity != Unbound {
        return Some(InvalidOperation);
      }
      this.context := context;
      identity := FromId(id);
      err := None;
    }

    /** `ReconstructSnapshot(entry, generatorVersion)`, as its documentation
        intends: the snapshot becomes a new resource made from `entry`.
        `InitializeAsWritten` is the code as it stands, where nothing can
        replace the snapshot. */
    method ReconstructSnapshot(entry: Entry, version: Version)
      modifies this`snapshot
      ensures fresh(snapshot) && snapshot.HoldsEntry(entry, version)
    {
      snapshot := new Resource.FromEntry(entry, version);
    }

    /** `ReconstructSnapshot(feed)`: the snapshot becomes a new resource made
        from `feed`. */
    method ReconstructSnapshotFromFeed(feed: Feed)
      modifies this`snapshot
      ensures fresh(snapshot) && snapshot.HoldsFeed(feed)
    {
      snapshot := new Resource.FromFeed(feed);
    }

    /** `Initialize(context, entry, generatorVersion)`: binds the identity to
        the entry's id first, then rebuilds the snapshot from that same
        entry. An endpoint already initialized is refused before its
        snapshot is touched. */
    method Initialize(context: Context, entry: Entry, version: Version) returns (err: Option<Error>)
      modifies this`context, this`identity, this`snapshot
      ensures old(identity) != Unbound ==> err == Some(InvalidOperation)
      ensures old(identity) != Unbound ==> unchanged(this)
      ensures old(identity) == Unbound ==> err == None
      ensures err.None? ==> this.context == context && identity == FromId(entry.id)
      ensures err.None? ==> fresh(snapshot) && snapshot.HoldsEntry(entry, version) && Valid()
      ensures err.None? ==> Id() == Some(entry.id) && Author() == Some(entry.author)
      ensures err.None? ==> GeneratorVersion() == Some(version) && Links() == Some(entry.links)
      ensures err.None? ==> Title() == Some(entry.title) && Updated() == entry.updated
    {
      err := BindIdentity(context, entry.id);
      if err.Some? {
        return;
      }
      ReconstructSnapshot(entry, version);
    }

    /** `Initialize(context, entry, generatorVersion)` as the code stands:
        `snapshot` is private to this class and none of its members assigns
        it, so no override of the abstract `ReconstructSnapshot` can replace
        it. Only the identity is bound; the snapshot stays where it was. */
    method InitializeAsWritten(context: Context, entry: Entry, version: Version) returns (err: Option<Error>)
      modifies this`context, this`identity
      ensures old(identity) != Unbound ==> err == Some(InvalidOperation)
      ensures old(identity) != Unbound ==> this.context == old(this.context) && identity == old(identity)
      ensures old(identity) == Unbound ==> err == None && this.context == context && identity == FromId(entry.id)
    {
      err := BindIdentity(context, entry.id);
    }

    /** `Initialize(context, feed)`: binds the identity to the feed's id,
        then rebuilds the snapshot from the feed; refused, with nothing
        changed, on an endpoint already initialized. */
    method InitializeFromFeed(context: Context, feed: Feed) returns (err: Option<Error>)
      modifies this`context, this`identity, this`snapshot
      ensures old(identity) != Unbound ==> err == Some(InvalidOperation)
      ensures old(identity) != Unbound ==> unchanged(this)
      ensures old(identity) == Unbound ==> err == None
      ensures err.None? ==> this.context == context && identity == FromId(feed.id)
      ensures err.None? ==> fresh(snapshot) && snapshot.HoldsFeed(feed) && Valid()
    {
      err := BindIdentity(context, feed.id);
      if err.Some? {
        return;
      }
      ReconstructSnapshotFromFeed(feed);
    }

    /** `CreateAsync(context, response)`, from the feed the response was read
        as: one new endpoint made by the default constructor and initialized
        once from that feed. */
    static method CreateAsync(context: Context, feed: Feed) returns (endpoint: ResourceEndpoint)
      ensures fresh(endpoint) && fresh(endpoint.snapshot)
      ensures endpoint.context == context && endpoint.identity == FromId(feed.id)
      ensures endpoint.snapshot.HoldsFeed(feed) && endpoint.Valid()
    {
      endpoint := new ResourceEndpoint();
      var err := endpoint.InitializeFromFeed(context, feed);
      assert err == None;
    }
  }

  /** An endpoint holding `Missing` reads null for every standard property
      but `Links`, which is empty, and the least date for `Updated`. */
  lemma MissingReadsDefaults(endpoint: ResourceEndpoint)
    requires endpoint.snapshot.IsMissing()
    ensures endpoint.Author() == None && endpoint.Id() == None && endpoint.GeneratorVersion() == None
    ensures endpoint.Links() == Some(map[]) && endpoint.Title() == None && endpoint.Updated() == MinValue
  {
  }

  /** An endpoint whose snapshot was made from a feed reads the feed's
      metadata through every standard property. */
  lemma FeedSnapshotReadsFeed(endpoint: ResourceEndpoint, feed: Feed)
    requires endpoint.snapshot.HoldsFeed(feed)
    ensures endpoint.Id() == Some(feed.id) && endpoint.Author() == Some(feed.author)
    ensures endpoint.GeneratorVersion() == Some(feed.generatorVersion) && endpoint.Links() == Some(feed.links)
    ensures endpoint.Title() == Some(feed.title) && endpoint.Updated() == feed.updated
  {
  }

  /** A `Valid` endpoint reads either every default of `Missing` or a
      present value for each of its five nullable properties. */
  lemma ValidReadsAllOrNothing(endpoint: ResourceEndpoint)
    requires endpoint.Valid()
    ensures endpoint.Id().None? ==>
      && endpoint.Author().None? && endpoint.GeneratorVersion().None? && endpoint.Title().None?
      && endpoint.Links() == Some(map[]) && endpoint.Updated() == MinValue
    ensures endpoint.Id().Some? ==>
      endpoint.Author().Some? && endpoint.GeneratorVersion().Some? && endpoint.Title().Some? && endpoint.Links().Some?
  {
  }

  /** As the code stands, an endpoint made by the default constructor and
      initialized from an entry still reads `Missing`: its title and id stay
      null although the entry carries both. */
  method AsWrittenInitializeKeepsMissing(context: Context, entry: Entry, v: Version)
    returns (err: Option<Error>, title: Option<string>, id: Option<Uri>)
    ensures err == None
    ensures title == None && title != Some(entry.title)
    ensures id == None && id != Some(entry.id)
  {
    var endpoint := new ResourceEndpoint();
    err := endpoint.InitializeAsWritten(context, entry, v);
    title := endpoint.Title();
    id := endpoint.Id();
  }

  /** Initialization happens once: a second `Initialize` on the same
      endpoint is refused and leaves the first entry's snapshot in place. */
  method InitializeOnce(context: Context, entry: Entry, other: Entry, v: Version)
    returns (first: Option<Error>, second: Option<Error>, title: Option<string>)
    ensures first == None && second == Some(InvalidOperation)
    ensures title == Some(entry.title)
  {
    var endpoint := new ResourceEndpoint();
    first := endpoint.Initialize(context, entry, v);
    second := endpoint.Initialize(context, other, v);
    title := endpoint.Title();
  }
}
