/** Snapshots of remote resources: the parsed Atom constructs they are built
    from (RFC 4287: a feed is section 4.1.1, an entry section 4.1.2), the
    attribute bag every snapshot carries, typed lookups in that bag, and the
    `Resource` object that holds one snapshot. */
module Resources {
  import opened Wrappers

  /** A point in time, as the tick count of `System.DateTime`; only its order
      and the distinguished `MinValue` matter here. */
  datatype DateTime = DateTime(ticks: nat)

  const MinValue: DateTime := DateTime(0)

  datatype Uri = Uri(text: string)

  datatype Version = Version(text: string)

  /** A structured message a server attaches to a feed or an error response. */
  datatype Message = Message(kind: string, text: string)

  /** The OpenSearch paging numbers a feed carries. */
  datatype Pagination = Pagination(itemsPerPage: int, startIndex: int, totalResults: int)

  /** A value held by an attribute bag: what the Atom reader makes of an
      entry's content (text, nested objects, lists), plus the values a
      snapshot adds itself (a date, a feed's messages and paging, its child
      resources). `Null` is the null reference. */
  datatype Value =
    | Null
    | Text(text: string)
    | Date(date: DateTime)
    | Object(members: map<string, Value>)
    | List(items: seq<Value>)
    | MessageList(messages: seq<Message>)
    | PageInfo(pagination: Pagination)
    | ResourceList(resources: seq<Resource>)

  /** A dynamic object: case-sensitive member names to values. */
  type Bag = map<string, Value>

  /** An Atom entry (section 4.1.2 of RFC 4287) as the Atom reader delivers it;
      `published` is `MinValue` when the entry has no published element
      (section 4.2.9), `updated` is section 4.2.15. */
  datatype Entry = Entry(
    author: string,
    id: Uri,
    links: map<string, Uri>,
    title: string,
    updated: DateTime,
    published: DateTime,
    content: Value)

  /** An Atom feed (section 4.1.1 of RFC 4287) as the Atom reader delivers it. */
  datatype Feed = Feed(
    author: string,
    id: Uri,
    generatorVersion: Version,
    links: map<string, Uri>,
    title: string,
    updated: DateTime,
    messages: seq<Message>,
    pagination: Pagination,
    entries: seq<Entry>)

  /** A value converter: a partial conversion and the value a lookup yields
      when the attribute is absent. */
  datatype Converter<T> = Converter(convert: Value -> Option<T>, defaultValue: T)

  // ---------------------------------------------------------------------
  // The attribute bag
  // ---------------------------------------------------------------------

  /** Untyped lookup: the member's value, or null when there is none. */
  function GetRaw(bag: Bag, name: string): (v: Value)
    ensures name !in bag ==> v == Null
    ensures name in bag ==> v == bag[name]
  {
    if name in bag then bag[name] else Null
  }

  /** Typed lookup: the converter's default for an absent member, the
      converted value for a present one, `InvalidData` when the converter
      rejects the value. */
  function GetTyped<T>(bag: Bag, name: string, converter: Converter<T>): (r: Result<T, Error>)
    ensures name !in bag ==> r == Success(converter.defaultValue)
    ensures name in bag ==> (r.Success? <==> converter.convert(bag[name]).Some?)
    ensures name in bag && r.Success? ==> converter.convert(bag[name]) == Some(r.value)
    ensures r.Failure? ==> r.error == InvalidData
  {
    if name !in bag then Success(converter.defaultValue)
    else match converter.convert(bag[name])
      case Some(v) => Success(v)
      case None => Failure(InvalidData)
  }

  /** The bag made from an entry's content: an empty object for no content,
      the content itself when it already is an object, and otherwise a fresh
      object whose one member `Value` holds the content. */
  function ContentBag(content: Value): (bag: Bag)
    ensures content.Object? ==> bag == content.members
    ensures !content.Object? ==> bag.Keys <= {"Value"} && ("Value" in bag <==> content != Null)
    ensures !content.Object? && "Value" in bag ==> bag["Value"] == content
  {
    match content
    case Null => map[]
    case Object(members) => members
    case _ => map["Value" := content]
  }

  /** The attribute bag of a snapshot of `entry`: its content bag, with
      `Published` set when the entry carries a published date. */
  function EntryBag(entry: Entry): (bag: Bag)
    ensures entry.published == MinValue ==> bag.Keys == ContentBag(entry.content).Keys
    ensures entry.published != MinValue ==> bag.Keys == ContentBag(entry.content).Keys + {"Published"}
  {
    var bag := ContentBag(entry.content);
    if entry.published != MinValue then bag["Published" := Date(entry.published)] else bag
  }

  /** How content becomes the bag, whatever the published date does. */
  lemma EntryBagWrapsContent(entry: Entry)
    ensures entry.content == Null ==> EntryBag(entry).Keys <= {"Published"}
    ensures entry.content.Object? ==>
      forall k :: k != "Published" ==> GetRaw(EntryBag(entry), k) == GetRaw(entry.content.members, k)
    ensures !entry.content.Null? && !entry.content.Object? ==>
      && EntryBag(entry).Keys - {"Published"} == {"Value"}
      && EntryBag(entry)["Value"] == entry.content
  {
  }

  /** `Published` is injected exactly when the entry has a published date,
      and injecting it leaves every other member alone. */
  lemma PublishedInjectedIff(entry: Entry)
    ensures entry.published != MinValue ==>
      "Published" in EntryBag(entry) && EntryBag(entry)["Published"] == Date(entry.published)
    ensures entry.published == MinValue ==> EntryBag(entry) == ContentBag(entry.content)
    ensures forall k :: k != "Published" ==> GetRaw(EntryBag(entry), k) == GetRaw(ContentBag(entry.content), k)
  {
  }

  // ---------------------------------------------------------------------
  // The initialize-once guard
  // ---------------------------------------------------------------------

  /** The adapter a resource keeps over its bag: `EmptyAdapter` is the shared
      `ExpandoAdapter.Empty` a resource starts with, `BagAdapter` one that
      `Initialize` built. The slot itself is a nullable reference. */
  datatype Adapter = EmptyAdapter | BagAdapter(bag: Bag)

  function AdapterBag(adapter: Adapter): Bag
  {
    match adapter
    case EmptyAdapter => map[]
    case BagAdapter(bag) => bag
  }

  /** The guard as the source writes it: a non-null adapter means
      "initialized". */
  function EnsureUninitializedAsWritten(adapter: Option<Adapter>): (err: Option<Error>)
    ensures err.None? <==> adapter.None?
    ensures err.Some? ==> err.value == InvalidOperation
  {
    if adapter != None then Some(InvalidOperation) else None
  }

  /** The guard as intended: only an adapter that an `Initialize` built means
      "initialized". */
  function EnsureUninitialized(adapter: Option<Adapter>): (err: Option<Error>)
    ensures err.None? <==> adapter.None? || adapter.value == EmptyAdapter
    ensures err.Some? ==> err.value == InvalidOperation
  {
    if adapter.Some? && adapter.value.BagAdapter? then Some(InvalidOperation) else None
  }

  /** As written, the guard rejects the very first `Initialize` of a resource
      made by the default constructor, whose slot holds `ExpandoAdapter.Empty`;
      the intended guard lets it through. */
  lemma AsWrittenGuardRejectsFreshResource(r: Resource)
    requires r.Uninitialized()
    ensures EnsureUninitializedAsWritten(r.adapter) == Some(InvalidOperation)
    ensures EnsureUninitialized(r.adapter) == None
  {
  }

  /** The intended guard admits a resource that was never initialized and
      refuses every resource that was. */
  lemma InitializeAtMostOnce(bag: Bag)
    ensures EnsureUninitialized(Some(EmptyAdapter)) == None
    ensures EnsureUninitialized(Some(BagAdapter(bag))) == Some(InvalidOperation)
  {
  }

  /** A member binder of the dynamic runtime: the member's name and whether
      the calling language binds case-insensitively. */
  datatype Binder = Binder(name: string, ignoreCase: bool)

  // ---------------------------------------------------------------------
  // Resource
  // ---------------------------------------------------------------------

  /** One snapshot of a remote resource: identity, metadata and an attribute
      bag. A resource made by the default constructor is filled in once, by
      one of the two `Initialize` methods. */
  class Resource {
    var author: Option<string>
    var generatorVersion: Option<Version>
    var id: Option<Uri>
    var links: Option<map<string, Uri>>
    var title: Option<string>
    var updated: DateTime
    var adapter: Option<Adapter>

    /** The state the default constructor leaves. */
    ghost predicate Uninitialized()
      reads this
    {
      && author.None? && generatorVersion.None? && id.None? && links.None?
      && title.None? && updated == MinValue && adapter == Some(EmptyAdapter)
    }

    /** The state of the `Missing` sentinel. */
    ghost predicate IsMissing()
      reads this
    {
      && author.None? && generatorVersion.None? && id.None? && links == Some(map[])
      && title.None? && updated == MinValue && adapter == Some(EmptyAdapter)
    }

    /** Some `Initialize` has filled this resource in. */
    ghost predicate IsLoaded()
      reads this
    {
      && author.Some? && generatorVersion.Some? && id.Some? && links.Some?
      && title.Some? && adapter.Some? && adapter.value.BagAdapter?
    }

    /** This resource is the snapshot of `entry` made with generator version `v`. */
    ghost predicate HoldsEntry(entry: Entry, v: Version)
      reads this
    {
      && author == Some(entry.author)
      && id == Some(entry.id)
      && generatorVersion == Some(v)
      && links == Some(entry.links)
      && title == Some(entry.title)
      && updated == entry.updated
      && adapter == Some(BagAdapter(EntryBag(entry)))
    }

    /** The child resources held under `Resources`, if any. */
    function Children(): seq<Resource>
      reads this
    {
      if adapter.Some? && "Resources" in AdapterBag(adapter.value)
         && AdapterBag(adapter.value)["Resources"].ResourceList?
      then AdapterBag(adapter.value)["Resources"].resources
      else []
    }

    /** This resource is the snapshot of `feed`: the feed's metadata, a bag of
        exactly its messages, its paging and one child per entry, in feed
        order, each the snapshot of its entry under the feed's generator
        version. */
    ghost predicate HoldsFeed(feed: Feed)
      reads this, Children()
    {
      && author == Some(feed.author)
      && id == Some(feed.id)
      && generatorVersion == Some(feed.generatorVersion)
      && links == Some(feed.links)
      && title == Some(feed.title)
      && updated == feed.updated
      && adapter.Some? && adapter.value.BagAdapter?
      && AdapterBag(adapter.value).Keys == {"Messages", "Pagination", "Resources"}
      && AdapterBag(adapter.value)["Messages"] == MessageList(feed.messages)
      && AdapterBag(adapter.value)["Pagination"] == PageInfo(feed.pagination)
      && AdapterBag(adapter.value)["Resources"].ResourceList?
      && |Children()| == |feed.entries|
      && forall k :: 0 <= k < |feed.entries| ==> Children()[k].HoldsEntry(feed.entries[k], feed.generatorVersion)
    }

    /** The default constructor. */
    constructor ()
      ensures Uninitialized()
    {
      author, generatorVersion, id, links, title := None, None, None, None, None;
      updated := MinValue;
      adapter := Some(EmptyAdapter);
    }

    /** The `Missing` sentinel, as the static constructor sets it up. */
    constructor Missing()
      ensures IsMissing()
    {
      author, generatorVersion, id, title := None, None, None, None;
      links := Some(map[]);
      updated := MinValue;
      adapter := Some(EmptyAdapter);
    }

    /** `new Resource(entry, generatorVersion)`. */
    constructor FromEntry(entry: Entry, version: Version)
      ensures HoldsEntry(entry, version)
    {
      author, generatorVersion, id, links, title := None, None, None, None, None;
      updated := MinValue;
      adapter := Some(EmptyAdapter);
      new;
      var err := Initialize(entry, version);
    }

    /** `new Resource(feed)`. */
    constructor FromFeed(feed: Feed)
      ensures HoldsFeed(feed)
      ensures forall k :: 0 <= k < |Children()| ==> fresh(Children()[k])
    {
      author, generatorVersion, id, links, title := None, None, None, None, None;
      updated := MinValue;
      adapter := Some(EmptyAdapter);
      new;
      var err := InitializeFromFeed(feed);
    }

    /** Fills in an uninitialized resource from one entry; refuses one that
        is already initialized and leaves it untouched. */
    method Initialize(entry: Entry, version: Version) returns (err: Option<Error>)
      modifies this
      ensures err == EnsureUninitialized(old(adapter))
      ensures err.Some? ==> unchanged(this)
      ensures err.None? ==> HoldsEntry(entry, version)
    {
      err := EnsureUninitialized(adapter);
      if err.Some? {
        return;
      }
      var content := ContentBag(entry.content);
      adapter := Some(BagAdapter(content));
      author := Some(entry.author);
      id := Some(entry.id);
      generatorVersion := Some(version);
      links := Some(entry.links);
      title := Some(entry.title);
      updated := entry.updated;
      if entry.published != MinValue {
        // the adapter shares the content object, so it sees the new member
        content := content["Published" := Date(entry.published)];
        adapter := Some(BagAdapter(content));
      }
    }

    /** One new resource per entry, in order, each initialized from its
        entry under `version`. */
    static method NewChildren(entries: seq<Entry>, version: Version) returns (resources: seq<Resource>)
      ensures |resources| == |entries|
      ensures forall k :: 0 <= k < |entries| ==> fresh(resources[k])
      ensures forall k :: 0 <= k < |entries| ==> resources[k].HoldsEntry(entries[k], version)
      ensures forall p, q :: 0 <= p < q < |entries| ==> resources[p] != resources[q]
    {
      resources := [];
      var i := 0;
      while i < |entries|
        invariant 0 <= i <= |entries| && |resources| == i
        invariant forall k :: 0 <= k < i ==> fresh(resources[k])
        invariant forall k :: 0 <= k < i ==> resources[k].HoldsEntry(entries[k], version)
        invariant forall p, q :: 0 <= p < q < i ==> resources[p] != resources[q]
      {
        var resource := new Resource.FromEntry(entries[i], version);
        resources := resources + [resource];
        i := i + 1;
      }
    }

    /** Fills in an uninitialized resource from a feed, building one child
        resource per entry in feed order; refuses one that is already
        initialized and leaves it untouched. */
    method InitializeFromFeed(feed: Feed) returns (err: Option<Error>)
      modifies this
      ensures err == EnsureUninitialized(old(adapter))
      ensures err.Some? ==> unchanged(this)
      ensures err.None? ==> HoldsFeed(feed)
      ensures err.None? ==> forall k :: 0 <= k < |Children()| ==> fresh(Children()[k])
      ensures err.None? ==> forall i, j :: 0 <= i < j < |Children()| ==> Children()[i] != Children()[j]
    {
      err := EnsureUninitialized(adapter);
      if err.Some? {
        return;
      }
      var content: Bag := map[];
      adapter := Some(BagAdapter(content));
      author := Some(feed.author);
      id := Some(feed.id);
      generatorVersion := Some(feed.generatorVersion);
      links := Some(feed.links);
      title := Some(feed.title);
      updated := feed.updated;
      content := content["Messages" := MessageList(feed.messages)];
      content := content["Pagination" := PageInfo(feed.pagination)];

      var resources := NewChildren(feed.entries, feed.generatorVersion);
      content := content["Resources" := ResourceList(resources)];
      adapter := Some(BagAdapter(content));
      assert Children() == resources;
    }

    /** `Equals(Resource)`: false for null, true for the same object, and
        otherwise whether the identities are equal; the content plays no
        part. A resource without identity throws on the comparison. */
    function Equals(other: Resource?): (r: Result<bool, Error>)
      reads this, other
      ensures other == null ==> r == Success(false)
      ensures other == this ==> r == Success(true)
      ensures r.Failure? <==> other != null && other != this && id.None?
      ensures other != null && other != this && r.Success? ==> (r.value <==> id == other.id)
    {
      if other == null then Success(false)
      else if this == other then Success(true)
      else if id.None? then Failure(NullReference)
      else Success(id == other.id)
    }

    /** `Equals(object)`: anything that is not a resource compares as null. */
    function EqualsObject(other: object?): (r: Result<bool, Error>)
      reads this, other
      ensures !(other is Resource) ==> r == Success(false)
      ensures other is Resource ==> r == Equals(other as Resource)
    {
      Equals(if other is Resource then other as Resource else null)
    }

    /** `GetHashCode`: the identity's hash code, for the identity's own hash
        function `hash`; it throws on a resource without identity. */
    function HashCode(hash: Uri -> int): (r: Result<int, Error>)
      reads this
      ensures r.Failure? <==> id.None?
      ensures r.Success? ==> r.value == hash(id.value)
    {
      if id.None? then Failure(NullReference) else Success(hash(id.value))
    }

    /** `ToString`: the identity's text; it throws on a resource without identity. */
    function ToString(): (r: Result<string, Error>)
      reads this
      ensures r.Failure? <==> id.None?
      ensures r.Success? ==> Uri(r.value) == id.value
    {
      if id.None? then Failure(NullReference) else Success(id.value.text)
    }

    /** The bag behind the adapter. */
    function Bag(): Bag
      reads this
      requires adapter.Some?
    {
      AdapterBag(adapter.value)
    }

    /** `GetValue(name)`: the member's value, or null when there is none. */
    function GetValue(name: string): (v: Value)
      reads this
      requires adapter.Some?
      ensures name !in Bag() ==> v == Null
      ensures name in Bag() ==> v == Bag()[name]
    {
      GetRaw(Bag(), name)
    }

    /** `GetValue(name, valueConverter)`: the converted member, the
        converter's default when the member is absent, `InvalidData` when
        the conversion fails. */
    function GetTypedValue<T>(name: string, converter: Converter<T>): (r: Result<T, Error>)
      reads this
      requires adapter.Some?
      ensures name !in Bag() ==> r == Success(converter.defaultValue)
      ensures r.Failure? <==> name in Bag() && converter.convert(Bag()[name]).None?
      ensures r.Failure? ==> r.error == InvalidData
      ensures name in Bag() && r.Success? ==> converter.convert(Bag()[name]) == Some(r.value)
    {
      GetTyped(Bag(), name, converter)
    }

    /** `GetDynamicMemberNames`: the names the bag holds; any other name
        looks up as null. */
    function DynamicMemberNames(): (names: set<string>)
      reads this
      requires adapter.Some?
      ensures forall n :: n !in names ==> GetValue(n) == Null
      ensures forall n :: n in names <==> n in Bag()
    {
      Bag().Keys
    }

    /** `TryGetMember`: throws for case-insensitive binders; otherwise looks
        the name up and succeeds exactly when the value found is not null. */
    function TryGetMember(binder: Binder): (r: Result<(bool, Value), Error>)
      reads this
      requires adapter.Some?
      ensures binder.ignoreCase <==> r.Failure?
      ensures r.Failure? ==> r.error == NotSupported
      ensures r.Success? ==> (r.value.0 <==> binder.name in Bag() && Bag()[binder.name] != Null)
      ensures r.Success? && r.value.0 ==> r.value.1 == Bag()[binder.name]
    {
      if binder.ignoreCase then Failure(NotSupported)
      else
        var result := GetValue(binder.name);
        Success((result != Null, result))
    }
  }

  /** Equality depends only on identity: two distinct resources with the same
      identity are equal whatever their content, and resources with different
      identities never are. */
  lemma EqualsByIdentityOnly(a: Resource, b: Resource)
    requires a.id.Some?
    ensures a.Equals(b) == Success(a == b || a.id == b.id)
  {
  }

  /** Equality is symmetric between resources that have an identity. */
  lemma EqualsSymmetric(a: Resource, b: Resource)
    requires a.id.Some? && b.id.Some?
    ensures a.Equals(b) == b.Equals(a)
  {
  }

  /** Equal resources have equal hash codes. */
  lemma EqualResourcesHashAlike(a: Resource, b: Resource, hash: Uri -> int)
    requires a.Equals(b) == Success(true)
    ensures a.HashCode(hash) == b.HashCode(hash)
  {
  }

  /** `Initialize` runs once: on a fresh resource the first call succeeds and
      a second call on the same resource is refused. */
  method InitializeTwice(entry: Entry, v: Version, other: Entry) returns (first: Option<Error>, second: Option<Error>)
    ensures first == None
    ensures second == Some(InvalidOperation)
  {
    var r := new Resource();
    first := r.Initialize(entry, v);
    second := r.Initialize(other, v);
  }

  /** A one-entry feed yields a child whose identity, metadata and attribute
      bag are those of the resource built from that entry directly. */
  lemma SingleEntryFeedChildIsEntrySnapshot(parent: Resource, direct: Resource, feed: Feed)
    requires |feed.entries| == 1
    requires parent.HoldsFeed(feed)
    requires direct.HoldsEntry(feed.entries[0], feed.generatorVersion)
    ensures |parent.Children()| == 1
    ensures parent.Children()[0].id == direct.id
    ensures parent.Children()[0].author == direct.author
    ensures parent.Children()[0].generatorVersion == direct.generatorVersion
    ensures parent.Children()[0].links == direct.links
    ensures parent.Children()[0].title == direct.title
    ensures parent.Children()[0].updated == direct.updated
    ensures parent.Children()[0].adapter == direct.adapter
  {
    assert parent.Children()[0].HoldsEntry(feed.entries[0], feed.generatorVersion);
  }
}
