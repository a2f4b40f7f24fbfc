# Splunk client jobs and resources, modelled in Dafny

This project models three parts of the Splunk SDK for C# (portable class
library). They are where the client's own state lives:

- **Search jobs (`Job`).** `GetAsync` refreshes a job's snapshot and retries
  only while the server answers 204 No Content ("not ready"). It makes at
  most three attempts and pauses half a second after each not-ready answer.
  `TransitionAsync` polls until the job's dispatch state reaches a required
  state. The control commands (`CancelAsync` … `UnsaveAsync`) wait for
  `Running` and then POST their argument list to the job's `control`
  sub-resource. Result retrieval waits for `Done`, or only for `Running` for
  the preview, and then GETs `results`, `events` or `results_preview`.
  `RemoveAsync` and `UpdateJobArgs` require 200 OK and wait for no state.
- **Resources (`Resource`).** A resource is one snapshot of a server
  resource: identity, metadata and a dynamic attribute bag. It is meant to
  be filled in once, from an Atom entry or an Atom feed. The guard that
  enforces this refuses even the first fill-in as written (see Findings).
  `Resource.Initialize`, `FromEntry`, `FromFeed` and `InitializeFromFeed`
  use the corrected guard. It compares and hashes by
  identity alone. It answers typed and untyped attribute lookups and the
  dynamic runtime's member lookups.
- **Resource endpoints (`ResourceEndpoint`).** An endpoint is a handle with
  one mutable slot holding its current snapshot, which starts as the
  `Missing` sentinel. Its six standard properties read through that slot.
  Initialization binds the endpoint's identity first and is meant to
  rebuild the snapshot. As written, nothing can replace the private slot,
  so the properties keep reading `Missing` (see Findings). The model keeps
  both the code as written and the intended rebuild.

The files:

- `wrappers.dfy` holds `Option`, `Result` and the client's error kinds.
- `resources.dfy` holds the Atom values, the attribute bag and the class
  `Resource`.
- `http.dfy` holds the session (`Context`). It answers each request with
  the next response of a script and keeps a ghost log of every request and
  back-off pause the client makes.
- `jobs.dfy` holds the class `Job`. Its state-changing operations are proved
  against the functions `RefreshJob` (one refresh) and `AwaitState` (one
  poll).
- `endpoints.dfy` holds the class `ResourceEndpoint`.

## Model

| member | source | states |
|---|---|---|
| Jobs.Job.constructor | src/Splunk.Client/Splunk/Client/Job.cs:55-71 | A job is addressed at `name` within the job collection and starts with no snapshot. An empty name is refused, as the `ArgumentException` clause demands |
| Jobs.Job.Sid | src/Splunk.Client/Splunk/Client/Job.cs:322-325 | The search id is the job's name, the last segment of its resource name |
| Jobs.Job.GetValue | src/Splunk.Client/Splunk/Client/Job.cs:88-334 | Every typed property reads the current snapshot. An absent attribute gives the converter's default. A present attribute that converts gives its converted value. A value the converter rejects is `InvalidData`, and that is the only failure |
| Jobs.Job.GetDispatchState | src/Splunk.Client/Splunk/Client/Job.cs:124-127 | `DispatchState` is the typed property `"DispatchState"`. A job with no snapshot reads the converter's default |
| Jobs.Job.Refetch | src/Splunk.Client/Splunk/Client/Job.cs:360 | A refresh sends a GET of the job's own resource name |
| Jobs.FeedAndEntryAgree | src/Splunk.Client/Splunk/Client/Job.cs:376-415 | A one-entry feed and a bare entry read as that same entry. A feed of any other size, or a body whose first node is not an element, is `InvalidData` |
| Jobs.FailureStatusSurfaces | src/Splunk.Client/Splunk/Client/Job.cs:369-372 | A non-2xx status becomes a request error carrying that status |
| Jobs.ReadEntry | src/Splunk.Client/Splunk/Client/Job.cs:363-415 | A response reads as a request error carrying its status exactly when the status is 204 or outside 2xx. Every other failure is `InvalidData`. An entry read is the bare entry of the body or the one entry of its feed |
| Jobs.Attempt | src/Splunk.Client/Splunk/Client/Job.cs:360-415 | A failed exchange passes its error through. A response is "not ready" exactly when its status is 204. An entry is read only from a 2xx response |
| Jobs.RetryFrom | src/Splunk.Client/Splunk/Client/Job.cs:354-431 | The retry loop makes one to `tries` more GETs. It consumes responses, and it consumes at least one when it reads an entry |
| Jobs.RefreshJob | src/Splunk.Client/Splunk/Client/Job.cs:352-431 | A refresh makes between one and three GETs, and a successful one consumes at least one response |
| Jobs.OnlyNotReadyIsRetried | src/Splunk.Client/Splunk/Client/Job.cs:420-425 | Any first outcome other than 204 ends the refresh after that one GET. This covers an entry, another failure status, invalid data and a failed exchange |
| Jobs.ThreeNotReadyRethrows | src/Splunk.Client/Splunk/Client/Job.cs:354-431 | Three 204 answers in a row give three GETs, each followed by a pause, and then the last not-ready error is rethrown |
| Jobs.NotReadyTwiceThenEntry | src/Splunk.Client/Splunk/Client/Job.cs:354-418 | 204, 204 and then an entry: the refresh succeeds with that entry after exactly three GETs and two pauses |
| Jobs.RefreshLogCounts | src/Splunk.Client/Splunk/Client/Job.cs:354-429 | A refresh's log holds one GET per attempt. It holds one pause per attempt when the refresh gave up on "not ready", and one fewer otherwise |
| Jobs.RefreshAtMostThreeGets | src/Splunk.Client/Splunk/Client/Job.cs:354 | Every refresh sends at least one and at most three GETs |
| Jobs.AwaitState | src/Splunk.Client/Splunk/Client/Job.cs:690-697 | A poll never reads more responses than its script holds; `TransitionAsync`, `Control` and `GetSearchResults` are proved against it |
| Jobs.Job.GetAsync | src/Splunk.Client/Splunk/Client/Job.cs:342-431 | The loop's outcome is `RefreshJob` of the responses it started with. On success the snapshot becomes that entry's snapshot; on failure the error is returned and the snapshot is untouched. The log grows by exactly the refresh's GETs and pauses |
| Jobs.AwaitStateReachedIsNoop | src/Splunk.Client/Splunk/Client/Job.cs:692 | A job already at or past the required state makes no pause, no refresh and no request |
| Jobs.AwaitStateReachesThreshold | src/Splunk.Client/Splunk/Client/Job.cs:692-696 | A poll ends without error only once the state can be read and is not below the required one |
| Jobs.AwaitStateRoundsBounded | src/Splunk.Client/Splunk/Client/Job.cs:692-696 | Every refresh of a poll makes one to three attempts |
| Jobs.PollLogCounts | src/Splunk.Client/Splunk/Client/Job.cs:692-696 | Refreshes of one to three attempts log between one and three GETs each and at least one pause each |
| Jobs.AwaitStateCounts | src/Splunk.Client/Splunk/Client/Job.cs:692-696 | A poll of n refreshes sends between n and 3n GETs and at least n pauses |
| Jobs.PolledExtends | src/Splunk.Client/Splunk/Client/Job.cs:692-696 | A refresh that reads an entry, taken while the state is below the required one, extends the poll by one round |
| Jobs.PolledResumes | src/Splunk.Client/Splunk/Client/Job.cs:692-696 | A poll that has made some rounds continues exactly as a poll started where those rounds left off |
| Jobs.AwaitStateSteps | src/Splunk.Client/Splunk/Client/Job.cs:692-696 | A refresh that reads an entry while the state is below the target is the poll's first round, and the poll goes on from that entry |
| Jobs.PolledEnds | src/Splunk.Client/Splunk/Client/Job.cs:692-696 | A poll that reaches an unreadable state, or one not below the target, ends there with that state's error or none, and the rounds made so far |
| Jobs.EntryRound | src/Splunk.Client/Splunk/Client/Job.cs:692-696 | A 200 entry answer while the state is below the target is one round of one GET, and it moves the poll to that entry |
| Jobs.PollLogOfFirstAttempts | src/Splunk.Client/Splunk/Client/Job.cs:694-695 | Three refreshes that succeed at once log a pause and one GET each |
| Jobs.AwaitDoneFromQueued | src/Splunk.Client/Splunk/Client/Job.cs:690-697 | From `Queued`, with entries in `Parsing`, `Running` and `Done`, waiting for `Done` makes three refreshes. It logs pause, GET three times and ends on the `Done` entry with every response consumed |
| Jobs.Job.AwaitRound | src/Splunk.Client/Splunk/Client/Job.cs:694-695 | One pass of the loop logs a pause and then one refresh. It either extends the poll or ends it with the refresh's error |
| Jobs.Job.TransitionAsync | src/Splunk.Client/Splunk/Client/Job.cs:690-697 | The loop's error, snapshot, unread responses and log are those of `AwaitState`. Without error, the state read afterwards is at least the required one |
| Http.ExpectStatus | src/Splunk.Client/Splunk/Client/Job.cs:438 | A response is accepted exactly when the exchange succeeded with the expected status. Any other status is an error carrying it |
| Jobs.Int32ToString | src/Splunk.Client/Splunk/Client/Job.cs:583 | The printed integer is non-empty and starts with a minus sign exactly when it is negative |
| Jobs.Int32ToStringInjective | src/Splunk.Client/Splunk/Client/Job.cs:599 | Distinct integers print differently |
| Jobs.ControlArguments | src/Splunk.Client/Splunk/Client/Job.cs:491-645 | Every command's list starts with `action=<its name>`. Exactly the priority, setttl and touch commands add a second argument |
| Jobs.ActionName | src/Splunk.Client/Splunk/Client/Job.cs:491-645 | Every command's `action` value is a non-empty word of lower-case letters and underscores |
| Jobs.ControlArgumentsInjective | src/Splunk.Client/Splunk/Client/Job.cs:491-645 | Different commands, or one command with different parameters, post different argument lists |
| Jobs.SetTtlArguments | src/Splunk.Client/Splunk/Client/Job.cs:592-601 | `SetTtlAsync(600)` posts `action=setttl` and `ttl=600` |
| Jobs.Job.PostControlCommand | src/Splunk.Client/Splunk/Client/Job.cs:680-688 | One POST of exactly the given arguments to `<job>/control`, succeeding only on 200 |
| Jobs.Job.Control | src/Splunk.Client/Splunk/Client/Job.cs:491-645 | Each command first waits for `Running` as `AwaitState` does. An error from the wait ends the command with no POST. Otherwise there is exactly one POST of the command's arguments to `<job>/control`, and the command succeeds only on 200 |
| Jobs.RequiredState | src/Splunk.Client/Splunk/Client/Job.cs:449-481 | Results and events wait for `Done`; the preview waits only for `Running` |
| Jobs.ResultsEndpoint | src/Splunk.Client/Splunk/Client/Job.cs:449-481 | Each retrieval names a non-empty sub-resource, and only the preview reads `results_preview` |
| Jobs.Job.GetSearchResults | src/Splunk.Client/Splunk/Client/Job.cs:663-671 | Retrieval waits for the kind's required state. An error from the wait ends it with no request. Otherwise one GET of `<job>/<results or events or results_preview>` with the arguments follows, and its response is returned unchecked |
| Jobs.Job.RemoveAsync | src/Splunk.Client/Splunk/Client/Job.cs:434-440 | One DELETE of the job, with no state awaited, succeeding only on 200 |
| Jobs.Job.UpdateJobArgs | src/Splunk.Client/Splunk/Client/Job.cs:647-653 | One POST of the arguments to the job itself, with no state awaited, succeeding only on 200 |
| Resources.GetRaw | src/Splunk.Client/Splunk/Client/Refactored/Resource.cs:230-233 | The untyped lookup gives the member's value, or null when there is none |
| Resources.GetTyped | src/Splunk.Client/Splunk/Client/Refactored/Resource.cs:255-258 | An absent member gives the converter's default. A present one gives its converted value. `InvalidData` exactly when the conversion fails |
| Resources.ContentBag | src/Splunk.Client/Splunk/Client/Refactored/Resource.cs:295-312 | Object content is its own bag. Any other content gives a bag with at most the member `Value`, present exactly when the content is not null, and holding the content |
| Resources.EntryBag | src/Splunk.Client/Splunk/Client/Refactored/Resource.cs:295-324 | An entry's bag has the content bag's members, plus `Published` exactly when the entry has a published date |
| Resources.EntryBagWrapsContent | src/Splunk.Client/Splunk/Client/Refactored/Resource.cs:295-312 | Null content gives an empty bag. Object content is the bag itself. Any other content becomes a bag whose one member `Value` holds it. `Published` is the only possible addition in each case |
| Resources.PublishedInjectedIff | src/Splunk.Client/Splunk/Client/Refactored/Resource.cs:321-324 | `Published` is set exactly when the entry has a published date other than the least one, and no other member changes |
| Resources.AsWrittenGuardRejectsFreshResource | src/Splunk.Client/Splunk/Client/Refactored/Resource.cs:441-447 | The guard as written refuses the first `Initialize` of a resource whose adapter slot holds `ExpandoAdapter.Empty`; the intended guard admits it |
| Resources.EnsureUninitializedAsWritten | src/Splunk.Client/Splunk/Client/Refactored/Resource.cs:441-447 | The guard as written refuses exactly when the adapter slot is not null |
| Resources.EnsureUninitialized | src/Splunk.Client/Splunk/Client/Refactored/Resource.cs:441-447 | The intended guard refuses, with `InvalidOperation`, exactly when the slot holds an adapter that `Initialize` built |
| Resources.InitializeAtMostOnce | src/Splunk.Client/Splunk/Client/Refactored/Resource.cs:441-447 | The intended guard admits a resource never initialized and refuses every initialized one |
| Resources.Resource.constructor | src/Splunk.Client/Splunk/Client/Refactored/Resource.cs:74-75 | The default constructor leaves no metadata and the empty adapter |
| Resources.Resource.Missing | src/Splunk.Client/Splunk/Client/Refactored/Resource.cs:427-439 | The sentinel has null author, id, version and title, empty links and the least date |
| Resources.Resource.FromEntry | src/Splunk.Client/Splunk/Client/Refactored/Resource.cs:50-53 | `new Resource(entry, v)` holds exactly that entry's snapshot |
| Resources.Resource.FromFeed | src/Splunk.Client/Splunk/Client/Refactored/Resource.cs:61-64 | `new Resource(feed)` holds exactly that feed's snapshot, and its children are new objects |
| Resources.Resource.Initialize | src/Splunk.Client/Splunk/Client/Refactored/Resource.cs:289-325 | An initialized resource is refused and left untouched. Otherwise it holds the entry's metadata, the generator version it was given, and the entry's bag |
| Resources.Resource.NewChildren | src/Splunk.Client/Splunk/Client/Refactored/Resource.cs:369-375 | One new resource per entry, in entry order, each holding its entry's snapshot under the feed's version, all distinct |
| Resources.Resource.InitializeFromFeed | src/Splunk.Client/Splunk/Client/Refactored/Resource.cs:350-378 | An initialized resource is refused and left untouched. Otherwise it holds the feed's metadata and a bag of exactly `Messages`, `Pagination` and `Resources`, with one distinct new child per entry in feed order |
| Resources.SingleEntryFeedChildIsEntrySnapshot | src/Splunk.Client/Splunk/Client/Refactored/Resource.cs:369-377 | A one-entry feed's child has the same identity, author, generator version, links, title, date and bag as the resource built from that entry directly |
| Resources.InitializeTwice | src/Splunk.Client/Splunk/Client/Refactored/Resource.cs:294 | On a new resource the first `Initialize` succeeds and a second one is refused with `InvalidOperation` |
| Resources.Resource.Equals | src/Splunk.Client/Splunk/Client/Refactored/Resource.cs:176-190 | Null is unequal and the same object is equal. Otherwise the result is identity equality, and comparing from a resource without identity throws |
| Resources.Resource.EqualsObject | src/Splunk.Client/Splunk/Client/Refactored/Resource.cs:160-163 | Anything that is not a resource compares unequal; a resource compares as `Equals` does |
| Resources.EqualsByIdentityOnly | src/Splunk.Client/Splunk/Client/Refactored/Resource.cs:176-190 | Equality depends on identity alone, never on content |
| Resources.EqualsSymmetric | src/Splunk.Client/Splunk/Client/Refactored/Resource.cs:176-190 | Equality between resources with identities is symmetric |
| Resources.Resource.HashCode | src/Splunk.Client/Splunk/Client/Refactored/Resource.cs:198-201 | The hash is the identity's hash, and it throws exactly when there is no identity |
| Resources.EqualResourcesHashAlike | src/Splunk.Client/Splunk/Client/Refactored/Resource.cs:176-201 | Equal resources have equal hash codes |
| Resources.Resource.ToString | src/Splunk.Client/Splunk/Client/Refactored/Resource.cs:387-390 | The text is the identity's text, and it throws exactly when there is no identity |
| Resources.Resource.GetValue | src/Splunk.Client/Splunk/Client/Refactored/Resource.cs:230-233 | The member's value, or null when the bag has no such member |
| Resources.Resource.GetTypedValue | src/Splunk.Client/Splunk/Client/Refactored/Resource.cs:244-258 | An absent member gives the converter's default. A present member that converts gives its converted value. `InvalidData` exactly when the conversion fails |
| Resources.Resource.DynamicMemberNames | src/Splunk.Client/Splunk/Client/Refactored/Resource.cs:209-212 | The names are exactly the bag's members, null-valued ones included, and every other name looks up as null |
| Resources.Resource.TryGetMember | src/Splunk.Client/Splunk/Client/Refactored/Resource.cs:412-421 | A case-insensitive binder throws `NotSupported`. Otherwise the lookup succeeds exactly when the value found is not null, and then yields it |
| Endpoints.ResourceEndpoint.constructor | src/Splunk.Client/Splunk/Client/Refactored/ResourceEndpoint.cs:158 | A default endpoint is unbound and holds the `Missing` sentinel |
| Endpoints.ResourceEndpoint.Named | src/Splunk.Client/Splunk/Client/Refactored/ResourceEndpoint.cs:100-124 | The endpoint is addressed at `collection + [name]` and holds `Missing`. An empty name is refused, as the `ArgumentException` clause demands |
| Endpoints.ResourceEndpoint.Author | src/Splunk.Client/Splunk/Client/Refactored/ResourceEndpoint.cs:166-169 | Null while the snapshot is `Missing`, present once it is loaded |
| Endpoints.ResourceEndpoint.Id | src/Splunk.Client/Splunk/Client/Refactored/ResourceEndpoint.cs:172-175 | Null while the snapshot is `Missing`, present once it is loaded |
| Endpoints.ResourceEndpoint.GeneratorVersion | src/Splunk.Client/Splunk/Client/Refactored/ResourceEndpoint.cs:178-181 | Null while the snapshot is `Missing`, present once it is loaded |
| Endpoints.ResourceEndpoint.Links | src/Splunk.Client/Splunk/Client/Refactored/ResourceEndpoint.cs:185-188 | Empty while the snapshot is `Missing`, present once it is loaded |
| Endpoints.ResourceEndpoint.Title | src/Splunk.Client/Splunk/Client/Refactored/ResourceEndpoint.cs:191-194 | Null while the snapshot is `Missing`, present once it is loaded |
| Endpoints.ResourceEndpoint.Updated | src/Splunk.Client/Splunk/Client/Refactored/ResourceEndpoint.cs:197-200 | The least date while the snapshot is `Missing` |
| Endpoints.MissingReadsDefaults | src/Splunk.Client/Splunk/Client/Refactored/ResourceEndpoint.cs:381 | An endpoint holding `Missing` reads null for author, id, version and title, empty links, and the least date |
| Endpoints.FeedSnapshotReadsFeed | src/Splunk.Client/Splunk/Client/Refactored/ResourceEndpoint.cs:166-200 | An endpoint whose snapshot was made from a feed reads that feed's metadata through all six properties |
| Endpoints.ValidReadsAllOrNothing | src/Splunk.Client/Splunk/Client/Refactored/ResourceEndpoint.cs:163-200 | An endpoint holding `Missing` or a loaded snapshot reads either every default or a value for every nullable property |
| Endpoints.ResourceEndpoint.BindIdentity | src/Splunk.Client/Splunk/Client/Refactored/ResourceEndpoint.cs:266 | An unbound endpoint is bound to the session and the id. A bound one is refused with `InvalidOperation` and left as it was |
| Endpoints.ResourceEndpoint.ReconstructSnapshot | src/Splunk.Client/Splunk/Client/Refactored/ResourceEndpoint.cs:333-340 | As its documentation intends, the snapshot is replaced by a new resource holding the entry; the code as written cannot do this, as the Findings record |
| Endpoints.ResourceEndpoint.ReconstructSnapshotFromFeed | src/Splunk.Client/Splunk/Client/Refactored/ResourceEndpoint.cs:342-349 | As its documentation intends, the snapshot is replaced by a new resource holding the feed; the code as written cannot do this, as the Findings record |
| Endpoints.ResourceEndpoint.Initialize | src/Splunk.Client/Splunk/Client/Refactored/ResourceEndpoint.cs:264-268 | The identity is bound from the entry's id, then the snapshot is rebuilt from that same entry, so all six properties read the entry. An initialized endpoint is refused before its snapshot is touched. This is the intended behaviour; the Findings give the code as written |
| Endpoints.ResourceEndpoint.InitializeAsWritten | src/Splunk.Client/Splunk/Client/Refactored/ResourceEndpoint.cs:264-268 | As the code stands: only the identity is bound, and the private `snapshot` (line 381) is left where it was, since no member of the class assigns it |
| Endpoints.ResourceEndpoint.InitializeFromFeed | src/Splunk.Client/Splunk/Client/Refactored/ResourceEndpoint.cs:302 | The identity is bound from the feed's id, then the snapshot is rebuilt from the feed. An initialized endpoint is refused and left untouched |
| Endpoints.ResourceEndpoint.CreateAsync | src/Splunk.Client/Splunk/Client/Refactored/ResourceEndpoint.cs:221-230 | One new endpoint, initialized once from the feed: bound to the session and the feed's id, holding the feed's snapshot |
| Endpoints.InitializeOnce | src/Splunk.Client/Splunk/Client/Refactored/ResourceEndpoint.cs:264-268 | A second `Initialize` of an endpoint is refused and leaves the first entry's snapshot in place |
| Endpoints.AsWrittenInitializeKeepsMissing | src/Splunk.Client/Splunk/Client/Refactored/ResourceEndpoint.cs:264-268 | As the code stands, an endpoint initialized from an entry still reads null for title and id, although the entry carries both |

## Left out

- Transport, XML and time:
  - The HTTP transport and XML reading are left out. A response is a status and what its body reads as (a feed, an entry, or no element), and the session answers from a script.
  - A request on an exhausted script fails with a transport error. That error is not a request error, so it is never retried.
  - `Task.Delay(500)` is a `Delay` event in a ghost log, not a duration.
  - Response disposal is left out.
- Concurrency: the `volatile` snapshot field, concurrent readers and `async` scheduling are not modelled; every operation runs to completion in sequence.
- Search results: `SearchResults` creation and iteration are left out. `Jobs.Job.GetSearchResults` returns the raw response that would be handed to that reader.
- Job snapshots and the dispatch state:
  - `EntitySnapshot` and the `Entity<TEntity>` base class are not part of this model. A job's snapshot is either nothing or one entry, and its attributes are the entry's content bag.
  - The `DispatchState` enum is not part of this model. It is assumed to be ordered `NoState`, `Queued`, `Parsing`, `Running`, `Paused`, `Finalizing`, `Done`, `Failed`, compared by that rank. `NoState`, and `Failed` ranking after `Done`, are assumptions.
  - The converters are parameters.
- Jobs.Job.GetValue: one generic lookup stands for the dozens of typed getters. Floating-point and date-valued properties get no property of their own.
- The discarded `Trim()` loop over a feed's entry titles in `GetAsync` has no effect and is not modelled.
- The message text of `RequestException` is not modelled; only its status code is.
- Jobs.Int32ToString: prints with an ASCII minus sign, as the invariant culture does; a culture-specific negative sign is not modelled.
- Resources.Resource.Missing: every endpoint gets its own copy of the sentinel. The sharing of one static object between endpoints, and any aliasing through it, is not modelled.
- `ExpandoAdapter` internals and the dynamic binder beyond a name lookup are left out. An adapter is the empty one or one over a bag, and a binder is a name and a case-sensitivity flag.
- Dates are opaque, ordered tick counts; no date parsing is modelled.
- The `Endpoint` base class is not part of this model.
  - Binding an endpoint's identity (`Endpoint.Initialize(context, id)`) is modelled as recording the session and the id, and refusing an endpoint already bound. This is what the `InvalidOperationException` clause of the initialization documentation describes.
  - Deriving a namespace and a resource name from the id is not modelled.
- The abstract members of `ResourceEndpoint` are given concrete behaviour.
  - `Endpoints.ResourceEndpoint.ReconstructSnapshot` and `Endpoints.ResourceEndpoint.ReconstructSnapshotFromFeed` replace the snapshot with a new `Resource` built from the entry or feed. This is an assumption that the source makes unreachable: `snapshot` is private to `ResourceEndpoint` and no member of it assigns the field. `Endpoints.ResourceEndpoint.InitializeAsWritten` models the code as it stands, and the Findings record the gap.
  - `Endpoints.ResourceEndpoint.InitializeFromFeed` binds the identity from the feed's id and then rebuilds the snapshot.
  - The `Resource`-based `Initialize` and `ReconstructSnapshot` overloads and `ReconstructSnapshotAsync` are not modelled.
  - The `(service, name)`, `(context, ns, resourceName)` and `(context, feed)` constructors are not modelled.
- Jobs.Job.constructor: the `ArgumentOutOfRangeException` for a namespace that is not specific is not modelled. `Namespace` is a plain user and app pair here, with no wildcard, because the `Namespace` class is not part of this model.
- Endpoints.ResourceEndpoint.Named: the `ArgumentOutOfRangeException` for a namespace that is not specific is not modelled, for the same reason.
- Resources.Resource.Equals: identities are compared by their text. `System.Uri` equality ignores the fragment and user info and compares scheme and host case-insensitively, so two ids the model calls different can be equal in the source. The same holds for `Resources.EqualsByIdentityOnly`, `Resources.Resource.HashCode` and `Resources.Resource.ToString`, whose `Uri.ToString` gives the unescaped canonical form rather than the text as given.
- Resources.Resource.Initialize: the source writes `Published` into the entry's own content object, so the entry and the resource share one bag. The model's values are copies, so that aliasing is not modelled; only the resource's bag gains `Published`.
- Null-argument checks (`ArgumentNullException`) are not modelled, because Dafny values here are never null. `Endpoints.ResourceEndpoint.Named` requires a non-empty name, as its `ArgumentException` clause demands.
- The static `CreateAsync` of `Resource` is not modelled; it reads a feed and calls `Initialize(feed)` on a new resource, which `Resources.Resource.FromFeed` covers.

## Findings

| source | as written | input that shows it | evidently intended | confidence | as-written member | corrected member |
|---|---|---|---|---|---|---|
| src/Splunk.Client/Splunk/Client/Refactored/ResourceEndpoint.cs:264-268 | `snapshot` (line 381) is private to `ResourceEndpoint`, and no member of the class assigns it. `ReconstructSnapshot` is abstract, so no override in a subclass can replace the field. After `Initialize`, all six properties still read `Missing` | an endpoint made by the default constructor, then `Initialize(context, entry, v)`, then `Title` | `ReconstructSnapshot` replaces the snapshot with the resource made from the entry, so the properties read the entry | not executed | Endpoints.AsWrittenInitializeKeepsMissing | Endpoints.ResourceEndpoint.Initialize |
| src/Splunk.Client/Splunk/Client/Refactored/Resource.cs:441-447 | `EnsureUninitialized` throws whenever the adapter slot is not null, but the slot starts as `ExpandoAdapter.Empty` (line 428). Every `Initialize` of a resource made by the default constructor is therefore refused, as long as `Empty` is a non-null instance | a resource made by `new Resource()` and then `Initialize(entry, v)` | Refuse only a resource that an earlier `Initialize` filled in, so the first call succeeds and later ones throw | not executed | Resources.AsWrittenGuardRejectsFreshResource | Resources.InitializeAtMostOnce |
