/** The part of the Docker engine that the package builder drives, as an
    abstract state: the images the engine lists (each with its label map) and
    the containers that have been started and not yet removed. Every call the
    builder makes is appended to a trace, so that the order of calls can be
    stated. How a container ends (its `Error` and `StatusCode`, or a wait
    that times out) is not decided here: it is an input of `Wait`. */
module Docker {
  import opened Wrappers

  datatype Mode = RO | RW

  /** One entry of a `volumes` dictionary: `{'bind': …, 'mode': …}`. */
  datatype Mount = Mount(bind: string, mode: Mode)

  /** What a container is started from: an image name or an image object. */
  datatype ImageRef = Named(name: string) | ById(id: nat)

  datatype Image = Image(id: nat, labels: map<string, string>)

  /** The arguments of `containers.run` that the builder passes. */
  datatype ContainerSpec = ContainerSpec(
    image: ImageRef,
    command: string,
    labels: map<string, string>,
    volumes: map<string, Mount>)

  /** The dictionary `container.wait()` returns; a missing key is `None`. */
  datatype ExitStatus = ExitStatus(error: Option<string>, statusCode: Option<int>)

  /** A wait either returns an exit status or raises after its timeout. */
  datatype WaitOutcome = Exited(status: ExitStatus) | TimedOut

  datatype Call =
    | RunCall(container: nat, spec: ContainerSpec)
    | LogsCall(container: nat)
    | WaitCall(container: nat)
    | CommitCall(container: nat, image: nat)
    | RemoveCall(container: nat)
    | ListCall(filters: seq<string>)

  /** `status.get('Error') is None and status.get('StatusCode') == 0`. */
  predicate CleanExit(s: ExitStatus)
  {
    s.error.None? && s.statusCode == Some(0)
  }

  /** The text before the first `=` of a label filter, and what follows it;
      a filter without `=` only asks for the key. */
  function FilterKey(f: string): string
  {
    if f == [] || f[0] == '=' then [] else [f[0]] + FilterKey(f[1..])
  }

  function FilterValue(f: string): Option<string>
  {
    if f == [] then None
    else if f[0] == '=' then Some(f[1..])
    else FilterValue(f[1..])
  }

  /** Docker's `label` filter: `key=value` asks for that value, `key` for the
      key only. */
  predicate LabelMatches(labels: map<string, string>, f: string)
  {
    var k := FilterKey(f);
    k in labels && (FilterValue(f).None? || labels[k] == FilterValue(f).value)
  }

  predicate MatchesAll(labels: map<string, string>, filters: seq<string>)
  {
    forall i :: 0 <= i < |filters| ==> LabelMatches(labels, filters[i])
  }

  /** `images.list(filters={'label': filters})`: the images that match every
      filter, in listing order. */
  function Filtered(images: seq<Image>, filters: seq<string>): seq<Image>
  {
    if images == [] then []
    else if MatchesAll(images[0].labels, filters) then [images[0]] + Filtered(images[1..], filters)
    else Filtered(images[1..], filters)
  }

  /** The listing holds exactly the images that match every filter. */
  lemma {:induction false} FilteredExactly(images: seq<Image>, filters: seq<string>)
    ensures forall m :: m in Filtered(images, filters) <==> m in images && MatchesAll(m.labels, filters)
  {
    if images != [] {
      FilteredExactly(images[1..], filters);
      assert forall m :: m in images <==> m == images[0] || m in images[1..];
    }
  }

  /** A key without `=` followed by its value splits back into both. */
  lemma {:induction false} KeyValueFilter(k: string, v: string)
    requires '=' !in k
    ensures FilterKey(k + "=" + v) == k && FilterValue(k + "=" + v) == Some(v)
  {
    if k != [] {
      assert k[0] in k;
      assert forall ch :: ch in k[1..] ==> ch in k;
      KeyValueFilter(k[1..], v);
      assert (k + "=" + v)[1..] == k[1..] + "=" + v;
    } else {
      assert k + "=" + v == ['='] + v;
    }
  }

  lemma {:induction false} FilteredAppend(images: seq<Image>, m: Image, filters: seq<string>)
    ensures Filtered(images + [m], filters)
         == Filtered(images, filters) + (if MatchesAll(m.labels, filters) then [m] else [])
  {
    if images == [] {
      assert [] + [m] == [m];
    } else {
      assert (images + [m])[1..] == images[1..] + [m];
      FilteredAppend(images[1..], m, filters);
    }
  }

  /** The engine's state as a value, for stating what a sequence of calls
      does to it. */
  datatype EngineState = EngineState(
    images: seq<Image>,
    live: map<nat, ContainerSpec>,
    nextId: nat,
    calls: seq<Call>)
  {
    /** Identifiers are handed out from `nextId` upwards. */
    predicate Valid()
    {
      (forall id :: id in live ==> id < nextId) &&
      (forall i :: 0 <= i < |images| ==> images[i].id < nextId)
    }
  }

  class Runtime {
    var images: seq<Image>
    var live: map<nat, ContainerSpec>
    var nextId: nat
    var calls: seq<Call>

    ghost predicate Valid()
      reads this
    {
      State().Valid()
    }

    function State(): EngineState
      reads this
    {
      EngineState(images, live, nextId, calls)
    }

    constructor (images: seq<Image>, nextId: nat)
      requires forall i :: 0 <= i < |images| ==> images[i].id < nextId
      ensures Valid()
      ensures this.images == images && live == map[] && this.nextId == nextId && calls == []
    {
      this.images := images;
      live := map[];
      this.nextId := nextId;
      calls := [];
    }

    /** `containers.run(…, detach=True)`: starts a container and returns it. */
    method Run(spec: ContainerSpec) returns (id: nat)
      requires Valid()
      modifies this
      ensures Valid()
      ensures id == old(nextId) && id !in old(live)
      ensures live == old(live)[id := spec] && nextId == old(nextId) + 1
      ensures images == old(images) && calls == old(calls) + [RunCall(id, spec)]
    {
      id := nextId;
      live := live[id := spec];
      nextId := nextId + 1;
      calls := calls + [RunCall(id, spec)];
    }

    /** `container.logs(…)`: reading the output changes nothing. */
    method Logs(id: nat)
      requires id in live
      modifies this`calls
      ensures calls == old(calls) + [LogsCall(id)]
    {
      calls := calls + [LogsCall(id)];
    }

    /** `container.wait(timeout=…)`: how it ends is the input `outcome`. */
    method Wait(id: nat, outcome: WaitOutcome) returns (r: WaitOutcome)
      requires id in live
      modifies this`calls
      ensures r == outcome && calls == old(calls) + [WaitCall(id)]
    {
      calls := calls + [WaitCall(id)];
      r := outcome;
    }

    /** `container.commit()`: a new image carrying the container's labels. */
    method Commit(id: nat) returns (image: Image)
      requires Valid() && id in live
      modifies this
      ensures Valid()
      ensures image == Image(old(nextId), old(live)[id].labels)
      ensures images == old(images) + [image] && nextId == old(nextId) + 1
      ensures live == old(live) && calls == old(calls) + [CommitCall(id, image.id)]
    {
      image := Image(nextId, live[id].labels);
      images := images + [image];
      nextId := nextId + 1;
      calls := calls + [CommitCall(id, image.id)];
    }

    /** `container.remove()`. */
    method Remove(id: nat)
      requires Valid() && id in live
      modifies this`live, this`calls
      ensures Valid()
      ensures live == old(live) - {id} && calls == old(calls) + [RemoveCall(id)]
    {
      live := live - {id};
      calls := calls + [RemoveCall(id)];
    }

    /** `images.list(filters={'label': filters})`. */
    method ListImages(filters: seq<string>) returns (r: seq<Image>)
      modifies this`calls
      ensures r == Filtered(images, filters) && calls == old(calls) + [ListCall(filters)]
    {
      r := Filtered(images, filters);
      calls := calls + [ListCall(filters)];
    }
  }
}
