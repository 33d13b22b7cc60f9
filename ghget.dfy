/** The earlier tag resolver (ghget.py): `'?'` picks the greatest version
    of an ascending sort, and any other tag is looked up by exact name. The
    GitHub API, `Version` and `version_compare` are replaced as in `Batch`;
    here `Version` is only applied on the `'?'` path. */
module Ghget {
  import opened Wrappers
  import opened Versions
  import Batch

  /** `ValueError` (no tags, or an invalid version string) and the
      `IndexError` of `[0]` on an empty filter, which cannot happen. */
  datatype ResolveError = NoTags | InvalidVersion | IndexError

  datatype JobState = JobState(tag: string, tarballUrl: string)

  /** `map(lambda t: t.name, tags)`. */
  function Names(tags: seq<Batch.Tag>): (ns: seq<string>)
    ensures |ns| == |tags| && forall k :: 0 <= k < |tags| ==> ns[k] == tags[k].name
  {
    if tags == [] then [] else [tags[0].name] + Names(tags[1..])
  }

  /** `list(filter(lambda t: t.name == name, tags))`. */
  function WithName(tags: seq<Batch.Tag>, name: string): seq<Batch.Tag>
  {
    if tags == [] then []
    else if tags[0].name == name then [tags[0]] + WithName(tags[1..], name)
    else WithName(tags[1..], name)
  }

  /** The filter starts with the first tag of that name. */
  lemma {:induction false} WithNameHead(tags: seq<Batch.Tag>, name: string)
    requires Batch.HasName(tags, name)
    ensures |WithName(tags, name)| > 0
    ensures exists k :: 0 <= k < |tags| && tags[k] == WithName(tags, name)[0] && tags[k].name == name &&
                        forall j :: 0 <= j < k ==> tags[j].name != name
  {
    if tags[0].name != name {
      var k :| 0 <= k < |tags| && tags[k].name == name;
      assert tags[1..][k - 1].name == name;
      WithNameHead(tags[1..], name);
      var i :| 0 <= i < |tags[1..]| && tags[1..][i] == WithName(tags[1..], name)[0] && tags[1..][i].name == name
        && forall j :: 0 <= j < i ==> tags[1..][j].name != name;
      assert tags[i + 1] == tags[1..][i];
      forall j | 0 <= j < i + 1
        ensures tags[j].name != name
      {
        if j > 0 {
          assert tags[j] == tags[1..][j - 1];
        }
      }
    }
  }

  /** The `for t in tags` loop: every tag of that name overwrites the URL. */
  function ScanEqual(tags: seq<Batch.Tag>, name: string, url: string): string
  {
    if tags == [] then url
    else if tags[|tags| - 1].name == name then tags[|tags| - 1].tarballUrl
    else ScanEqual(tags[..|tags| - 1], name, url)
  }

  /** The URL of the last tag of that name; the old URL if there is none. */
  lemma {:induction false} ScanEqualLast(tags: seq<Batch.Tag>, name: string, url: string)
    ensures !Batch.HasName(tags, name) ==> ScanEqual(tags, name, url) == url
    ensures Batch.HasName(tags, name) ==>
      exists k :: 0 <= k < |tags| && tags[k].name == name && ScanEqual(tags, name, url) == tags[k].tarballUrl
        && forall j :: k < j < |tags| ==> tags[j].name != name
  {
    if tags != [] && tags[|tags| - 1].name != name {
      var init := tags[..|tags| - 1];
      assert forall j :: 0 <= j < |init| ==> init[j] == tags[j];
      ScanEqualLast(init, name, url);
      if Batch.HasName(tags, name) {
        var k :| 0 <= k < |tags| && tags[k].name == name;
        assert init[k].name == name;
      }
    }
  }

  /** `Buildjob.resolve` of ghget.py: its result and the fields after it. */
  function ResolveSpec(st: JobState, tags: seq<Batch.Tag>, valid: string -> bool, le: (string, string) -> bool)
    : (Result<(), ResolveError>, JobState)
  {
    if tags == [] then (Err(NoTags), st)
    else if st.tag == "?" then
      if !Batch.AllValid(tags, valid) then (Err(InvalidVersion), st) else LatestSpec(st, tags, le)
    else (Ok(()), st.(tarballUrl := ScanEqual(tags, st.tag, st.tarballUrl)))
  }

  /** The `'?'` path once every name is a valid version. */
  function LatestSpec(st: JobState, tags: seq<Batch.Tag>, le: (string, string) -> bool): (Result<(), ResolveError>, JobState)
    requires tags != []
  {
    var versions := Sort(Names(tags), le);
    SortedNamesLength(tags, le);
    var latest := versions[|versions| - 1];
    var hits := WithName(tags, latest);
    if hits == [] then (Err(IndexError), JobState(latest, st.tarballUrl))
    else (Ok(()), JobState(latest, hits[0].tarballUrl))
  }

  lemma SortedNamesLength(tags: seq<Batch.Tag>, le: (string, string) -> bool)
    ensures |Sort(Names(tags), le)| == |tags|
  {
    SortPermutes(Names(tags), le);
    assert |multiset(Sort(Names(tags), le))| == |multiset(Names(tags))|;
  }

  /** No tags raise `ValueError` and change nothing. */
  lemma NoTagsRaise(st: JobState, valid: string -> bool, le: (string, string) -> bool)
    ensures ResolveSpec(st, [], valid, le) == (Err(NoTags), st)
  {
  }

  /** `'?'` takes a greatest version, and the URL of the first tag carrying
      it: the filter is never empty. */
  lemma LatestResolves(st: JobState, tags: seq<Batch.Tag>, valid: string -> bool, le: (string, string) -> bool)
    requires TotalPreorder(le) && tags != [] && Batch.AllValid(tags, valid) && st.tag == "?"
    ensures var (r, st') := ResolveSpec(st, tags, valid, le);
      && r == Ok(()) && Batch.HasName(tags, st'.tag)
      && (forall v :: Batch.HasName(tags, v) ==> le(v, st'.tag))
      && exists k :: 0 <= k < |tags| && tags[k].name == st'.tag && st'.tarballUrl == tags[k].tarballUrl &&
                     forall j :: 0 <= j < k ==> tags[j].name != st'.tag
  {
    var ns := Names(tags);
    SortedExtremes(ns, le);
    var latest := Sort(ns, le)[|ns| - 1];
    var i :| 0 <= i < |ns| && ns[i] == latest;
    assert Batch.HasName(tags, latest) by {
      assert tags[i].name == latest;
    }
    forall v | Batch.HasName(tags, v)
      ensures le(v, latest)
    {
      var k :| 0 <= k < |tags| && tags[k].name == v;
      assert ns[k] in ns;
    }
    WithNameHead(tags, latest);
  }

  /** An explicit tag is kept as it is; the URL becomes that of the last tag
      of exactly that name, and stays what it was when no tag has the name
      (so no error is ever raised on this path). */
  lemma ExactTagResolves(st: JobState, tags: seq<Batch.Tag>, valid: string -> bool, le: (string, string) -> bool)
    requires tags != [] && st.tag != "?"
    ensures var (r, st') := ResolveSpec(st, tags, valid, le);
      && r == Ok(()) && st'.tag == st.tag
      && (!Batch.HasName(tags, st.tag) ==> st'.tarballUrl == st.tarballUrl)
      && (Batch.HasName(tags, st.tag) ==>
            exists k :: 0 <= k < |tags| && tags[k].name == st.tag && st'.tarballUrl == tags[k].tarballUrl
              && forall j :: k < j < |tags| ==> tags[j].name != st.tag)
  {
    ScanEqualLast(tags, st.tag, st.tarballUrl);
  }

  class Buildjob {
    var project: string
    var tag: string
    var architectures: seq<string>
    var tarballUrl: string

    /** The dataclass constructor; `tarball_url` defaults to `''`. */
    constructor (project: string, tag: string, architectures: seq<string>)
      ensures this.project == project && this.tag == tag && this.architectures == architectures
      ensures tarballUrl == ""
    {
      this.project := project;
      this.tag := tag;
      this.architectures := architectures;
      tarballUrl := "";
    }

    function State(): JobState
      reads this
    {
      JobState(tag, tarballUrl)
    }

    /** `resolve`, given the project's tags. */
    method Resolve(tags: seq<Batch.Tag>, valid: string -> bool, le: (string, string) -> bool)
      returns (r: Result<(), ResolveError>)
      modifies this
      ensures project == old(project) && architectures == old(architectures)
      ensures (r, State()) == ResolveSpec(old(State()), tags, valid, le)
    {
      if |tags| == 0 {
        return Err(NoTags);
      }
      if tag == "?" {
        if !Batch.AllValid(tags, valid) {
          return Err(InvalidVersion);
        }
        assert ResolveSpec(old(State()), tags, valid, le) == LatestSpec(old(State()), tags, le);
        var versions := Sort(Names(tags), le);
        SortedNamesLength(tags, le);
        var latest := versions[|versions| - 1];
        tag := latest;
        var hits := WithName(tags, latest);
        if |hits| == 0 {
          return Err(IndexError);
        }
        tarballUrl := hits[0].tarballUrl;
        return Ok(());
      }
      assert ResolveSpec(old(State()), tags, valid, le) == (Ok(()), old(State()).(tarballUrl := ScanEqual(tags, tag, old(tarballUrl))));
      var i := 0;
      while i < |tags|
        invariant 0 <= i <= |tags|
        invariant tag == old(tag) && project == old(project) && architectures == old(architectures)
        invariant tarballUrl == ScanEqual(tags[..i], tag, old(tarballUrl))
      {
        assert tags[..i + 1][..i] == tags[..i];
        if tag == tags[i].name {
          tarballUrl := tags[i].tarballUrl;
        }
        i := i + 1;
      }
      assert tags[..i] == tags;
      return Ok(());
    }
  }

  /** What `resolve` does to the job of entry `p`. */
  function EntryResolution(p: string, tagsOf: string -> seq<Batch.Tag>, valid: string -> bool,
                           le: (string, string) -> bool): (Result<(), ResolveError>, JobState)
  {
    ResolveSpec(JobState(Batch.ParseEntry(p).tag, ""), tagsOf(Batch.ParseEntry(p).project), valid, le)
  }

  /** The project-list loop of `main`: entries are parsed as in `Batch` and
      resolved in turn; the first failing resolution raises and ends the
      loop. */
  method ParseProjectList(list: seq<string>, tagsOf: string -> seq<Batch.Tag>, valid: string -> bool,
                          le: (string, string) -> bool)
    returns (r: Result<seq<Buildjob>, ResolveError>)
    ensures r.Ok? ==> |r.value| == |list|
    ensures r.Ok? ==> forall k :: 0 <= k < |list| ==>
      && r.value[k].project == Batch.ParseEntry(list[k]).project
      && r.value[k].architectures == Batch.ParseEntry(list[k]).architectures
      && (Ok(()), r.value[k].State()) == EntryResolution(list[k], tagsOf, valid, le)
    ensures r.Err? ==> exists n :: (0 <= n < |list| && EntryResolution(list[n], tagsOf, valid, le).0 == Err(r.error) &&
                                    forall k :: 0 <= k < n ==> EntryResolution(list[k], tagsOf, valid, le).0 == Ok(()))
  {
    var jobs: seq<Buildjob> := [];
    var i := 0;
    while i < |list|
      invariant 0 <= i <= |list| && |jobs| == i
      invariant forall k :: 0 <= k < i ==>
        && jobs[k].project == Batch.ParseEntry(list[k]).project
        && jobs[k].architectures == Batch.ParseEntry(list[k]).architectures
        && (Ok(()), jobs[k].State()) == EntryResolution(list[k], tagsOf, valid, le)
    {
      var e := Batch.ParseEntry(list[i]);
      var job := new Buildjob(e.project, e.tag, e.architectures);
      var res := job.Resolve(tagsOf(e.project), valid, le);
      if res.Err? {
        return Err(res.error);
      }
      jobs := jobs + [job];
      i := i + 1;
    }
    return Ok(jobs);
  }
}
