/** Batch builds (dockerbuild/commands/batch.py): the parsing of
    `project[:tag[:arch,…]]` entries, the resolution of a tag against the
    tags of a GitHub repository, and the check of an archive's member names
    before extraction.

    The GitHub API is replaced by its answer, the list of tags of the
    project; `Version(name)` by a validity test `valid` (an invalid version
    string raises `ValueError`); `version_compare` by the total preorder
    `le`; and `re.compile(fnmatch.translate(pattern)).match(name)` by the
    predicate `matches(pattern, name)`. A `Version` is identified with its
    string. */
module Batch {
  import opened Wrappers
  import opened Strings
  import opened Versions

  /** A tag as the repository lists it. */
  datatype Tag = Tag(name: string, tarballUrl: string)

  /** `ValueError` (no tags, or an invalid version string), the
      `AttributeError` of `Version.tarball_url`, and `KeyError`. */
  datatype ResolveError = NoTags | InvalidVersion | AttributeError | KeyError

  /** The fields of a `Buildjob` that `resolve` assigns. */
  datatype JobState = JobState(tag: string, version: Option<string>, tarballUrl: Option<string>)

  predicate AllValid(tags: seq<Tag>, valid: string -> bool)
  {
    forall k :: 0 <= k < |tags| ==> valid(tags[k].name)
  }

  /** The keys of `{Version(t.name): t.tarball_url for t in tags}` in
      insertion order: every name once, where it first occurs. */
  function Keys(tags: seq<Tag>): seq<string>
  {
    if tags == [] then []
    else
      var k := Keys(tags[..|tags| - 1]);
      var name := tags[|tags| - 1].name;
      if name in k then k else k + [name]
  }

  /** The values of that dictionary: a later tag of the same name wins. */
  function Urls(tags: seq<Tag>): map<string, string>
  {
    if tags == [] then map[]
    else Urls(tags[..|tags| - 1])[tags[|tags| - 1].name := tags[|tags| - 1].tarballUrl]
  }

  /** `sorted(versions.keys(), key=cmp_to_key(version_compare), reverse=True)`. */
  function Descending(tags: seq<Tag>, le: (string, string) -> bool): seq<string>
  {
    Sort(Keys(tags), Flip(le))
  }

  /** Some tag carries the name `v`. */
  predicate HasName(tags: seq<Tag>, v: string)
  {
    exists k :: 0 <= k < |tags| && tags[k].name == v
  }

  /** The keys, and the names with a URL, are exactly the tag names. */
  lemma {:induction false} KeysAndUrls(tags: seq<Tag>)
    ensures forall v :: v in Keys(tags) <==> HasName(tags, v)
    ensures forall v :: v in Urls(tags) <==> HasName(tags, v)
    ensures |tags| > 0 ==> |Keys(tags)| > 0
  {
    if tags != [] {
      var init := tags[..|tags| - 1];
      var last := tags[|tags| - 1];
      KeysAndUrls(init);
      forall v
        ensures HasName(tags, v) <==> HasName(init, v) || v == last.name
      {
        if HasName(tags, v) {
          var k :| 0 <= k < |tags| && tags[k].name == v;
          if k < |init| {
            assert init[k].name == v;
          }
        }
        if HasName(init, v) {
          var k :| 0 <= k < |init| && init[k].name == v;
          assert tags[k].name == v;
        }
      }
    }
  }

  /** A later tag of a name replaces the URL of an earlier one. */
  lemma {:induction false} UrlsLastWins(tags: seq<Tag>, k: nat)
    requires k < |tags| && forall j :: k < j < |tags| ==> tags[j].name != tags[k].name
    ensures tags[k].name in Urls(tags) && Urls(tags)[tags[k].name] == tags[k].tarballUrl
  {
    if k < |tags| - 1 {
      var init := tags[..|tags| - 1];
      assert init[k] == tags[k];
      UrlsLastWins(init, k);
    }
  }

  /** A list sorted by `Flip(le)` starts with a greatest element. */
  lemma HeadIsGreatest(vs: seq<string>, le: (string, string) -> bool)
    requires TotalPreorder(le) && SortedBy(vs, Flip(le)) && vs != []
    ensures forall v :: v in vs ==> le(v, vs[0])
  {
    forall v | v in vs
      ensures le(v, vs[0])
    {
      var j :| 0 <= j < |vs| && vs[j] == v;
      assert le(v, v);
      if j > 0 {
        assert Flip(le)(vs[0], vs[j]);
      }
    }
  }

  /** The descending list holds exactly the tag names, each with a URL, and
      starts with a greatest one. */
  lemma DescendingProperties(tags: seq<Tag>, le: (string, string) -> bool)
    requires TotalPreorder(le)
    ensures |tags| > 0 ==> |Descending(tags, le)| > 0
    ensures forall v :: v in Descending(tags, le) <==> HasName(tags, v)
    ensures forall k :: 0 <= k < |Descending(tags, le)| ==> Descending(tags, le)[k] in Urls(tags)
    ensures SortedBy(Descending(tags, le), Flip(le))
    ensures |tags| > 0 ==> forall v :: HasName(tags, v) ==> le(v, Descending(tags, le)[0])
  {
    var d := Descending(tags, le);
    KeysAndUrls(tags);
    SortPermutes(Keys(tags), Flip(le));
    FlipIsTotalPreorder(le);
    SortSorted(Keys(tags), Flip(le));
    assert forall v :: v in d <==> v in multiset(d);
    assert forall v :: v in Keys(tags) <==> v in multiset(Keys(tags));
    assert forall k :: 0 <= k < |d| ==> d[k] in d;
    if |tags| > 0 {
      assert |multiset(d)| == |multiset(Keys(tags))|;
      HeadIsGreatest(d, le);
    }
  }

  /** The fields after version `vs[i]` has been taken. */
  function Resolved(vs: seq<string>, urls: map<string, string>, i: nat): JobState
    requires i < |vs| && vs[i] in urls
  {
    JobState(vs[i], Some(vs[i]), Some(urls[vs[i]]))
  }

  /** The `for v in sorted_versions` loop without `break`: every matching
      version overwrites the fields. */
  function ScanMatches(vs: seq<string>, urls: map<string, string>, pattern: string,
                       matches: (string, string) -> bool, st: JobState): JobState
    requires forall k :: 0 <= k < |vs| ==> vs[k] in urls
  {
    if vs == [] then st
    else
      var before := ScanMatches(vs[..|vs| - 1], urls, pattern, matches, st);
      if matches(pattern, vs[|vs| - 1]) then Resolved(vs, urls, |vs| - 1) else before
  }

  /** The last matching version. */
  function LastMatch(vs: seq<string>, pattern: string, matches: (string, string) -> bool): (r: Option<nat>)
    ensures r.Some? ==> r.value < |vs| && matches(pattern, vs[r.value])
                        && forall j :: r.value < j < |vs| ==> !matches(pattern, vs[j])
    ensures r.None? ==> forall j :: 0 <= j < |vs| ==> !matches(pattern, vs[j])
  {
    if vs == [] then None
    else if matches(pattern, vs[|vs| - 1]) then Some(|vs| - 1)
    else
      var init := vs[..|vs| - 1];
      assert forall j :: 0 <= j < |init| ==> init[j] == vs[j];
      LastMatch(init, pattern, matches)
  }

  /** The first matching version, where a `break` would stop the loop. */
  function FirstMatch(vs: seq<string>, pattern: string, matches: (string, string) -> bool): (r: Option<nat>)
    ensures r.Some? ==> r.value < |vs| && matches(pattern, vs[r.value])
                        && forall j :: 0 <= j < r.value ==> !matches(pattern, vs[j])
    ensures r.None? ==> forall j :: 0 <= j < |vs| ==> !matches(pattern, vs[j])
  {
    if vs == [] then None
    else if matches(pattern, vs[0]) then Some(0)
    else
      match FirstMatch(vs[1..], pattern, matches)
      case None => None
      case Some(i) => Some(i + 1)
  }

  /** The loop without `break` leaves the fields alone when nothing matches
      and otherwise ends on the last match. */
  lemma {:induction false} ScanIsLastMatch(vs: seq<string>, urls: map<string, string>, pattern: string,
                                           matches: (string, string) -> bool, st: JobState)
    requires forall k :: 0 <= k < |vs| ==> vs[k] in urls
    ensures ScanMatches(vs, urls, pattern, matches, st)
         == match LastMatch(vs, pattern, matches)
            case None => st
            case Some(i) => Resolved(vs, urls, i)
  {
    if vs != [] && !matches(pattern, vs[|vs| - 1]) {
      var init := vs[..|vs| - 1];
      assert forall k :: 0 <= k < |init| ==> init[k] == vs[k];
      ScanIsLastMatch(init, urls, pattern, matches, st);
    }
  }

  /** In a descending list the last match is a least match … */
  lemma LastMatchIsLowest(vs: seq<string>, le: (string, string) -> bool, pattern: string,
                          matches: (string, string) -> bool)
    requires TotalPreorder(le) && SortedBy(vs, Flip(le)) && LastMatch(vs, pattern, matches).Some?
    ensures forall j :: 0 <= j < |vs| && matches(pattern, vs[j]) ==> le(vs[LastMatch(vs, pattern, matches).value], vs[j])
  {
    var i := LastMatch(vs, pattern, matches).value;
    assert le(vs[i], vs[i]);
    forall j | 0 <= j < |vs| && matches(pattern, vs[j]) && j < i
      ensures le(vs[i], vs[j])
    {
      assert Flip(le)(vs[j], vs[i]);
    }
  }

  /** … and the first match a greatest one. */
  lemma FirstMatchIsHighest(vs: seq<string>, le: (string, string) -> bool, pattern: string,
                            matches: (string, string) -> bool)
    requires TotalPreorder(le) && SortedBy(vs, Flip(le)) && FirstMatch(vs, pattern, matches).Some?
    ensures forall j :: 0 <= j < |vs| && matches(pattern, vs[j]) ==> le(vs[j], vs[FirstMatch(vs, pattern, matches).value])
  {
    var i := FirstMatch(vs, pattern, matches).value;
    assert le(vs[i], vs[i]);
    forall j | 0 <= j < |vs| && matches(pattern, vs[j]) && i < j
      ensures le(vs[j], vs[i])
    {
      assert Flip(le)(vs[i], vs[j]);
    }
  }

  /** `Buildjob.resolve` as written: its result and the fields after it. */
  function ResolveSpec(st: JobState, tags: seq<Tag>, valid: string -> bool,
                       le: (string, string) -> bool, matches: (string, string) -> bool): (Result<(), ResolveError>, JobState)
    requires TotalPreorder(le)
  {
    if tags == [] then (Err(NoTags), st)
    else if !AllValid(tags, valid) then (Err(InvalidVersion), st)
    else
      var sorted := Descending(tags, le);
      DescendingProperties(tags, le);
      if st.tag == "?" then (Err(AttributeError), st.(tag := sorted[0]))
      else
        var after := ScanMatches(sorted, Urls(tags), st.tag, matches, st);
        if after.tarballUrl.None? then (Err(KeyError), after) else (Ok(()), after)
  }

  /** `Buildjob.resolve` corrected: `'?'` takes the URL of the latest
      version from the dictionary, and a pattern takes the first (highest)
      match. */
  function ResolveCorrectedSpec(st: JobState, tags: seq<Tag>, valid: string -> bool,
                                le: (string, string) -> bool, matches: (string, string) -> bool): (Result<(), ResolveError>, JobState)
    requires TotalPreorder(le)
  {
    if tags == [] then (Err(NoTags), st)
    else if !AllValid(tags, valid) then (Err(InvalidVersion), st)
    else
      var sorted := Descending(tags, le);
      DescendingProperties(tags, le);
      if st.tag == "?" then (Ok(()), Resolved(sorted, Urls(tags), 0))
      else
        var after := match FirstMatch(sorted, st.tag, matches)
          case None => st
          case Some(i) => Resolved(sorted, Urls(tags), i);
        if after.tarballUrl.None? then (Err(KeyError), after) else (Ok(()), after)
  }

  /** No tags raise `ValueError` and change nothing. */
  lemma NoTagsRaise(st: JobState, valid: string -> bool, le: (string, string) -> bool, matches: (string, string) -> bool)
    requires TotalPreorder(le)
    ensures ResolveSpec(st, [], valid, le, matches) == (Err(NoTags), st)
    ensures ResolveCorrectedSpec(st, [], valid, le, matches) == (Err(NoTags), st)
  {
  }

  /** As written, `'?'` sets `tag` to a greatest version and then raises
      `AttributeError`, because a `Version` has no `tarball_url`. */
  lemma LatestRaisesAttributeError(st: JobState, tags: seq<Tag>, valid: string -> bool,
                                   le: (string, string) -> bool, matches: (string, string) -> bool)
    requires TotalPreorder(le) && tags != [] && AllValid(tags, valid) && st.tag == "?"
    ensures var (r, st') := ResolveSpec(st, tags, valid, le, matches);
      && r == Err(AttributeError) && st'.version == st.version && st'.tarballUrl == st.tarballUrl
      && HasName(tags, st'.tag) && forall v :: HasName(tags, v) ==> le(v, st'.tag)
  {
    DescendingProperties(tags, le);
    assert Descending(tags, le)[0] in Descending(tags, le);
  }

  /** Corrected, `'?'` resolves to a greatest version and its URL. */
  lemma LatestResolves(st: JobState, tags: seq<Tag>, valid: string -> bool,
                       le: (string, string) -> bool, matches: (string, string) -> bool)
    requires TotalPreorder(le) && tags != [] && AllValid(tags, valid) && st.tag == "?"
    ensures var (r, st') := ResolveCorrectedSpec(st, tags, valid, le, matches);
      && r == Ok(()) && st'.version == Some(st'.tag) && st'.tag in Urls(tags)
      && st'.tarballUrl == Some(Urls(tags)[st'.tag])
      && HasName(tags, st'.tag) && forall v :: HasName(tags, v) ==> le(v, st'.tag)
  {
    DescendingProperties(tags, le);
    assert Descending(tags, le)[0] in Descending(tags, le);
  }

  /** As written, a pattern that some tag matches resolves to the LOWEST
      matching version, with that version's URL. */
  lemma PatternResolvesLowestMatch(st: JobState, tags: seq<Tag>, valid: string -> bool,
                                   le: (string, string) -> bool, matches: (string, string) -> bool)
    requires TotalPreorder(le) && tags != [] && AllValid(tags, valid) && st.tag != "?"
    requires exists k :: 0 <= k < |tags| && matches(st.tag, tags[k].name)
    ensures var (r, st') := ResolveSpec(st, tags, valid, le, matches);
      && r == Ok(()) && matches(st.tag, st'.tag) && HasName(tags, st'.tag)
      && st'.version == Some(st'.tag) && st'.tag in Urls(tags) && st'.tarballUrl == Some(Urls(tags)[st'.tag])
      && forall v :: HasName(tags, v) && matches(st.tag, v) ==> le(st'.tag, v)
  {
    var sorted := Descending(tags, le);
    DescendingProperties(tags, le);
    var k0 :| 0 <= k0 < |tags| && matches(st.tag, tags[k0].name);
    assert HasName(tags, tags[k0].name);
    var j0 :| 0 <= j0 < |sorted| && sorted[j0] == tags[k0].name;
    var i := LastMatch(sorted, st.tag, matches).value;
    ScanIsLastMatch(sorted, Urls(tags), st.tag, matches, st);
    LastMatchIsLowest(sorted, le, st.tag, matches);
    assert sorted[i] in sorted;
    forall v | HasName(tags, v) && matches(st.tag, v)
      ensures le(sorted[i], v)
    {
      var j :| 0 <= j < |sorted| && sorted[j] == v;
    }
  }

  /** Corrected, it resolves to the HIGHEST matching version. */
  lemma PatternResolvesHighestMatch(st: JobState, tags: seq<Tag>, valid: string -> bool,
                                    le: (string, string) -> bool, matches: (string, string) -> bool)
    requires TotalPreorder(le) && tags != [] && AllValid(tags, valid) && st.tag != "?"
    requires exists k :: 0 <= k < |tags| && matches(st.tag, tags[k].name)
    ensures var (r, st') := ResolveCorrectedSpec(st, tags, valid, le, matches);
      && r == Ok(()) && matches(st.tag, st'.tag) && HasName(tags, st'.tag)
      && st'.version == Some(st'.tag) && st'.tag in Urls(tags) && st'.tarballUrl == Some(Urls(tags)[st'.tag])
      && forall v :: HasName(tags, v) && matches(st.tag, v) ==> le(v, st'.tag)
  {
    var sorted := Descending(tags, le);
    DescendingProperties(tags, le);
    var k0 :| 0 <= k0 < |tags| && matches(st.tag, tags[k0].name);
    assert HasName(tags, tags[k0].name);
    var j0 :| 0 <= j0 < |sorted| && sorted[j0] == tags[k0].name;
    var i := FirstMatch(sorted, st.tag, matches).value;
    FirstMatchIsHighest(sorted, le, st.tag, matches);
    assert sorted[i] in sorted;
    forall v | HasName(tags, v) && matches(st.tag, v)
      ensures le(v, sorted[i])
    {
      var j :| 0 <= j < |sorted| && sorted[j] == v;
    }
  }

  /** A pattern that matches no tag leaves the fields alone and, on a job
      without a URL, raises `KeyError`, as written and corrected. */
  lemma NoMatchRaisesKeyError(st: JobState, tags: seq<Tag>, valid: string -> bool,
                              le: (string, string) -> bool, matches: (string, string) -> bool)
    requires TotalPreorder(le) && tags != [] && AllValid(tags, valid) && st.tag != "?" && st.tarballUrl.None?
    requires forall k :: 0 <= k < |tags| ==> !matches(st.tag, tags[k].name)
    ensures ResolveSpec(st, tags, valid, le, matches) == (Err(KeyError), st)
    ensures ResolveCorrectedSpec(st, tags, valid, le, matches) == (Err(KeyError), st)
  {
    var sorted := Descending(tags, le);
    DescendingProperties(tags, le);
    forall j | 0 <= j < |sorted|
      ensures !matches(st.tag, sorted[j])
    {
      assert sorted[j] in sorted;
      assert HasName(tags, sorted[j]);
    }
    ScanIsLastMatch(sorted, Urls(tags), st.tag, matches, st);
  }

  /** Ranks of three versions, for the example below. */
  function ExampleRank(v: string): int
  {
    if v == "1.2.0" then 0 else if v == "1.2.5" then 1 else if v == "1.3.0" then 2 else 3
  }

  const EXAMPLE_TAGS: seq<Tag> := [Tag("1.2.0", "u0"), Tag("1.3.0", "u1"), Tag("1.2.5", "u2")]
  const EXAMPLE_LE: (string, string) -> bool := (a: string, b: string) => ExampleRank(a) <= ExampleRank(b)
  /** `fnmatch` for the pattern `1.2.*`. */
  const EXAMPLE_GLOB: (string, string) -> bool := (p: string, n: string) => p == "1.2.*" && |n| >= 4 && n[..4] == "1.2."

  /** The example's order is a total preorder, and its dictionary. */
  lemma ExampleOrder()
    ensures TotalPreorder(EXAMPLE_LE)
    ensures Urls(EXAMPLE_TAGS) == map["1.2.0" := "u0", "1.3.0" := "u1", "1.2.5" := "u2"]
  {
    var tags := EXAMPLE_TAGS;
    assert tags[..2] == [Tag("1.2.0", "u0"), Tag("1.3.0", "u1")];
    assert tags[..2][..1] == [Tag("1.2.0", "u0")];
    assert Urls(tags[..2][..1]) == map["1.2.0" := "u0"];
    assert Urls(tags[..2]) == map["1.2.0" := "u0", "1.3.0" := "u1"];
  }

  /** Tags 1.2.0, 1.3.0 and 1.2.5 with the pattern `1.2.*`: as written the
      job resolves to 1.2.0 … */
  lemma ResolveExampleAsWritten(valid: string -> bool)
    requires valid("1.2.0") && valid("1.3.0") && valid("1.2.5")
    ensures TotalPreorder(EXAMPLE_LE)
    ensures ResolveSpec(JobState("1.2.*", None, None), EXAMPLE_TAGS, valid, EXAMPLE_LE, EXAMPLE_GLOB)
         == (Ok(()), JobState("1.2.0", Some("1.2.0"), Some("u0")))
  {
    ExampleOrder();
    var st := JobState("1.2.*", None, None);
    assert EXAMPLE_GLOB("1.2.*", EXAMPLE_TAGS[0].name);
    assert HasName(EXAMPLE_TAGS, "1.2.0") by { assert EXAMPLE_TAGS[0].name == "1.2.0"; }
    PatternResolvesLowestMatch(st, EXAMPLE_TAGS, valid, EXAMPLE_LE, EXAMPLE_GLOB);
    var st' := ResolveSpec(st, EXAMPLE_TAGS, valid, EXAMPLE_LE, EXAMPLE_GLOB).1;
    assert ExampleRank(st'.tag) <= 0 by {
      assert EXAMPLE_LE(st'.tag, "1.2.0");
    }
    assert st'.tag == "1.2.0";
  }

  /** … corrected to 1.2.5, and `'?'` to 1.3.0. */
  lemma ResolveExampleCorrected(valid: string -> bool)
    requires valid("1.2.0") && valid("1.3.0") && valid("1.2.5")
    ensures TotalPreorder(EXAMPLE_LE)
    ensures ResolveCorrectedSpec(JobState("1.2.*", None, None), EXAMPLE_TAGS, valid, EXAMPLE_LE, EXAMPLE_GLOB)
         == (Ok(()), JobState("1.2.5", Some("1.2.5"), Some("u2")))
  {
    ExampleOrder();
    var st := JobState("1.2.*", None, None);
    assert EXAMPLE_GLOB("1.2.*", EXAMPLE_TAGS[2].name);
    assert HasName(EXAMPLE_TAGS, "1.2.5") by { assert EXAMPLE_TAGS[2].name == "1.2.5"; }
    PatternResolvesHighestMatch(st, EXAMPLE_TAGS, valid, EXAMPLE_LE, EXAMPLE_GLOB);
    var st' := ResolveCorrectedSpec(st, EXAMPLE_TAGS, valid, EXAMPLE_LE, EXAMPLE_GLOB).1;
    assert ExampleRank(st'.tag) >= 1 by {
      assert EXAMPLE_LE("1.2.5", st'.tag);
    }
    assert st'.tag == "1.2.5" by {
      assert EXAMPLE_GLOB("1.2.*", st'.tag);
    }
  }

  /** … and, corrected, `'?'` resolves to 1.3.0. */
  lemma LatestExampleCorrected(valid: string -> bool)
    requires valid("1.2.0") && valid("1.3.0") && valid("1.2.5")
    ensures TotalPreorder(EXAMPLE_LE)
    ensures ResolveCorrectedSpec(JobState("?", None, None), EXAMPLE_TAGS, valid, EXAMPLE_LE, EXAMPLE_GLOB)
         == (Ok(()), JobState("1.3.0", Some("1.3.0"), Some("u1")))
  {
    ExampleOrder();
    assert HasName(EXAMPLE_TAGS, "1.3.0") by { assert EXAMPLE_TAGS[1].name == "1.3.0"; }
    LatestResolves(JobState("?", None, None), EXAMPLE_TAGS, valid, EXAMPLE_LE, EXAMPLE_GLOB);
    var latest := ResolveCorrectedSpec(JobState("?", None, None), EXAMPLE_TAGS, valid, EXAMPLE_LE, EXAMPLE_GLOB).1;
    assert ExampleRank(latest.tag) >= 2 by {
      assert EXAMPLE_LE("1.3.0", latest.tag);
    }
    assert latest.tag == "1.3.0" by {
      assert HasName(EXAMPLE_TAGS, latest.tag);
    }
  }

  class Buildjob {
    var project: string
    var tag: string
    var architectures: seq<string>
    var version: Option<string>
    var tarballUrl: Option<string>

    constructor (project: string, tag: string, architectures: seq<string>)
      ensures this.project == project && this.tag == tag && this.architectures == architectures
      ensures version.None? && tarballUrl.None?
    {
      this.project := project;
      this.tag := tag;
      this.architectures := architectures;
      version := None;
      tarballUrl := None;
    }

    function State(): JobState
      reads this
    {
      JobState(tag, version, tarballUrl)
    }

    /** `name`: the last `/`-separated component of the project. */
    function Name(): (n: string)
      reads this
      ensures '/' !in n && EndsWith(project, n)
      ensures |n| < |project| ==> project[|project| - |n| - 1] == '/'
      ensures '/' !in project ==> n == project
    {
      LastPieceProperties(project, '/');
      LastPiece(project, '/')
    }

    /** `resolve`, given the project's tags. */
    method Resolve(tags: seq<Tag>, valid: string -> bool, le: (string, string) -> bool, matches: (string, string) -> bool)
      returns (r: Result<(), ResolveError>)
      requires TotalPreorder(le)
      modifies this
      ensures project == old(project) && architectures == old(architectures)
      ensures (r, State()) == ResolveSpec(old(State()), tags, valid, le, matches)
    {
      if |tags| == 0 {
        return Err(NoTags);
      }
      if !AllValid(tags, valid) {
        return Err(InvalidVersion);
      }
      var versions := Urls(tags);
      var sorted := Descending(tags, le);
      DescendingProperties(tags, le);
      var latest := sorted[0];
      if tag == "?" {
        tag := latest;
        return Err(AttributeError);
      }
      var pattern := tag;
      var i := 0;
      while i < |sorted|
        invariant 0 <= i <= |sorted|
        invariant State() == ScanMatches(sorted[..i], versions, pattern, matches, old(State()))
        invariant project == old(project) && architectures == old(architectures)
      {
        var v := sorted[i];
        assert sorted[..i + 1][..i] == sorted[..i];
        if matches(pattern, v) {
          tag := v;
          tarballUrl := Some(versions[v]);
          version := Some(v);
        }
        i := i + 1;
      }
      assert sorted[..i] == sorted;
      if tarballUrl.None? {
        return Err(KeyError);
      }
      return Ok(());
    }

    /** `resolve` corrected: `versions[latest_version]` for `'?'`, and a
        `break` after the first match. */
    method ResolveCorrected(tags: seq<Tag>, valid: string -> bool, le: (string, string) -> bool, matches: (string, string) -> bool)
      returns (r: Result<(), ResolveError>)
      requires TotalPreorder(le)
      modifies this
      ensures project == old(project) && architectures == old(architectures)
      ensures (r, State()) == ResolveCorrectedSpec(old(State()), tags, valid, le, matches)
    {
      if |tags| == 0 {
        return Err(NoTags);
      }
      if !AllValid(tags, valid) {
        return Err(InvalidVersion);
      }
      var versions := Urls(tags);
      var sorted := Descending(tags, le);
      DescendingProperties(tags, le);
      var latest := sorted[0];
      if tag == "?" {
        tag := latest;
        tarballUrl := Some(versions[latest]);
        version := Some(latest);
        return Ok(());
      }
      var pattern := tag;
      var i := 0;
      while i < |sorted|
        invariant 0 <= i <= |sorted|
        invariant State() == old(State())
        invariant forall j :: 0 <= j < i ==> !matches(pattern, sorted[j])
      {
        var v := sorted[i];
        if matches(pattern, v) {
          tag := v;
          tarballUrl := Some(versions[v]);
          version := Some(v);
          break;
        }
        i := i + 1;
      }
      if tarballUrl.None? {
        return Err(KeyError);
      }
      return Ok(());
    }
  }

  /** One entry of the project list. */
  datatype Entry = Entry(project: string, tag: string, architectures: seq<string>)

  /** The body of the parsing loop for one entry, by its number of `:`. */
  function ParseEntry(p: string): Entry
  {
    var delim := Count(p, ':');
    SplitLength(p, ':');
    var parts := Split(p, ':');
    if delim == 2 then Entry(parts[0], parts[1], Split(parts[2], ','))
    else if delim == 1 then Entry(parts[0], parts[1], ["amd64"])
    else Entry(p, "?", ["amd64"])
  }

  /** Two `:` give project, tag and the comma-separated architectures, one
      `:` project and tag with `amd64`; any other count makes the whole
      entry the project, with tag `'?'` and `amd64`. The pieces join back
      into the entry. */
  lemma ParseEntryCases(p: string)
    ensures var e := ParseEntry(p);
      && (Count(p, ':') == 2 ==>
            ':' !in e.project && ':' !in e.tag && |e.architectures| >= 1
            && Join([e.project, e.tag, Join(e.architectures, ',')], ':') == p)
      && (Count(p, ':') == 1 ==>
            ':' !in e.project && ':' !in e.tag && e.architectures == ["amd64"]
            && Join([e.project, e.tag], ':') == p)
      && (Count(p, ':') != 1 && Count(p, ':') != 2 ==> e == Entry(p, "?", ["amd64"]))
  {
    var parts := Split(p, ':');
    SplitLength(p, ':');
    SplitPiecesFree(p, ':');
    JoinSplit(p, ':');
    if Count(p, ':') == 2 {
      JoinSplit(parts[2], ',');
      assert parts == [parts[0], parts[1], parts[2]];
    } else if Count(p, ':') == 1 {
      assert parts == [parts[0], parts[1]];
    }
  }

  /** What `resolve` as written does to the job of entry `p`. */
  function EntryResolution(p: string, tagsOf: string -> seq<Tag>, valid: string -> bool,
                           le: (string, string) -> bool, matches: (string, string) -> bool): (Result<(), ResolveError>, JobState)
    requires TotalPreorder(le)
  {
    ResolveSpec(JobState(ParseEntry(p).tag, None, None), tagsOf(ParseEntry(p).project), valid, le, matches)
  }

  /** What the corrected `resolve` does to the job of entry `p`. */
  function EntryResolutionCorrected(p: string, tagsOf: string -> seq<Tag>, valid: string -> bool,
                                    le: (string, string) -> bool, matches: (string, string) -> bool): (Result<(), ResolveError>, JobState)
    requires TotalPreorder(le)
  {
    ResolveCorrectedSpec(JobState(ParseEntry(p).tag, None, None), tagsOf(ParseEntry(p).project), valid, le, matches)
  }

  /** `job` is the job of entry `p` after `resolve` as written succeeded. */
  predicate JobOf(job: Buildjob, p: string, tagsOf: string -> seq<Tag>, valid: string -> bool,
                  le: (string, string) -> bool, matches: (string, string) -> bool)
    requires TotalPreorder(le)
    reads job
  {
    && job.project == ParseEntry(p).project
    && job.architectures == ParseEntry(p).architectures
    && (Ok(()), job.State()) == EntryResolution(p, tagsOf, valid, le, matches)
  }

  /** `job` is the job of entry `p` after the corrected `resolve` succeeded. */
  predicate JobOfCorrected(job: Buildjob, p: string, tagsOf: string -> seq<Tag>, valid: string -> bool,
                           le: (string, string) -> bool, matches: (string, string) -> bool)
    requires TotalPreorder(le)
    reads job
  {
    && job.project == ParseEntry(p).project
    && job.architectures == ParseEntry(p).architectures
    && (Ok(()), job.State()) == EntryResolutionCorrected(p, tagsOf, valid, le, matches)
  }

  /** An entry without `:` gets the tag `'?'`, so as written it raises
      `AttributeError` as soon as the project has valid tags. */
  lemma BareProjectRaises(p: string, tagsOf: string -> seq<Tag>, valid: string -> bool,
                          le: (string, string) -> bool, matches: (string, string) -> bool)
    requires TotalPreorder(le) && ':' !in p
    requires tagsOf(p) != [] && AllValid(tagsOf(p), valid)
    ensures EntryResolution(p, tagsOf, valid, le, matches).0 == Err(AttributeError)
    ensures EntryResolutionCorrected(p, tagsOf, valid, le, matches).0 == Ok(())
  {
    ParseEntryCases(p);
    assert Count(p, ':') == 0;
  }

  /** The project-list loop of `batch`: every entry is parsed and resolved
      in turn; the first failing resolution raises and ends the loop. */
  method ParseProjectList(list: seq<string>, tagsOf: string -> seq<Tag>, valid: string -> bool,
                          le: (string, string) -> bool, matches: (string, string) -> bool)
    returns (r: Result<seq<Buildjob>, ResolveError>)
    requires TotalPreorder(le)
    ensures r.Ok? ==> |r.value| == |list|
    ensures r.Ok? ==> forall k :: 0 <= k < |list| ==>
      && r.value[k].project == ParseEntry(list[k]).project
      && r.value[k].architectures == ParseEntry(list[k]).architectures
      && (Ok(()), r.value[k].State()) == EntryResolution(list[k], tagsOf, valid, le, matches)
    ensures r.Err? ==> exists n :: (0 <= n < |list| && EntryResolution(list[n], tagsOf, valid, le, matches).0 == Err(r.error) &&
                                    forall k :: 0 <= k < n ==> EntryResolution(list[k], tagsOf, valid, le, matches).0 == Ok(()))
  {
    var jobs: seq<Buildjob> := [];
    var i := 0;
    while i < |list|
      invariant 0 <= i <= |list| && |jobs| == i
      invariant forall k :: 0 <= k < i ==> JobOf(jobs[k], list[k], tagsOf, valid, le, matches)
    {
      var e := ParseEntry(list[i]);
      var job := new Buildjob(e.project, e.tag, e.architectures);
      var res := job.Resolve(tagsOf(e.project), valid, le, matches);
      if res.Err? {
        return Err(res.error);
      }
      jobs := jobs + [job];
      i := i + 1;
    }
    return Ok(jobs);
  }

  /** The same loop over the corrected `resolve`. */
  method ParseProjectListCorrected(list: seq<string>, tagsOf: string -> seq<Tag>, valid: string -> bool,
                                   le: (string, string) -> bool, matches: (string, string) -> bool)
    returns (r: Result<seq<Buildjob>, ResolveError>)
    requires TotalPreorder(le)
    ensures r.Ok? ==> |r.value| == |list|
    ensures r.Ok? ==> forall k :: 0 <= k < |list| ==>
      && r.value[k].project == ParseEntry(list[k]).project
      && r.value[k].architectures == ParseEntry(list[k]).architectures
      && (Ok(()), r.value[k].State()) == EntryResolutionCorrected(list[k], tagsOf, valid, le, matches)
    ensures r.Err? ==> exists n :: (0 <= n < |list| && EntryResolutionCorrected(list[n], tagsOf, valid, le, matches).0 == Err(r.error) &&
                                    forall k :: 0 <= k < n ==> EntryResolutionCorrected(list[k], tagsOf, valid, le, matches).0 == Ok(()))
  {
    var jobs: seq<Buildjob> := [];
    var i := 0;
    while i < |list|
      invariant 0 <= i <= |list| && |jobs| == i
      invariant forall k :: 0 <= k < i ==> JobOfCorrected(jobs[k], list[k], tagsOf, valid, le, matches)
    {
      var e := ParseEntry(list[i]);
      var job := new Buildjob(e.project, e.tag, e.architectures);
      var res := job.ResolveCorrected(tagsOf(e.project), valid, le, matches);
      if res.Err? {
        return Err(res.error);
      }
      jobs := jobs + [job];
      i := i + 1;
    }
    return Ok(jobs);
  }

  /** Why `checktar` rejects an archive: the `IndexError` of an empty member
      name, or the failed `assert` on a leading `/`. */
  datatype TarError = EmptyName | AbsoluteName

  /** `checktar` over the member names; the first bad member decides. A
      first character can never equal `'..'`, so only `/` is rejected. */
  function CheckTarSpec(names: seq<string>): Result<(), TarError>
  {
    if names == [] then Ok(())
    else if names[0] == [] then Err(EmptyName)
    else if names[0][0] == '/' then Err(AbsoluteName)
    else CheckTarSpec(names[1..])
  }

  /** `checktar` as the loop it is. */
  method CheckTar(names: seq<string>) returns (r: Result<(), TarError>)
    ensures r == CheckTarSpec(names)
  {
    var i := 0;
    while i < |names|
      invariant 0 <= i <= |names|
      invariant CheckTarSpec(names) == CheckTarSpec(names[i..])
    {
      assert names[i..][1..] == names[i + 1..];
      if names[i] == [] {
        return Err(EmptyName);
      }
      if names[i][0] == '/' {
        return Err(AbsoluteName);
      }
      i := i + 1;
    }
    return Ok(());
  }

  /** An archive passes exactly when no member name is empty or starts with
      `/`; so the archive is extracted only then. */
  lemma {:induction false} CheckTarIff(names: seq<string>)
    ensures CheckTarSpec(names).Ok? <==> forall k :: 0 <= k < |names| ==> names[k] != [] && names[k][0] != '/'
  {
    if names != [] {
      CheckTarIff(names[1..]);
      assert forall k :: 1 <= k < |names| ==> names[k] == names[1..][k - 1];
    }
  }

  /** As written, a member that climbs out of the extraction directory
      passes. */
  lemma ParentMemberPasses()
    ensures CheckTarSpec(["../escape"]) == Ok(())
  {
  }

  /** `checktar` with the evident intent of its blacklist: no member may
      start with `/` or with `..`. */
  function CheckTarCorrected(names: seq<string>): Result<(), TarError>
  {
    if names == [] then Ok(())
    else if names[0] == [] then Err(EmptyName)
    else if names[0][0] == '/' || StartsWith(names[0], "..") then Err(AbsoluteName)
    else CheckTarCorrected(names[1..])
  }

  /** Corrected, an archive passes exactly when no member name is empty or
      starts with `/` or `..`. */
  lemma {:induction false} CheckTarCorrectedIff(names: seq<string>)
    ensures CheckTarCorrected(names).Ok? <==>
      forall k :: 0 <= k < |names| ==> names[k] != [] && names[k][0] != '/' && !StartsWith(names[k], "..")
  {
    if names != [] {
      CheckTarCorrectedIff(names[1..]);
      assert forall k :: 1 <= k < |names| ==> names[k] == names[1..][k - 1];
    }
  }
}
