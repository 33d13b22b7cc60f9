/** The download agent (dockerbuild/download_agent.py).

    `download` prepares two callables that drop the group and the user id in
    the worker process, adjusting the destination's ownership and mode when
    the process holds `CAP_SETGID` or `CAP_SETUID`. It then refuses an
    existing destination or a parent that is not a directory, runs the worker
    in a child process, waits for it and succeeds when the worker exited with
    0 and left a regular file. The worker `__get` calls both callables,
    asserting that each returns a true value, then opens the destination and
    copies the HTTP response into it.

    The file system is a map from paths to nodes; the capabilities held
    (what `has_caps` answers), the outcome of the HTTP request and the
    identity and file mode of the child process are inputs. */
module DownloadAgent {
  import opened Wrappers

  type Path = string

  datatype Kind = Regular | Directory

  /** Mode holds the permission bits only (`st_mode & 0o7777`). */
  datatype Node = Node(kind: Kind, owner: int, group: int, mode: bv16, content: seq<bv8>)

  /** The unprivileged ids of the options namespace. */
  datatype Options = Options(unprivUid: int, unprivGid: int)

  const CAP_SETGID := "CAP_SETGID"
  const CAP_SETUID := "CAP_SETUID"

  /** `0o070` and `0o700`. */
  const GROUP_RWX: bv16 := 0x38
  const OWNER_RWX: bv16 := 0x1C0

  /** The callables handed to the worker: `lambda: True`, the lambdas
      around `os.setgid`/`os.setuid` (which return `None`), and the
      corrected lambdas that return `True` once the call succeeded. */
  datatype Callable =
    | ReturnTrue
    | SetGid(gid: int)
    | SetUid(uid: int)
    | SetGidOk(gid: int)
    | SetUidOk(uid: int)

  /** Whether the callable's return value is true. */
  predicate ReturnsTrue(c: Callable)
  {
    c.ReturnTrue? || c.SetGidOk? || c.SetUidOk?
  }

  datatype Identity = Identity(uid: int, gid: int)

  /** The identity of the process after calling `c`. */
  function Apply(c: Callable, ident: Identity): Identity
  {
    match c
    case ReturnTrue => ident
    case SetGid(g) => ident.(gid := g)
    case SetGidOk(g) => ident.(gid := g)
    case SetUid(u) => ident.(uid := u)
    case SetUidOk(u) => ident.(uid := u)
  }

  datatype FetchOutcome = Fetched(body: seq<bv8>) | FetchFailed

  /** The side effects of the worker, in the order they happen. */
  datatype Step = CalledSetGid | CalledSetUid | Opened | Requested | Copied

  const ALL_STEPS: seq<Step> := [CalledSetGid, CalledSetUid, Opened, Requested, Copied]

  /** What a worker run leaves: its exit code (an uncaught exception in a
      `multiprocessing.Process` gives 1), the steps it took and the file it
      created, if any. */
  datatype WorkerRun = WorkerRun(exitCode: int, steps: seq<Step>, file: Option<Node>)

  /** `__get` in a child process of identity `ident`; a new file gets the
      process's ids and `fileMode`. */
  function Worker(setgid: Callable, setuid: Callable, fetch: FetchOutcome, ident: Identity, fileMode: bv16): WorkerRun
  {
    if !ReturnsTrue(setgid) then WorkerRun(1, [CalledSetGid], None)
    else if !ReturnsTrue(setuid) then WorkerRun(1, [CalledSetGid, CalledSetUid], None)
    else
      var id := Apply(setuid, Apply(setgid, ident));
      var created := Node(Regular, id.uid, id.gid, fileMode, []);
      match fetch
      case FetchFailed => WorkerRun(1, [CalledSetGid, CalledSetUid, Opened, Requested], Some(created))
      case Fetched(body) => WorkerRun(0, ALL_STEPS, Some(created.(content := body)))
  }

  /** The text before the last `/`. */
  function DirName(p: Path): Path
  {
    if p == [] then []
    else if p[|p| - 1] == '/' then p[..|p| - 1]
    else DirName(p[..|p| - 1])
  }

  /** `Path.parent` of a path without repeated or trailing separators. */
  function Parent(p: Path): Path
  {
    if '/' !in p then "."
    else if DirName(p) == [] then "/"
    else DirName(p)
  }

  /** `os.chown(path, user, group)` on a node; `None` keeps that id. */
  function Chowned(n: Node, user: Option<int>, group: Option<int>): Node
  {
    n.(owner := if user.Some? then user.value else n.owner,
       group := if group.Some? then group.value else n.group)
  }

  /** `chmod(st_mode | bits)` on a node. */
  function WithBits(n: Node, bits: bv16): Node
  {
    n.(mode := n.mode | bits)
  }

  predicate IsDir(nodes: map<Path, Node>, p: Path)
  {
    p in nodes && nodes[p].kind == Directory
  }

  predicate IsFile(nodes: map<Path, Node>, p: Path)
  {
    p in nodes && nodes[p].kind == Regular
  }

  /** The exceptions `download` can end with: `shutil.chown` on a missing
      path, `shutil.chown` called with the keyword `owner`, and the
      misspelled `dedst`. */
  datatype DownloadError = FileNotFound | ChownTypeError | NameError

  datatype Revision = AsWritten | Corrected

  /** What `download` returns and leaves: its result, the file system, and
      the exit code of the worker when one was started. */
  datatype DownloadRun = DownloadRun(result: Result<bool, DownloadError>, nodes: map<Path, Node>, exitCode: Option<int>)

  /** The two callables `download` hands to the worker. */
  function Callables(rev: Revision, opts: Options, held: set<string>): (Callable, Callable)
  {
    (if CAP_SETGID !in held then ReturnTrue else if rev == AsWritten then SetGid(opts.unprivGid) else SetGidOk(opts.unprivGid),
     if CAP_SETUID !in held then ReturnTrue else if rev == AsWritten then SetUid(opts.unprivUid) else SetUidOk(opts.unprivUid))
  }

  /** The ownership and mode changes before the checks, and the exception
      that ends them, if any. As written, the group `chown` is given the
      unprivileged user id and the user `chown` raises `TypeError`. */
  function PrepareSpec(rev: Revision, opts: Options, nodes: map<Path, Node>, held: set<string>, dest: Path)
    : (Result<(), DownloadError>, map<Path, Node>)
  {
    var groupId := if rev == AsWritten then opts.unprivUid else opts.unprivGid;
    if CAP_SETGID in held && dest !in nodes then (Err(FileNotFound), nodes)
    else
      var n1 := if CAP_SETGID in held then nodes[dest := WithBits(Chowned(nodes[dest], None, Some(groupId)), GROUP_RWX)] else nodes;
      if CAP_SETUID !in held then (Ok(()), n1)
      else if rev == AsWritten then (Err(ChownTypeError), n1)
      else if dest !in n1 then (Err(FileNotFound), n1)
      else (Ok(()), n1[dest := WithBits(Chowned(n1[dest], Some(opts.unprivUid), None), OWNER_RWX)])
  }

  /** The checks, the worker run and the result, from the prepared state. */
  function SpawnSpec(rev: Revision, nodes: map<Path, Node>, dest: Path, callables: (Callable, Callable),
                     fetch: FetchOutcome, ident: Identity, fileMode: bv16): DownloadRun
  {
    if dest in nodes then DownloadRun(Ok(false), nodes, None)
    else if !IsDir(nodes, Parent(dest)) then
      DownloadRun(if rev == AsWritten then Err(NameError) else Ok(false), nodes, None)
    else
      var w := Worker(callables.0, callables.1, fetch, ident, fileMode);
      var after := if w.file.Some? then nodes[dest := w.file.value] else nodes;
      DownloadRun(Ok(w.exitCode == 0 && IsFile(after, dest)), after, Some(w.exitCode))
  }

  /** `download`, as written or corrected. The corrected revision passes the
      unprivileged group id (not the user id) to the group `chown`, uses
      `shutil.chown`'s `user` keyword, has callables that report success,
      and returns `False` for a parent that is not a directory. */
  function DownloadSpec(rev: Revision, opts: Options, nodes: map<Path, Node>, held: set<string>,
                        dest: Path, fetch: FetchOutcome, ident: Identity, fileMode: bv16): DownloadRun
  {
    var (prepared, n) := PrepareSpec(rev, opts, nodes, held, dest);
    if prepared.Err? then DownloadRun(Err(prepared.error), n, None)
    else SpawnSpec(rev, n, dest, Callables(rev, opts, held), fetch, ident, fileMode)
  }

  /** The worker's steps are a prefix of: setgid callable, setuid callable,
      open, request, copy. The destination is opened only after both
      callables returned a true value, and the exit code is 0 exactly when
      the request also succeeded. */
  lemma WorkerOrder(setgid: Callable, setuid: Callable, fetch: FetchOutcome, ident: Identity, fileMode: bv16)
    ensures var w := Worker(setgid, setuid, fetch, ident, fileMode);
      && 1 <= |w.steps| <= |ALL_STEPS| && w.steps == ALL_STEPS[..|w.steps|]
      && (w.file.Some? <==> ReturnsTrue(setgid) && ReturnsTrue(setuid))
      && (w.file.Some? <==> Opened in w.steps)
      && (w.exitCode == 0 <==> ReturnsTrue(setgid) && ReturnsTrue(setuid) && fetch.Fetched?)
      && (w.exitCode == 0 || w.exitCode == 1)
  {
    var w := Worker(setgid, setuid, fetch, ident, fileMode);
    assert ALL_STEPS[..1] == [CalledSetGid];
    assert ALL_STEPS[..2] == [CalledSetGid, CalledSetUid];
    assert ALL_STEPS[..4] == [CalledSetGid, CalledSetUid, Opened, Requested];
    assert ALL_STEPS[..5] == ALL_STEPS;
  }

  /** As written, a real privilege drop returns `None`, so the worker's
      `assert` fails before the destination is opened. */
  lemma RealDropFailsWorker(gid: int, uid: int, other: Callable, fetch: FetchOutcome, ident: Identity, fileMode: bv16)
    ensures Worker(SetGid(gid), other, fetch, ident, fileMode) == WorkerRun(1, [CalledSetGid], None)
    ensures Worker(ReturnTrue, SetUid(uid), fetch, ident, fileMode) == WorkerRun(1, [CalledSetGid, CalledSetUid], None)
  {
  }

  /** With callables that report success, the worker drops both ids and the
      file it writes belongs to the unprivileged user and group. */
  lemma CheckedDropOwnsFile(gid: int, uid: int, body: seq<bv8>, ident: Identity, fileMode: bv16)
    ensures Worker(SetGidOk(gid), SetUidOk(uid), Fetched(body), ident, fileMode)
         == WorkerRun(0, ALL_STEPS, Some(Node(Regular, uid, gid, fileMode, body)))
  {
  }

  /** `download` returns `True` exactly when no drop capability is held, the
      destination is absent, its parent is a directory and the request
      succeeds; the destination then holds the response body and belongs to
      the process. This holds of both revisions. */
  lemma SuccessIff(rev: Revision, opts: Options, nodes: map<Path, Node>, held: set<string>,
                   dest: Path, fetch: FetchOutcome, ident: Identity, fileMode: bv16)
    ensures var d := DownloadSpec(rev, opts, nodes, held, dest, fetch, ident, fileMode);
      (d.result == Ok(true))
        <==> (CAP_SETGID !in held && CAP_SETUID !in held && dest !in nodes
              && IsDir(nodes, Parent(dest)) && fetch.Fetched?)
    ensures var d := DownloadSpec(rev, opts, nodes, held, dest, fetch, ident, fileMode);
      d.result == Ok(true) ==>
        d.exitCode == Some(0) && d.nodes == nodes[dest := Node(Regular, ident.uid, ident.gid, fileMode, fetch.body)]
  {
    var d := DownloadSpec(rev, opts, nodes, held, dest, fetch, ident, fileMode);
    if CAP_SETGID !in held && CAP_SETUID !in held && dest !in nodes && IsDir(nodes, Parent(dest)) {
      assert PrepareSpec(rev, opts, nodes, held, dest) == (Ok(()), nodes);
      assert Callables(rev, opts, held) == (ReturnTrue, ReturnTrue);
    }
  }

  /** Holding either drop capability, `download` never starts the worker and
      never succeeds: a missing destination makes `chown` raise, an existing
      one is refused. */
  lemma CapsHeldNeverSpawns(rev: Revision, opts: Options, nodes: map<Path, Node>, held: set<string>,
                            dest: Path, fetch: FetchOutcome, ident: Identity, fileMode: bv16)
    requires CAP_SETGID in held || CAP_SETUID in held
    ensures var d := DownloadSpec(rev, opts, nodes, held, dest, fetch, ident, fileMode);
      d.exitCode.None? && d.result != Ok(true)
  {
  }

  /** An existing destination is refused before a worker starts; without a
      drop capability nothing is changed. */
  lemma ExistingDestRefused(rev: Revision, opts: Options, nodes: map<Path, Node>, held: set<string>,
                            dest: Path, fetch: FetchOutcome, ident: Identity, fileMode: bv16)
    requires dest in nodes && CAP_SETGID !in held && CAP_SETUID !in held
    ensures DownloadSpec(rev, opts, nodes, held, dest, fetch, ident, fileMode) == DownloadRun(Ok(false), nodes, None)
  {
  }

  /** As written, holding `CAP_SETGID` gives an existing destination the
      unprivileged USER id as its group, and group read/write/execute, even
      though the download is then refused. */
  lemma GroupChownGetsUserId(opts: Options, nodes: map<Path, Node>, held: set<string>,
                             dest: Path, fetch: FetchOutcome, ident: Identity, fileMode: bv16)
    requires CAP_SETGID in held && CAP_SETUID !in held && dest in nodes
    ensures var d := DownloadSpec(AsWritten, opts, nodes, held, dest, fetch, ident, fileMode);
      d.result == Ok(false) && d.exitCode.None?
      && d.nodes == nodes[dest := nodes[dest].(group := opts.unprivUid, mode := nodes[dest].mode | GROUP_RWX)]
  {
  }

  /** Corrected, the group of the destination becomes the unprivileged group
      id. */
  lemma GroupChownGetsGroupId(opts: Options, nodes: map<Path, Node>, held: set<string>,
                              dest: Path, fetch: FetchOutcome, ident: Identity, fileMode: bv16)
    requires CAP_SETGID in held && CAP_SETUID !in held && dest in nodes
    ensures var d := DownloadSpec(Corrected, opts, nodes, held, dest, fetch, ident, fileMode);
      d.result == Ok(false) && d.exitCode.None?
      && d.nodes == nodes[dest := nodes[dest].(group := opts.unprivGid, mode := nodes[dest].mode | GROUP_RWX)]
  {
  }

  /** As written, holding `CAP_SETUID` always ends in the `TypeError` of
      `shutil.chown(…, owner=…)`, unless the group `chown` raised first. */
  lemma OwnerChownRaisesTypeError(opts: Options, nodes: map<Path, Node>, held: set<string>,
                                  dest: Path, fetch: FetchOutcome, ident: Identity, fileMode: bv16)
    requires CAP_SETUID in held
    ensures var d := DownloadSpec(AsWritten, opts, nodes, held, dest, fetch, ident, fileMode);
      d.result == (if CAP_SETGID in held && dest !in nodes then Err(FileNotFound) else Err(ChownTypeError))
  {
  }

  /** Corrected, holding `CAP_SETUID` makes the unprivileged user the owner
      of an existing destination and gives it owner read/write/execute. */
  lemma OwnerChownSetsOwner(opts: Options, nodes: map<Path, Node>, held: set<string>,
                            dest: Path, fetch: FetchOutcome, ident: Identity, fileMode: bv16)
    requires CAP_SETUID in held && CAP_SETGID !in held && dest in nodes
    ensures var d := DownloadSpec(Corrected, opts, nodes, held, dest, fetch, ident, fileMode);
      d.result == Ok(false)
      && d.nodes == nodes[dest := nodes[dest].(owner := opts.unprivUid, mode := nodes[dest].mode | OWNER_RWX)]
  {
  }

  /** As written, a parent that is not a directory raises `NameError` (the
      misspelled `dedst`) instead of returning `False`. */
  lemma ParentCheckRaisesNameError(opts: Options, nodes: map<Path, Node>, held: set<string>,
                                   dest: Path, fetch: FetchOutcome, ident: Identity, fileMode: bv16)
    requires CAP_SETGID !in held && CAP_SETUID !in held && dest !in nodes && !IsDir(nodes, Parent(dest))
    ensures DownloadSpec(AsWritten, opts, nodes, held, dest, fetch, ident, fileMode) == DownloadRun(Err(NameError), nodes, None)
  {
  }

  /** Corrected, it returns `False` without starting the worker. */
  lemma ParentCheckReturnsFalse(opts: Options, nodes: map<Path, Node>, held: set<string>,
                                dest: Path, fetch: FetchOutcome, ident: Identity, fileMode: bv16)
    requires CAP_SETGID !in held && CAP_SETUID !in held && dest !in nodes && !IsDir(nodes, Parent(dest))
    ensures DownloadSpec(Corrected, opts, nodes, held, dest, fetch, ident, fileMode) == DownloadRun(Ok(false), nodes, None)
  {
  }

  /** Concrete example: a parent directory `/out`, no capability, and a
      successful request give a new file `/out/a.tgz`. */
  lemma DownloadExample(opts: Options, body: seq<bv8>, ident: Identity)
    ensures var nodes := map["/out" := Node(Directory, 0, 0, 0x1ED, [])];
      DownloadSpec(AsWritten, opts, nodes, {}, "/out/a.tgz", Fetched(body), ident, 0x1A4).result == Ok(true)
  {
    var nodes := map["/out" := Node(Directory, 0, 0, 0x1ED, [])];
    assert "/out" + "/" + "a.tgz" == "/out/a.tgz";
    ParentOfJoin("/out", "a.tgz");
    SuccessIff(AsWritten, opts, nodes, {}, "/out/a.tgz", Fetched(body), ident, 0x1A4);
  }

  /** The parent of `dir/name` is `dir`, for a non-empty name without `/` and
      a directory that is not the root. */
  lemma {:induction false} ParentOfJoin(dir: Path, name: Path)
    requires dir != [] && dir != "/" && '/' !in name
    ensures Parent(dir + "/" + name) == dir
  {
    DirNameOfJoin(dir, name);
    assert (dir + "/" + name)[|dir|] == '/';
  }

  lemma {:induction false} DirNameOfJoin(dir: Path, name: Path)
    requires '/' !in name
    ensures DirName(dir + "/" + name) == dir
    decreases |name|
  {
    var p := dir + "/" + name;
    if name == [] {
      assert p[..|p| - 1] == dir;
    } else {
      var name' := name[..|name| - 1];
      assert name[|name| - 1] in name;
      assert forall ch :: ch in name' ==> ch in name;
      assert p[..|p| - 1] == dir + "/" + name';
      DirNameOfJoin(dir, name');
    }
  }

  class FileSystem {
    var nodes: map<Path, Node>

    constructor (nodes: map<Path, Node>)
      ensures this.nodes == nodes
    {
      this.nodes := nodes;
    }

    /** `shutil.chown(path, user=…, group=…)`; `os.chown` raises
        `FileNotFoundError` for a missing path. */
    method Chown(p: Path, user: Option<int>, group: Option<int>) returns (r: Result<(), DownloadError>)
      modifies this
      ensures r.Ok? <==> p in old(nodes)
      ensures r.Err? ==> r.error == FileNotFound && nodes == old(nodes)
      ensures r.Ok? ==> nodes == old(nodes)[p := Chowned(old(nodes)[p], user, group)]
    {
      if p !in nodes {
        return Err(FileNotFound);
      }
      var n := nodes[p];
      if user.Some? {
        n := n.(owner := user.value);
      }
      if group.Some? {
        n := n.(group := group.value);
      }
      nodes := nodes[p := n];
      return Ok(());
    }

    /** `p.chmod(p.stat().st_mode | bits)`. */
    method AddMode(p: Path, bits: bv16)
      requires p in nodes
      modifies this
      ensures nodes == old(nodes)[p := WithBits(old(nodes)[p], bits)]
    {
      nodes := nodes[p := WithBits(nodes[p], bits)];
    }

    /** `__get`, run by a child process of identity `ident`. */
    method Get(setgid: Callable, setuid: Callable, dest: Path, fetch: FetchOutcome, ident: Identity, fileMode: bv16)
      returns (exitCode: int, steps: seq<Step>)
      modifies this
      ensures var w := Worker(setgid, setuid, fetch, ident, fileMode);
        exitCode == w.exitCode && steps == w.steps
        && nodes == (if w.file.Some? then old(nodes)[dest := w.file.value] else old(nodes))
    {
      steps := [CalledSetGid];
      if !ReturnsTrue(setgid) {
        return 1, steps;
      }
      var id := Apply(setgid, ident);
      steps := steps + [CalledSetUid];
      if !ReturnsTrue(setuid) {
        return 1, steps;
      }
      id := Apply(setuid, id);
      nodes := nodes[dest := Node(Regular, id.uid, id.gid, fileMode, [])];
      steps := steps + [Opened, Requested];
      if fetch.FetchFailed? {
        return 1, steps;
      }
      nodes := nodes[dest := nodes[dest].(content := fetch.body)];
      steps := steps + [Copied];
      return 0, steps;
    }
  }

  class Agent {
    const opts: Options

    constructor (opts: Options)
      ensures this.opts == opts
    {
      this.opts := opts;
    }

    /** `download(url, dest)` as written; `url` is represented by the outcome
        of fetching it. */
    method Download(fs: FileSystem, held: set<string>, dest: Path, fetch: FetchOutcome, ident: Identity, fileMode: bv16)
      returns (r: Result<bool, DownloadError>, exitCode: Option<int>)
      modifies fs
      ensures DownloadRun(r, fs.nodes, exitCode) == DownloadSpec(AsWritten, opts, old(fs.nodes), held, dest, fetch, ident, fileMode)
    {
      var parent := Parent(dest);
      var setgid, setuid := ReturnTrue, ReturnTrue;
      exitCode := None;
      if CAP_SETGID in held {
        setgid := SetGid(opts.unprivGid);
        var c := fs.Chown(dest, None, Some(opts.unprivUid));
        if c.Err? {
          return Err(c.error), None;
        }
        fs.AddMode(dest, GROUP_RWX);
      }
      if CAP_SETUID in held {
        setuid := SetUid(opts.unprivUid);
        return Err(ChownTypeError), None;
      }
      assert CAP_SETGID !in held ==> fs.nodes == old(fs.nodes);
      assert CAP_SETGID in held ==> dest in old(fs.nodes);
      assert CAP_SETGID in held ==> fs.nodes == old(fs.nodes)[dest := WithBits(Chowned(old(fs.nodes)[dest], None, Some(opts.unprivUid)), GROUP_RWX)];
      assert PrepareSpec(AsWritten, opts, old(fs.nodes), held, dest).1 == fs.nodes;
      assert PrepareSpec(AsWritten, opts, old(fs.nodes), held, dest) == (Ok(()), fs.nodes);
      assert (setgid, setuid) == Callables(AsWritten, opts, held);
      if dest in fs.nodes {
        return Ok(false), None;
      }
      if !IsDir(fs.nodes, parent) {
        return Err(NameError), None;
      }
      var code, steps := fs.Get(setgid, setuid, dest, fetch, ident, fileMode);
      exitCode := Some(code);
      if code != 0 {
        return Ok(false), exitCode;
      }
      if !IsFile(fs.nodes, dest) {
        return Ok(false), exitCode;
      }
      return Ok(true), exitCode;
    }

    /** `download` with the four defects corrected. */
    method DownloadCorrected(fs: FileSystem, held: set<string>, dest: Path, fetch: FetchOutcome, ident: Identity, fileMode: bv16)
      returns (r: Result<bool, DownloadError>, exitCode: Option<int>)
      modifies fs
      ensures DownloadRun(r, fs.nodes, exitCode) == DownloadSpec(Corrected, opts, old(fs.nodes), held, dest, fetch, ident, fileMode)
    {
      var parent := Parent(dest);
      var setgid, setuid := ReturnTrue, ReturnTrue;
      exitCode := None;
      if CAP_SETGID in held {
        setgid := SetGidOk(opts.unprivGid);
        var c := fs.Chown(dest, None, Some(opts.unprivGid));
        if c.Err? {
          return Err(c.error), None;
        }
        fs.AddMode(dest, GROUP_RWX);
      }
      assert CAP_SETGID !in held ==> fs.nodes == old(fs.nodes);
      assert CAP_SETGID in held ==> dest in old(fs.nodes);
      assert CAP_SETGID in held ==> fs.nodes == old(fs.nodes)[dest := WithBits(Chowned(old(fs.nodes)[dest], None, Some(opts.unprivGid)), GROUP_RWX)];
      ghost var n1 := fs.nodes;
      if CAP_SETUID in held {
        setuid := SetUidOk(opts.unprivUid);
        var c := fs.Chown(dest, Some(opts.unprivUid), None);
        if c.Err? {
          return Err(c.error), None;
        }
        fs.AddMode(dest, OWNER_RWX);
        assert fs.nodes == n1[dest := WithBits(Chowned(n1[dest], Some(opts.unprivUid), None), OWNER_RWX)];
      }
      assert PrepareSpec(Corrected, opts, old(fs.nodes), held, dest) == (Ok(()), fs.nodes);
      assert (setgid, setuid) == Callables(Corrected, opts, held);
      if dest in fs.nodes {
        return Ok(false), None;
      }
      if !IsDir(fs.nodes, parent) {
        return Ok(false), None;
      }
      var code, steps := fs.Get(setgid, setuid, dest, fetch, ident, fileMode);
      exitCode := Some(code);
      if code != 0 {
        return Ok(false), exitCode;
      }
      if !IsFile(fs.nodes, dest) {
        return Ok(false), exitCode;
      }
      return Ok(true), exitCode;
    }
  }
}
