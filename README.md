# dockerbuild, modelled in Dafny

BunsenLabs' `dockerbuild` builds Debian source packages inside Docker
containers. It has these parts:

- **Package source.** A package directory yields its name, version and
  distribution from the first `debian/changelog` entry. Its *source id*
  is `<debian base release>:<sha256 of debian/control>`. BunsenLabs
  release names are translated to the Debian release they are based on.
- **Package builder.** This exists in a current and a legacy variant.
  - It looks for a cached *dependency image* by two labels (source id and
    architecture). If there is none, it runs the dependency-installation
    container, commits it and looks again.
  - It then runs the build container with the package, the scripts and the
    output directory mounted, and removes the container afterwards.
  - The base image is chosen by architecture.
- **Capability reader.** It reads the effective capabilities of a process
  from `/proc/<pid>/status`.
- **Download agent.** It prepares ownership and mode of the destination
  when it holds `CAP_SETGID`/`CAP_SETUID`, refuses unsafe destinations,
  and downloads in a child process that drops its privileges first.
- **Batch front end.** This exists in a current and an older (`ghget.py`)
  variant.
  - It parses `project[:tag[:arch,…]]` entries.
  - It resolves each tag against the GitHub tags of the project, in
    version order (`'?'` for the latest, otherwise a glob in the current
    variant or an exact name in the older one).
  - It checks the member names of a downloaded archive before extracting
    it.

How the model is built:

- **State-changing code is imperative Dafny.**
  - The Docker engine is a `Runtime` class. Its trace of calls lets the
    order of `run`, `logs`, `wait`, `commit`, `remove` and `images.list`
    be stated.
  - The file system is a `FileSystem` class.
  - `Buildjob` and `PackageBuilder` are classes.
  - Each method is proved equal to a specification function of the old
    state. The properties are lemmas about those functions.
- **Parsing and decoding are functions and loops.** The capability mask
  decoding, the tag scans and `checktar` are loops proved against
  functions.
- **Version ordering.** `version_compare` (section 5.6.12 of the Debian
  Policy Manual) is a parameter. Only its being a total preorder is used.
  Every stable sort by a total preorder returns the same list, so
  insertion sort stands for Python's `sorted`.
- **Inputs that stand in for the outside world.** Everything the program
  gets from outside is an input of the model:
  - the changelog entries and the control file's digest;
  - the procfs contents;
  - the capabilities held;
  - whether `setgid`/`setuid` callables return true;
  - the HTTP response;
  - how a container exits;
  - the GitHub tag list, `Version` validity and glob matching.

The behaviour the program is evidently meant to have is this model's
reading of its purpose. It is not a document in the repository. Where the
code does something else, the model follows the code:

- **Glob tags.** A glob is meant to pick the highest matching version. The
  code ends on the lowest (`dockerbuild/commands/batch.py:46-51`, a loop
  without `break`).
- **The `'?'` tag.** It is meant to resolve to the latest version. The code
  raises `AttributeError` at `dockerbuild/commands/batch.py:42`. The batch
  parsing loop (`Batch.ParseProjectList`) therefore fails on every entry
  without a tag. `Batch.ParseProjectListCorrected` is the same loop over
  the corrected `resolve`.
- **A failed dependency container.** It is meant to be removed. The code
  raises before `remove` and leaves it in place
  (`dockerbuild/commands/build.py:39-42`, `Build.FailedExitAddsNoImage`).
- **Order of checks in `download`.** The existence checks are meant to come
  before any side effect. The code runs `chown` and `chmod` on the
  destination first (`dockerbuild/download_agent.py:24-36`), so they act
  only on a destination that then makes `download` return False.
- **Decompression.** The body is meant to be copied verbatim. The code sets
  `decode_content = True` (`dockerbuild/download_agent.py:68`). The model
  takes the body the worker copies as its input.
- **Opening the file.** The destination is meant to be opened for exclusive
  writing. The code opens it with `open("wb")` (`dockerbuild/download_agent.py:64`).
  The existence check at lines 38-40 runs in the parent, before the child
  starts.

The first two are listed under Findings.

## Model

| member | source | states |
|---|---|---|
| Strings.Count | dockerbuild/commands/batch.py:99 | The number of occurrences is at most the length, and is zero exactly when the character is absent. |
| Strings.SplitLength | dockerbuild/commands/batch.py:99-104 | `split(c)` yields one piece more than there are separators, so the count of `:` decides how many fields an entry has. |
| Strings.SplitPiecesFree | dockerbuild/commands/batch.py:101-102 | No piece of a split contains the separator. |
| Strings.JoinSplit | dockerbuild/commands/batch.py:101-104 | Joining the pieces of a split with the separator gives back the string. |
| Strings.SplitJoin | dockerbuild/commands/batch.py:101-104 | Splitting a join of separator-free pieces gives back the pieces. |
| Strings.LastPieceProperties | dockerbuild/commands/batch.py:58 | `split('/')[-1]` is the text after the last `/`: it has no `/`, ends the string, and is either the whole string or preceded by a `/`. Without a `/` it is the whole string. |
| Release.ResultRange | bunsenlabs/utils/release.py:12-13 | The result is either the input unchanged or one of the four Debian bases (buzz, jessie, buster, stretch). |
| Release.ValuesAreNotKeys | bunsenlabs/utils/release.py:1-10 | No Debian base in the table is itself a BunsenLabs name in the table. |
| Release.Idempotent | bunsenlabs/utils/release.py:12-13 | Translating twice is translating once. |
| Release.TranslatesExactlyTheKeys | bunsenlabs/utils/release.py:1-13 | A name changes exactly when it is a key of the table, and then it becomes a Debian base. |
| Release.Examples | bunsenlabs/utils/release.py:1-13 | lithium gives buster, helium gives stretch, and an unknown name such as unstable is passed through. |
| Source.NewPackageSource | dockerbuild/package/source.py:13-16 | The control and changelog paths are `<pkgdir>/debian/control` and `<pkgdir>/debian/changelog`, as `os.path.join` forms them with and without a trailing slash. |
| Source.HexDigest | dockerbuild/package/source.py:50-55 | `hexdigest()` has two characters per digest byte. |
| Source.HexDigestIsHex | dockerbuild/package/source.py:50-55 | The digest text is lower-case hexadecimal, so it never contains `:`. |
| Source.HexDigestInjective | dockerbuild/package/source.py:50-55 | Different digests give different hex texts. |
| Source.SplitSourceId | dockerbuild/package/source.py:57-59 | The source id splits at its last `:` back into the Debian release and the control hash. |
| Source.SourceIdInjective | dockerbuild/package/source.py:57-59 | Equal source ids have equal releases and equal hashes. |
| Source.DigestDeterminesSourceId | dockerbuild/package/source.py:50-59 | Two sources with the same source id have the same control digest and the same Debian release: the source id is a cache key for the dependencies. |
| Source.SourceFields | dockerbuild/package/source.py:30-59 | With a changelog, the name, versions and distribution come from its first entry. The Debian release is the translated distribution. The source id is defined and splits into that release and a 64-character hash. |
| Source.EmptyChangelog | dockerbuild/package/source.py:25-48 | With an empty changelog every `changelog[0]` property fails (the `IndexError`), and so does the source id. |
| Caps.DecodeMask | dockerbuild/cap.py:99-104 | The 64-step bit loop gives exactly the names of the set known bits and the numbers of the set unknown bits. |
| Caps.GetProcessCapabilities | dockerbuild/cap.py:77-110 | The line loop as written equals `ReadCapabilities`. Without procfs it fails with `CapsUnsupportedError`; without the status file, `CapsProcessNotFoundError`. An empty field fails the assert and a bad hex number gives `ValueError`. Otherwise the masks of all `CapEff` lines are accumulated until a `FULLCAP` line. |
| Caps.GetProcessCapabilitiesFixed | dockerbuild/cap.py:77-110 | The same loop with the `FULLCAP` set assigned to the effective set; it equals `ReadCapabilitiesFixed`. |
| Caps.HasAll | dockerbuild/cap.py:69 | `effective & caps == caps` holds exactly when every requested capability is effective. |
| Caps.HasCaps | dockerbuild/cap.py:67-69 | Over the corrected reader, it passes the reader's error on, and otherwise answers whether the requested set is contained in the effective set. |
| Caps.CapabilityNamesDistinct | dockerbuild/cap.py:11-50 | The 38 names of the table are pairwise different. |
| Caps.KnownBitIff | dockerbuild/cap.py:99-102 | The name of bit i (i below 38) is reported exactly when bit i is set. |
| Caps.UnknownBitIff | dockerbuild/cap.py:99-104 | Reading a status file whose one `CapEff` line carries a 64-bit mask succeeds. The number i is among the reported unknown capabilities exactly when 38 <= i < 64 and bit i of the mask is set. |
| Caps.HighBitsIgnored | dockerbuild/cap.py:99 | Bits from 64 upwards never change the decoded sets. |
| Caps.ZeroMask | dockerbuild/cap.py:99-104 | Mask 0 decodes to no capabilities. |
| Caps.ChownOnlyMask | dockerbuild/cap.py:99-104 | Mask 1 decodes to exactly `CAP_CHOWN`. |
| Caps.Bit63OnlyMask | dockerbuild/cap.py:99-104 | Mask 2^63 decodes to no names and the unknown bit 63. |
| Caps.FullCapDecodes | dockerbuild/cap.py:52-53 | Decoding `FULLCAP` bit by bit gives exactly `FULLCAP_SET` and no unknown bits. |
| Caps.ParseFormatHex | dockerbuild/cap.py:93 | `int(…, 16)` reads back a mask printed as hex digits. |
| Caps.KernelLineParses | dockerbuild/cap.py:90-93 | A kernel line `CapEff:\t<16 hex digits>\n` yields its mask. |
| Caps.SkipOtherLines | dockerbuild/cap.py:89-90 | Lines that do not start with `CapEff` change nothing, in both revisions. |
| Caps.FullCapAsWrittenIsEmpty | dockerbuild/cap.py:95-97 | As written, a process holding every capability is reported with an empty effective set. |
| Caps.FixedMatchesBitDecoding | dockerbuild/cap.py:88-110 | Corrected, a status file with one `CapEff` line reports exactly the decoded known and unknown capabilities of its mask, `FULLCAP` included. |
| Caps.AsWrittenMatchesFixedElsewhere | dockerbuild/cap.py:88-110 | For every mask other than `FULLCAP` the code as written already reports the decoded sets. |
| Docker.FilteredExactly | dockerbuild/commands/build.py:49 | `images.list(filters=…)` lists exactly the images whose labels match every filter. |
| Docker.KeyValueFilter | dockerbuild/commands/build.py:101-106 | A `key=value` filter whose key has no `=` is read back as that key and that value. |
| Docker.FilteredAppend | dockerbuild/commands/build.py:43-45 | A committed image is listed after the earlier ones exactly when it matches. |
| Docker.Runtime.constructor | dockerbuild/commands/build.py:19 | A client starts from the engine's images with no live containers and an empty trace. |
| Docker.Runtime.Run | dockerbuild/commands/build.py:32-38 | `containers.run` starts a new container under a fresh id with the given image, command, labels and volumes, and records the call. |
| Docker.Runtime.Logs | dockerbuild/commands/build.py:56 | Reading the logs records the call and changes nothing else. |
| Docker.Runtime.Wait | dockerbuild/commands/build.py:58 | `wait` returns the given exit outcome and records the call. |
| Docker.Runtime.Commit | dockerbuild/commands/build.py:43 | `commit` adds a new image that carries the container's labels. |
| Docker.Runtime.Remove | dockerbuild/commands/build.py:44 | `remove` removes the container. |
| Docker.Runtime.ListImages | dockerbuild/commands/build.py:49 | `images.list` returns the matching images in order and records the call. |
| Build.RepoPrefixByArchitecture | dockerbuild/commands/build.py:6-11 | The repository prefix is `i386/`, `arm32v7/` or `arm64v8/` (arm64 only in the current variant). It is empty for amd64, for arm64 in the legacy variant (bunsenlabs/dockerbuild/build.py:6-10) and for any unknown architecture. |
| Build.BaseImageByArchitecture | bunsenlabs/dockerbuild/build.py:120-125 | The base image is `<prefix>debian:<Debian release of the source>`, in both variants (also dockerbuild/commands/build.py:125-130). |
| Build.FilterMatchesExactlyTheKey | dockerbuild/commands/build.py:101-106 | An image passes the dependency filter exactly when it carries this source id under `BL_SOURCE_ID` and this architecture under `BL_BUILD_ARCH`. |
| Build.OwnLabelsMatchFilter | dockerbuild/commands/build.py:92-106 | The labels the builder puts on its container pass its own filter, so a committed dependency image is found again. |
| Build.CacheHitStartsNoContainer | dockerbuild/commands/build.py:28-30 | With a matching image, the first listed one is returned and nothing but the listing happens. |
| Build.CleanExitCommitsRemovesFinds | bunsenlabs/dockerbuild/build.py:24-45 | Without a cached image and on a clean exit, the phase makes a fixed sequence of calls: list, run, (current variant: logs), wait, commit, remove, list. It returns the committed image, and no container stays alive. Also dockerbuild/commands/build.py:25-45. |
| Build.FailedExitAddsNoImage | dockerbuild/commands/build.py:39-42 | A failed exit raises `Container run failed` and a timed-out wait raises. Either way no image is added and the container is left in place. |
| Build.DependencyImageCarriesTheKey | dockerbuild/commands/build.py:25-45 | Any image the phase returns carries this source id and architecture. |
| Build.SecondCallIsCacheHit | dockerbuild/commands/build.py:25-45 | After a successful phase, a second one returns the same image without starting a container. |
| Build.BuildVolumesMounts | dockerbuild/commands/build.py:63-69 | The build container mounts the scripts and the package read-only and the output directory read-write. The later `update` entry wins on equal paths. |
| Build.BuildRemovesItsContainer | bunsenlabs/dockerbuild/build.py:54-81 | The build container is run from the dependency image. On any exit it is removed, and the build succeeds exactly on a clean exit. A timed-out wait raises and leaves it. Also dockerbuild/commands/build.py:71-86. |
| Build.BuildAlwaysHasAnImage | dockerbuild/commands/build.py:61-62 | `image.id` never reads `None`: whenever the dependency phase does not raise, it returns an image. |
| Build.PackageBuilder.Create | dockerbuild/commands/build.py:16-23 | Construction fails with `IndexError` exactly when the changelog is empty (the log line reads `source.name`). |
| Build.PackageBuilder.FindDependencyImage | dockerbuild/commands/build.py:47-52 | Returns the first listed matching image, or `None`. |
| Build.PackageBuilder.WaitForContainerExit | dockerbuild/commands/build.py:54-58 | Follows the logs (current variant only) and then waits. |
| Build.PackageBuilder.CreateDependencyImage | dockerbuild/commands/build.py:25-45 | The result and the new engine state are those of `CreateDependencyImageSpec`, with engine validity kept. |
| Build.PackageBuilder.Build | dockerbuild/commands/build.py:60-86 | The result and the new engine state are those of `BuildSpec` (the legacy variant without log streaming: bunsenlabs/dockerbuild/build.py:54-81). |
| DownloadAgent.WorkerOrder | dockerbuild/download_agent.py:60-73 | The child runs setgid, setuid, open, request, copy in this order and stops at the first failure. The file exists exactly when both callables return true. It exits 0 exactly when, in addition, the download succeeds, and 1 otherwise. |
| DownloadAgent.RealDropFailsWorker | dockerbuild/download_agent.py:62-63 | The callables `os.setgid`/`os.setuid` return `None`, so the child fails its assert before opening the file. |
| DownloadAgent.CheckedDropOwnsFile | dockerbuild/download_agent.py:60-73 | With callables that return true after dropping, the file is written with the downloaded body, owned by the dropped ids. |
| DownloadAgent.SuccessIff | dockerbuild/download_agent.py:19-58 | The call returns True exactly when no privilege capability is held, the destination is absent, its parent is a directory and the download succeeds. The file then holds the body, owned by the child's identity. Holds in both revisions. |
| DownloadAgent.CapsHeldNeverSpawns | dockerbuild/download_agent.py:24-36 | While `CAP_SETGID` or `CAP_SETUID` is held, no child is started and True is never returned. |
| DownloadAgent.ExistingDestRefused | dockerbuild/download_agent.py:38-40 | An existing destination is refused with False and nothing changes. |
| DownloadAgent.GroupChownGetsUserId | dockerbuild/download_agent.py:27-28 | As written, the group of the destination is set to the unprivileged uid, and group rwx is added. |
| DownloadAgent.GroupChownGetsGroupId | dockerbuild/download_agent.py:27-28 | Corrected, the group is set to the unprivileged gid. |
| DownloadAgent.OwnerChownRaisesTypeError | dockerbuild/download_agent.py:34 | As written, holding `CAP_SETUID` raises `TypeError` (`shutil.chown` has no `owner` keyword). The exception is the earlier `FileNotFoundError` when the group chown runs on a missing file. |
| DownloadAgent.OwnerChownSetsOwner | dockerbuild/download_agent.py:34-35 | Corrected, the owner is set to the unprivileged uid and owner rwx is added. |
| DownloadAgent.ParentCheckRaisesNameError | dockerbuild/download_agent.py:42-44 | As written, a parent that is not a directory raises `NameError` (`dedst`). |
| DownloadAgent.ParentCheckReturnsFalse | dockerbuild/download_agent.py:42-44 | Corrected, it returns False with nothing changed. |
| DownloadAgent.DownloadExample | dockerbuild/download_agent.py:19-58 | Downloading to `/out/a.tgz` under the directory `/out` without capabilities succeeds. |
| DownloadAgent.ParentOfJoin | dockerbuild/download_agent.py:20 | `Path.parent` of `dir/name` is `dir`. |
| DownloadAgent.FileSystem.Chown | dockerbuild/download_agent.py:27 | `shutil.chown` fails on a missing path and otherwise changes only the given owner or group of that path. |
| DownloadAgent.FileSystem.AddMode | dockerbuild/download_agent.py:28 | `chmod(st_mode \| bits)` adds the bits to that path only. |
| DownloadAgent.FileSystem.Get | dockerbuild/download_agent.py:60-73 | The child process: its exit code and steps are `Worker`'s, and the file system changes only by the file it creates. |
| DownloadAgent.Agent.Download | dockerbuild/download_agent.py:19-58 | `download` as written: result, exit code and file system are those of `DownloadSpec(AsWritten, …)`. |
| DownloadAgent.Agent.DownloadCorrected | dockerbuild/download_agent.py:19-58 | `download` with the four corrections: as `DownloadSpec(Corrected, …)`. The four are the group id at line 27, the `user=` keyword at line 34, `dest` for `dedst` at line 43, and callables that return true once the drop succeeded. |
| Versions.SortPermutes | dockerbuild/commands/batch.py:38 | `sorted` returns the same versions, each as often. |
| Versions.SortSorted | dockerbuild/commands/batch.py:38 | The result is ordered by the comparison. |
| Versions.FlipIsTotalPreorder | dockerbuild/commands/batch.py:38 | `reverse=True` orders by the reversed comparison, again a total preorder. |
| Versions.SortedExtremes | ghget.py:30-31 | The first of the descending sort and the last of the ascending sort are elements of the input and greatest among them. |
| Batch.KeysAndUrls | dockerbuild/commands/batch.py:37 | The dictionary's keys, and the names with a URL, are exactly the tag names. |
| Batch.UrlsLastWins | dockerbuild/commands/batch.py:37 | A name's URL is that of the last tag of the name. |
| Batch.DescendingProperties | dockerbuild/commands/batch.py:38-39 | The descending list holds exactly the tag names, each with a URL. It is sorted descending and is not empty when there are tags, and its head is a greatest version. |
| Batch.ScanIsLastMatch | dockerbuild/commands/batch.py:45-51 | The loop without `break` leaves the fields alone when nothing matches. Otherwise it ends with the tag, version and URL of the last match. |
| Batch.LastMatchIsLowest | dockerbuild/commands/batch.py:46-51 | In the descending list, the last match is a least matching version. |
| Batch.FirstMatchIsHighest | dockerbuild/commands/batch.py:46-51 | The first match is a greatest matching version. |
| Batch.NoTagsRaise | dockerbuild/commands/batch.py:35-36 | No tags raise `ValueError` with nothing changed. |
| Batch.LatestRaisesAttributeError | dockerbuild/commands/batch.py:40-43 | As written, `'?'` raises `AttributeError` after setting `tag` to a greatest version. |
| Batch.LatestResolves | dockerbuild/commands/batch.py:40-43 | Corrected, `'?'` resolves to a greatest version with its own URL. |
| Batch.PatternResolvesLowestMatch | dockerbuild/commands/batch.py:44-54 | As written, a pattern that some tag matches resolves to the LOWEST matching version, with matching tag, version and URL. |
| Batch.PatternResolvesHighestMatch | dockerbuild/commands/batch.py:44-54 | Corrected, it resolves to the HIGHEST matching version. |
| Batch.NoMatchRaisesKeyError | dockerbuild/commands/batch.py:52-53 | A pattern that matches no tag raises `KeyError` with the fields unchanged, in both revisions. |
| Batch.ResolveExampleAsWritten | dockerbuild/commands/batch.py:45-51 | Tags 1.2.0, 1.3.0, 1.2.5 and pattern `1.2.*` resolve to 1.2.0 as written. |
| Batch.ResolveExampleCorrected | dockerbuild/commands/batch.py:45-51 | The same resolve to 1.2.5 when corrected. |
| Batch.LatestExampleCorrected | dockerbuild/commands/batch.py:40-43 | `'?'` over the same tags resolves to 1.3.0 when corrected. |
| Batch.Buildjob.constructor | dockerbuild/commands/batch.py:24-30 | A job starts with no version and no URL. |
| Batch.Buildjob.Name | dockerbuild/commands/batch.py:56-58 | The name is the text after the last `/` of the project: it has no `/`, ends the project, and is either the whole project or preceded by a `/`. |
| Batch.Buildjob.Resolve | dockerbuild/commands/batch.py:32-54 | The loop as written gives the result and fields of `ResolveSpec`; project and architectures are unchanged. |
| Batch.Buildjob.ResolveCorrected | dockerbuild/commands/batch.py:32-54 | The corrected method gives those of `ResolveCorrectedSpec`. |
| Batch.ParseEntryCases | dockerbuild/commands/batch.py:98-109 | Two `:` give project, tag and comma-separated architectures, and one `:` gives project and tag with `amd64`. The pieces join back into the entry. Any other count makes the whole entry the project, with `'?'` and `amd64`. |
| Batch.ParseProjectList | dockerbuild/commands/batch.py:98-112 | With `resolve` as written: on success every entry becomes a job, in order, with its parsed fields and the state `resolve` leaves. On failure there is an entry whose resolution fails with that error, and every entry before it resolves. |
| Batch.BareProjectRaises | dockerbuild/commands/batch.py:107-112 | An entry without `:` gets the tag `'?'`. With valid tags, `resolve` as written then raises `AttributeError`, so the loop cannot get past it; the corrected `resolve` succeeds. |
| Batch.ParseProjectListCorrected | dockerbuild/commands/batch.py:98-112 | The same loop over the corrected `resolve`, with the same success and first-failure clauses. |
| Batch.CheckTar | dockerbuild/commands/batch.py:66-70 | The member loop equals `CheckTarSpec`: the first empty name gives `IndexError` and the first leading `/` a failed assert. |
| Batch.CheckTarIff | dockerbuild/commands/batch.py:66-70 | An archive passes exactly when no member name is empty or starts with `/`. The same function is ghget.py:47-50. |
| Batch.ParentMemberPasses | dockerbuild/commands/batch.py:68-70 | As written, a member `../escape` passes the check. |
| Batch.CheckTarCorrectedIff | dockerbuild/commands/batch.py:68-70 | Corrected, an archive passes exactly when no name is empty or starts with `/` or `..`. |
| Ghget.WithNameHead | ghget.py:32 | The filter on the chosen name is not empty, so `[0]` never raises, and it starts with the first tag of that name. |
| Ghget.ScanEqualLast | ghget.py:35-37 | The loop sets the URL of the last tag with exactly that name, and keeps the old URL when there is none. |
| Ghget.NoTagsRaise | ghget.py:27-28 | No tags raise `ValueError`. |
| Ghget.LatestResolves | ghget.py:29-33 | `'?'` resolves to a greatest version, taken from the ascending sort, with the URL of the first tag of that name. |
| Ghget.ExactTagResolves | ghget.py:34-39 | Another tag is kept, takes the URL of the last tag with exactly that name, and never raises. The `raise` is unreachable. |
| Ghget.Buildjob.constructor | ghget.py:17-22 | A job starts with URL `''`. |
| Ghget.Buildjob.Resolve | ghget.py:24-39 | The method gives the result and fields of `Ghget.ResolveSpec`. |
| Ghget.ParseProjectList | ghget.py:75-88 | Entries are parsed as in the batch front end and resolved in order. On success every entry becomes a job with its resolved state. On failure there is an entry whose resolution fails with that error, and every entry before it resolves. |

## Left out

- `os.path.abspath` and `pathlib` normalisation (repeated or trailing slashes, `..`, the current directory) are not modelled. The package directory is taken as given.
- Reading the changelog and control files, and SHA-256 itself, are not modelled. The changelog entries and the digest bytes are inputs.
- Logging, the content of streamed logs, and Docker's timeout exception types are not modelled. A wait that times out is the outcome `TimedOut`.
- The Docker client's connection and `docker_timeout` are not modelled. Other engine failures (a missing base image, a daemon error) are not modelled.
- `int(…, 16)` accepts an optional sign, a `0x` prefix, underscores and surrounding whitespace; the model's parser accepts hex digits only. With a sign, `int('-1', 16)` is -1, which has every bit the loop examines set, so all 38 names and the unknown bits 38 to 63 are decoded.
- `has_caps` is not called inside the download agent. The capabilities the process holds are an input of `download`. So the model does not connect the `FULLCAP` finding to `download`. As written, a process whose mask is `FULLCAP` gets `has_caps` False for both capabilities, and `download` then runs the child without any privilege drop.
- Opening files can fail or be refused by permissions; this is not modelled. `FileSystem` only knows which paths exist.
- The HTTP request is an input outcome, `Fetched(body)` or `FetchFailed`. Redirects and gunzip are not modelled. `FetchFailed` leaves the empty file that `open("wb")` created. A failure part-way through `copyfileobj` (`dockerbuild/download_agent.py:70`) would leave a partial file instead; that case is not modelled. The result, False with exit code 1, is the same either way.
- `multiprocessing` is modelled as a sequential call of the child.
- `Version` equality and hashing are not modelled. The tag dictionary is keyed by the tag name string. This matches the code only if `Version` hashes and compares equal as its string does; the `Version` class is not part of this model.
- `str(Version(n)) == n` is taken to hold for valid names.
- `fnmatch.translate` with `re.match` is a parameter `matches(pattern, name)`.
- The download and extract loops of `batch` and `ghget.main` are not modelled, as network and archive I/O (`local_jobs[job]` keys a dict on an unhashable dataclass, and `projects.items()` is called on a list).
- `TarFile.extractall` is not modelled; only `checktar`, which runs before it, is.
- `namespace`, `getenv` and `getopts` are not modelled; they are command-line plumbing.
- `download_and_extract_tarball` is not modelled; it is an unused function.
- The GitHub API (`get_repo`, `get_tags`) is a function from project to tag list; its errors are not modelled.
- Docker.Runtime.ListImages: lists images oldest first, in the order `Commit` added them. The Docker engine lists the newest first. With several matching dependency images, `find_dependency_image` picks the oldest in the model and the newest in the code. The builder commits only when no image matches, so several can only come from images the engine already held.
- Caps.HasCaps: is stated over the corrected reader. Over the reader as written it inherits the `FULLCAP` finding, which `Caps.FullCapAsWrittenIsEmpty` states.
- Build.PackageBuilder.constructor: requires a non-empty changelog. The `IndexError` on an empty one is modelled by `Build.PackageBuilder.Create`.
- Build.PackageBuilder.Build: the dependency image is passed to `containers.run` as the image object, modelled by its id (`ImageRef.ById`).

## Findings

| source | as written | input that shows it | evidently intended | confidence | as-written member | corrected member |
|---|---|---|---|---|---|---|
| dockerbuild/cap.py:96 | `FULLCAP_SET` is assigned to the misspelled, unused `effective_capabilities` before `break` | a status file whose `CapEff` line is `0000003fffffffff`; `download` then sees no capabilities and starts the child without a privilege drop | the effective set is `FULLCAP_SET` | high, not executed | Caps.FullCapAsWrittenIsEmpty | Caps.FixedMatchesBitDecoding |
| dockerbuild/download_agent.py:27 | the group is set to `unpriv_uid` | `CAP_SETGID` held, the destination existing, and `unpriv_uid` different from `unpriv_gid` (`download` then returns False at line 38 with the group changed) | the group is set to `unpriv_gid` | high, not executed | DownloadAgent.GroupChownGetsUserId | DownloadAgent.GroupChownGetsGroupId |
| dockerbuild/download_agent.py:34 | `shutil.chown(dest, owner=…)`: `shutil.chown` has no `owner` keyword, so it raises `TypeError` | `CAP_SETUID` held | `shutil.chown(dest, user=…)` | high, not executed | DownloadAgent.OwnerChownRaisesTypeError | DownloadAgent.OwnerChownSetsOwner |
| dockerbuild/download_agent.py:43 | the log line names `dedst`, raising `NameError` | a destination whose parent is not a directory | log `dest` and return False | high, not executed | DownloadAgent.ParentCheckRaisesNameError | DownloadAgent.ParentCheckReturnsFalse |
| dockerbuild/download_agent.py:62-63 | `assert setgid()` on `os.setgid`, which returns `None` | a call of `__get` with `lambda: os.setgid(gid)`. Through `download` the defect is latent: while `CAP_SETGID` or `CAP_SETUID` is held, `download` raises or returns False before any child starts (`DownloadAgent.CapsHeldNeverSpawns`) | a privilege drop whose success makes the callable return true | medium, not executed | DownloadAgent.RealDropFailsWorker | DownloadAgent.CheckedDropOwnsFile |
| dockerbuild/commands/batch.py:42 | `latest_version.tarball_url` on a `Version`, raising `AttributeError` | the tag `'?'` with any valid tags | `versions[latest_version]` | high, not executed | Batch.LatestRaisesAttributeError | Batch.LatestResolves |
| dockerbuild/commands/batch.py:46-51 | the descending scan has no `break`, so the last (lowest) match wins | tags 1.2.0, 1.3.0, 1.2.5 with pattern `1.2.*` give 1.2.0 | the first (highest) match | medium, not executed | Batch.ResolveExampleAsWritten | Batch.PatternResolvesHighestMatch |
| dockerbuild/commands/batch.py:68-70 | `m.name[0] in ['/', '..']`: one character never equals `..` | a member named `../escape` passes | reject names starting with `..` | high, not executed | Batch.ParentMemberPasses | Batch.CheckTarCorrectedIff |
