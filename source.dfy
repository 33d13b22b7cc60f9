/** A Debian source package directory (dockerbuild/package/source.py).

    The changelog is the list of parsed entries of `debian/changelog`, newest
    first, and the SHA-256 digest of `debian/control` is given as its 32
    bytes; parsing and hashing themselves are not modelled. Both are read
    afresh on every property access in the Python class; the model takes them
    as one snapshot. */
module Source {
  import opened Wrappers
  import opened Strings
  import Release

  newtype byte = x: int | 0 <= x < 256

  /** The fields of a changelog entry that the package source reads. */
  datatype ChangelogEntry = ChangelogEntry(
    package: string,
    fullVersion: string,
    upstreamVersion: string,
    distributions: string)

  datatype PackageSource = PackageSource(
    pkgdir: string,
    controlpath: string,
    changelogpath: string,
    changelog: seq<ChangelogEntry>,
    controlDigest: seq<byte>)
  {
    /** `changelog[0]`; a changelog without entries raises `IndexError`. */
    function FirstEntry(): Option<ChangelogEntry>
    {
      if |changelog| > 0 then Some(changelog[0]) else None
    }

    function Name(): Option<string>
    {
      if FirstEntry().Some? then Some(FirstEntry().value.package) else None
    }

    function ReleaseVersion(): Option<string>
    {
      if FirstEntry().Some? then Some(FirstEntry().value.fullVersion) else None
    }

    function ReleaseUpstreamVersion(): Option<string>
    {
      if FirstEntry().Some? then Some(FirstEntry().value.upstreamVersion) else None
    }

    function ReleaseDistro(): Option<string>
    {
      if FirstEntry().Some? then Some(FirstEntry().value.distributions) else None
    }

    function ReleaseDebianDistro(): Option<string>
    {
      if ReleaseDistro().Some?
      then Some(Release.GetDebianBaseRelease(ReleaseDistro().value))
      else None
    }

    /** `control_hash`: the hex digest of `debian/control`. */
    function ControlHash(): string
    {
      HexDigest(controlDigest)
    }

    /** `source_id`: `<debian distro>:<control hash>`. */
    function SourceId(): Option<string>
    {
      if ReleaseDebianDistro().Some?
      then Some(SourceIdOf(ReleaseDebianDistro().value, ControlHash()))
      else None
    }
  }

  /** The dataclass constructor with `__post_init__`: both file paths are
      derived from the package directory. */
  function NewPackageSource(pkgdir: string, changelog: seq<ChangelogEntry>, controlDigest: seq<byte>): (src: PackageSource)
    ensures src.pkgdir == pkgdir && src.changelog == changelog && src.controlDigest == controlDigest
    ensures pkgdir != [] && pkgdir[|pkgdir| - 1] != '/' ==>
              src.controlpath == pkgdir + "/debian/control" && src.changelogpath == pkgdir + "/debian/changelog"
    ensures pkgdir != [] && pkgdir[|pkgdir| - 1] == '/' ==>
              src.controlpath == pkgdir + "debian/control" && src.changelogpath == pkgdir + "debian/changelog"
  {
    assert !StartsWith("debian", "/") && !StartsWith("control", "/") && !StartsWith("changelog", "/") by {
      assert "debian"[..1][0] == 'd' && "control"[..1][0] == 'c' && "changelog"[..1][0] == 'c';
      assert "/"[0] == '/';
    }
    var debian := PathJoin(pkgdir, "debian");
    assert debian[|debian| - 1] == 'n';
    assert pkgdir != [] && pkgdir[|pkgdir| - 1] != '/' ==>
             debian + "/" + "control" == pkgdir + "/debian/control" && debian + "/" + "changelog" == pkgdir + "/debian/changelog";
    assert pkgdir != [] && pkgdir[|pkgdir| - 1] == '/' ==>
             debian + "/" + "control" == pkgdir + "debian/control" && debian + "/" + "changelog" == pkgdir + "debian/changelog";
    PackageSource(pkgdir, PathJoin(debian, "control"), PathJoin(debian, "changelog"), changelog, controlDigest)
  }

  function SourceIdOf(distro: string, hash: string): string
  {
    distro + ":" + hash
  }

  /** One lower-case hexadecimal digit, as `hexdigest()` prints it. */
  function HexDigit(n: int): char
    requires 0 <= n < 16
  {
    if n < 10 then '0' + n as char else 'a' + (n - 10) as char
  }

  /** `hashlib`'s `hexdigest()`: two lower-case digits per byte. */
  function HexDigest(digest: seq<byte>): (s: string)
    ensures |s| == 2 * |digest|
  {
    if digest == [] then []
    else
      var b := digest[0] as int;
      [HexDigit(b / 16), HexDigit(b % 16)] + HexDigest(digest[1..])
  }

  predicate IsLowerHex(ch: char)
  {
    '0' <= ch <= '9' || 'a' <= ch <= 'f'
  }

  /** A hex digest consists of lower-case hexadecimal digits only; in
      particular it holds no `:`. */
  lemma {:induction false} HexDigestIsHex(digest: seq<byte>)
    ensures forall k :: 0 <= k < |HexDigest(digest)| ==> IsLowerHex(HexDigest(digest)[k])
    ensures ':' !in HexDigest(digest)
  {
    if digest != [] {
      HexDigestIsHex(digest[1..]);
    }
  }

  lemma HexDigitInjective(m: int, n: int)
    requires 0 <= m < 16 && 0 <= n < 16
    requires HexDigit(m) == HexDigit(n)
    ensures m == n
  {
  }

  /** Different digests give different hex digests. */
  lemma {:induction false} HexDigestInjective(d1: seq<byte>, d2: seq<byte>)
    requires HexDigest(d1) == HexDigest(d2)
    ensures d1 == d2
  {
    if d1 != [] {
      var h1, h2 := HexDigest(d1), HexDigest(d2);
      var b1, b2 := d1[0] as int, d2[0] as int;
      assert h1[0] == h2[0] && h1[1] == h2[1];
      HexDigitInjective(b1 / 16, b2 / 16);
      HexDigitInjective(b1 % 16, b2 % 16);
      assert h1[2..] == HexDigest(d1[1..]);
      assert h2[2..] == HexDigest(d2[1..]);
      HexDigestInjective(d1[1..], d2[1..]);
      assert d1 == [d1[0]] + d1[1..];
      assert d2 == [d2[0]] + d2[1..];
    }
  }

  /** Splits a text at its last `:`; the inverse of `SourceIdOf`. */
  function SplitLastColon(s: string): Option<(string, string)>
  {
    if s == [] then None
    else if s[|s| - 1] == ':' then Some((s[..|s| - 1], []))
    else
      match SplitLastColon(s[..|s| - 1])
      case None => None
      case Some(p) => Some((p.0, p.1 + [s[|s| - 1]]))
  }

  /** A source id splits back into its distro and hash at its last `:`,
      whatever the distro contains, because the hash holds no `:`. */
  lemma {:induction false} SplitSourceId(distro: string, hash: string)
    requires ':' !in hash
    ensures SplitLastColon(SourceIdOf(distro, hash)) == Some((distro, hash))
  {
    var s := SourceIdOf(distro, hash);
    if hash == [] {
      assert s[..|s| - 1] == distro;
    } else {
      var h' := hash[..|hash| - 1];
      assert hash[|hash| - 1] in hash;
      assert forall ch :: ch in h' ==> ch in hash;
      SplitSourceId(distro, h');
      assert s[..|s| - 1] == SourceIdOf(distro, h');
      assert h' + [hash[|hash| - 1]] == hash;
    }
  }

  /** Equal source ids have equal distros and equal hashes. */
  lemma SourceIdInjective(d1: string, h1: string, d2: string, h2: string)
    requires ':' !in h1 && ':' !in h2
    requires SourceIdOf(d1, h1) == SourceIdOf(d2, h2)
    ensures d1 == d2 && h1 == h2
  {
    SplitSourceId(d1, h1);
    SplitSourceId(d2, h2);
  }

  /** The cache key changes whenever the control file's digest does. */
  lemma DigestDeterminesSourceId(s1: PackageSource, s2: PackageSource)
    requires s1.SourceId().Some? && s2.SourceId().Some?
    requires s1.SourceId() == s2.SourceId()
    ensures s1.controlDigest == s2.controlDigest
    ensures s1.ReleaseDebianDistro() == s2.ReleaseDebianDistro()
  {
    HexDigestIsHex(s1.controlDigest);
    HexDigestIsHex(s2.controlDigest);
    SourceIdInjective(s1.ReleaseDebianDistro().value, s1.ControlHash(),
                      s2.ReleaseDebianDistro().value, s2.ControlHash());
    HexDigestInjective(s1.controlDigest, s2.controlDigest);
  }

  /** A SHA-256 digest gives a 64-character hash and a source id that ends
      with it after a `:`; all changelog-derived fields come from the newest
      entry, the distro through the release map. */
  lemma SourceFields(src: PackageSource)
    requires |src.changelog| > 0 && |src.controlDigest| == 32
    ensures |src.ControlHash()| == 64
    ensures src.Name() == Some(src.changelog[0].package)
    ensures src.ReleaseVersion() == Some(src.changelog[0].fullVersion)
    ensures src.ReleaseUpstreamVersion() == Some(src.changelog[0].upstreamVersion)
    ensures src.ReleaseDebianDistro() == Some(Release.GetDebianBaseRelease(src.changelog[0].distributions))
    ensures src.SourceId().Some?
    ensures SplitLastColon(src.SourceId().value) == Some((src.ReleaseDebianDistro().value, src.ControlHash()))
  {
    HexDigestIsHex(src.controlDigest);
    SplitSourceId(src.ReleaseDebianDistro().value, src.ControlHash());
  }

  /** Without changelog entries every changelog-derived property raises. */
  lemma EmptyChangelog(src: PackageSource)
    requires src.changelog == []
    ensures src.Name().None? && src.ReleaseVersion().None? && src.ReleaseUpstreamVersion().None?
    ensures src.ReleaseDebianDistro().None? && src.SourceId().None?
  {
  }
}
