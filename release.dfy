/** Mapping of BunsenLabs release names to the Debian release they are
    based on (bunsenlabs/utils/release.py). */
module Release {

  /** `RELEASE_MAP`. */
  const RELEASE_MAP: map<string, string> := map[
    "beryllium"         := "buzz",
    "bunsen-hydrogen"   := "jessie",
    "buster-backports"  := "buster",
    "helium"            := "stretch",
    "hydrogen"          := "jessie",
    "jessie-backports"  := "jessie",
    "lithium"           := "buster",
    "stretch-backports" := "stretch"
  ]

  /** The Debian releases the map can produce. */
  const DEBIAN_BASES: set<string> := {"buzz", "jessie", "buster", "stretch"}

  /** `get_debian_base_release`: a dictionary lookup that falls back to the
      name itself. */
  function GetDebianBaseRelease(release: string): string
  {
    if release in RELEASE_MAP then RELEASE_MAP[release] else release
  }

  /** The result is the input or one of the four Debian base releases. */
  lemma ResultRange(release: string)
    ensures GetDebianBaseRelease(release) == release
         || GetDebianBaseRelease(release) in DEBIAN_BASES
  {
  }

  /** No value of the map is also one of its keys. */
  lemma ValuesAreNotKeys()
    ensures forall v :: v in RELEASE_MAP.Values ==> v !in RELEASE_MAP
  {
    forall v | v in RELEASE_MAP.Values
      ensures v in DEBIAN_BASES
    {
      var k :| k in RELEASE_MAP && RELEASE_MAP[k] == v;
    }
    assert forall b :: b in DEBIAN_BASES ==> b !in RELEASE_MAP;
  }

  /** Mapping twice is the same as mapping once. */
  lemma Idempotent(release: string)
    ensures GetDebianBaseRelease(GetDebianBaseRelease(release)) == GetDebianBaseRelease(release)
  {
    ValuesAreNotKeys();
    if release in RELEASE_MAP {
      assert RELEASE_MAP[release] in RELEASE_MAP.Values;
    }
  }

  /** A BunsenLabs name is always translated to a different, Debian name; any
      other name is passed through. */
  lemma TranslatesExactlyTheKeys(release: string)
    ensures release in RELEASE_MAP <==> GetDebianBaseRelease(release) != release
    ensures release in RELEASE_MAP ==> GetDebianBaseRelease(release) in DEBIAN_BASES
  {
    ValuesAreNotKeys();
    if release in RELEASE_MAP {
      assert RELEASE_MAP[release] in RELEASE_MAP.Values;
    }
  }

  /** Two of the table's entries, as examples. */
  lemma Examples()
    ensures GetDebianBaseRelease("lithium") == "buster"
    ensures GetDebianBaseRelease("helium") == "stretch"
    ensures GetDebianBaseRelease("unstable") == "unstable"
  {
  }
}
