/** Reading the effective capabilities of a process from procfs
    (dockerbuild/cap.py).

    procfs is an input: whether `/proc` exists, and for each pid whose
    `/proc/<pid>/status` is a regular file, the lines of that file, each with
    its trailing newline as Python's line iterator yields it. */
module Caps {
  import opened Wrappers
  import opened Strings

  /** `CAPABILITIES`: the name of bit `i` is `CAPABILITIES[i]`. */
  const CAPABILITIES: seq<string> := [
    "CAP_CHOWN", "CAP_DAC_OVERRIDE", "CAP_DAC_READ_SEARCH", "CAP_FOWNER",
    "CAP_FSETID", "CAP_KILL", "CAP_SETGID", "CAP_SETUID",
    "CAP_SETPCAP", "CAP_LINUX_IMMUTABLE", "CAP_NET_BIND_SERVICE", "CAP_NET_BROADCAST",
    "CAP_NET_ADMIN", "CAP_NET_RAW", "CAP_IPC_LOCK", "CAP_IPC_OWNER",
    "CAP_SYS_MODULE", "CAP_SYS_RAWIO", "CAP_SYS_CHROOT", "CAP_SYS_PTRACE",
    "CAP_SYS_PACCT", "CAP_SYS_ADMIN", "CAP_SYS_BOOT", "CAP_SYS_NICE",
    "CAP_SYS_RESOURCE", "CAP_SYS_TIME", "CAP_SYS_TTY_CONFIG", "CAP_MKNOD",
    "CAP_LEASE", "CAP_AUDIT_WRITE", "CAP_AUDIT_CONTROL", "CAP_SETFCAP",
    "CAP_MAC_OVERRIDE", "CAP_MAC_ADMIN", "CAP_SYSLOG", "CAP_WAKE_ALARM",
    "CAP_BLOCK_SUSPEND", "CAP_AUDIT_READ"
  ]

  /** Bits 0 to 37 all set. */
  const FULLCAP: int := 0x3F_FFFF_FFFF

  const FULLCAP_SET: set<string> := set name | name in CAPABILITIES

  datatype ProcFs = ProcFs(present: bool, status: map<int, seq<string>>)

  datatype ProcessCapabilities = ProcessCapabilities(pid: int, effective: set<string>, unknown: set<int>)

  /** `CapsUnsupportedError`, `CapsProcessNotFoundError`, the failed
      `assert` on an empty field, and the `ValueError` of `int(…, 16)`. */
  datatype CapsError = CapsUnsupported | ProcessNotFound | EmptyField | InvalidHex

  function Pow2(n: nat): (r: nat)
    ensures r >= 1
  {
    if n == 0 then 1 else 2 * Pow2(n - 1)
  }

  /** `caps >> i`: Dafny's `/` by 2 rounds down like Python's `>>`. */
  function Shr(caps: int, i: nat): int
    decreases i
  {
    if i == 0 then caps else Shr(caps / 2, i - 1)
  }

  /** `((caps >> i) & 0x1) == 1`. */
  predicate Bit(caps: int, i: nat)
  {
    Shr(caps, i) % 2 == 1
  }

  /** The names of the set bits among 0 to 37. */
  function KnownCaps(caps: int): set<string>
  {
    set i | 0 <= i < |CAPABILITIES| && Bit(caps, i) :: CAPABILITIES[i]
  }

  /** The set bits among 38 to 63. */
  function UnknownCaps(caps: int): set<int>
  {
    set i: int | |CAPABILITIES| <= i < 64 && Bit(caps, i)
  }

  /** The bit loop of `get_process_capabilities`, over bits 0 to 63. */
  method DecodeMask(caps: int) returns (effective: set<string>, unknown: set<int>)
    ensures effective == KnownCaps(caps)
    ensures unknown == UnknownCaps(caps)
  {
    effective, unknown := {}, {};
    for i := 0 to 64
      invariant effective == set j | 0 <= j < i && j < |CAPABILITIES| && Bit(caps, j) :: CAPABILITIES[j]
      invariant unknown == set j: int | |CAPABILITIES| <= j < i && Bit(caps, j)
    {
      if Shr(caps, i) % 2 == 1 {
        if i < |CAPABILITIES| {
          effective := effective + {CAPABILITIES[i]};
        } else {
          unknown := unknown + {i};
        }
      }
    }
  }

  function HexDigitValue(ch: char): Option<nat>
  {
    if '0' <= ch <= '9' then Some(ch as nat - '0' as nat)
    else if 'a' <= ch <= 'f' then Some(ch as nat - 'a' as nat + 10)
    else if 'A' <= ch <= 'F' then Some(ch as nat - 'A' as nat + 10)
    else None
  }

  /** `int(s, 16)` on a text of hexadecimal digits; anything else raises
      `ValueError`. */
  function ParseHex(s: string): Option<nat>
  {
    if s == [] then None
    else if |s| == 1 then HexDigitValue(s[0])
    else
      match (ParseHex(s[..|s| - 1]), HexDigitValue(s[|s| - 1]))
      case (Some(high), Some(low)) => Some(high * 16 + low)
      case _ => None
  }

  /** `s.split(chr(0x09), 1)[-1]`: the text after the first tab, or all of
      it when there is none. */
  function AfterFirstTab(s: string): string
  {
    if s == [] then []
    else if s[0] == '\t' then s[1..]
    else if '\t' in s[1..] then AfterFirstTab(s[1..])
    else s
  }

  /** The mask of a `CapEff` line: `line[:-1]` drops the newline. */
  function CapEffField(line: string): string
    requires line != []
  {
    AfterFirstTab(line[..|line| - 1])
  }

  /** The per-line step: `None` for a line that is not a `CapEff` line, the
      parsed mask otherwise. */
  function ParseCapEffLine(line: string): Result<Option<nat>, CapsError>
  {
    if !StartsWith(line, "CapEff") then Ok(None)
    else if CapEffField(line) == [] then Err(EmptyField)
    else match ParseHex(CapEffField(line))
      case None => Err(InvalidHex)
      case Some(caps) => Ok(Some(caps))
  }

  /** The line loop as written: on `FULLCAP` the full set is assigned to a
      misspelled, unused variable and the loop stops, so what was gathered so
      far is returned. */
  function ScanLines(lines: seq<string>, effective: set<string>, unknown: set<int>): Result<(set<string>, set<int>), CapsError>
  {
    if lines == [] then Ok((effective, unknown))
    else match ParseCapEffLine(lines[0])
      case Err(e) => Err(e)
      case Ok(None) => ScanLines(lines[1..], effective, unknown)
      case Ok(Some(caps)) =>
        if caps == FULLCAP then Ok((effective, unknown))
        else ScanLines(lines[1..], effective + KnownCaps(caps), unknown + UnknownCaps(caps))
  }

  /** The line loop as its doc comment intends: on `FULLCAP` the effective
      set becomes `FULLCAP_SET`. */
  function ScanLinesFixed(lines: seq<string>, effective: set<string>, unknown: set<int>): Result<(set<string>, set<int>), CapsError>
  {
    if lines == [] then Ok((effective, unknown))
    else match ParseCapEffLine(lines[0])
      case Err(e) => Err(e)
      case Ok(None) => ScanLinesFixed(lines[1..], effective, unknown)
      case Ok(Some(caps)) =>
        if caps == FULLCAP then Ok((FULLCAP_SET, unknown))
        else ScanLinesFixed(lines[1..], effective + KnownCaps(caps), unknown + UnknownCaps(caps))
  }

  function ReadCapabilities(proc: ProcFs, pid: int): Result<ProcessCapabilities, CapsError>
  {
    if !proc.present then Err(CapsUnsupported)
    else if pid !in proc.status then Err(ProcessNotFound)
    else match ScanLines(proc.status[pid], {}, {})
      case Err(e) => Err(e)
      case Ok(p) => Ok(ProcessCapabilities(pid, p.0, p.1))
  }

  function ReadCapabilitiesFixed(proc: ProcFs, pid: int): Result<ProcessCapabilities, CapsError>
  {
    if !proc.present then Err(CapsUnsupported)
    else if pid !in proc.status then Err(ProcessNotFound)
    else match ScanLinesFixed(proc.status[pid], {}, {})
      case Err(e) => Err(e)
      case Ok(p) => Ok(ProcessCapabilities(pid, p.0, p.1))
  }

  /** `get_process_capabilities` as written. */
  method GetProcessCapabilities(proc: ProcFs, pid: int) returns (r: Result<ProcessCapabilities, CapsError>)
    ensures r == ReadCapabilities(proc, pid)
  {
    if !proc.present {
      return Err(CapsUnsupported);
    }
    if pid !in proc.status {
      return Err(ProcessNotFound);
    }
    var lines := proc.status[pid];
    var effective: set<string>, unknown: set<int> := {}, {};
    var i := 0;
    while i < |lines|
      invariant 0 <= i <= |lines|
      invariant ScanLines(lines, {}, {}) == ScanLines(lines[i..], effective, unknown)
    {
      assert lines[i..][1..] == lines[i + 1..];
      var step := ParseCapEffLine(lines[i]);
      if step.Err? {
        return Err(step.error);
      }
      if step.value.Some? {
        var caps := step.value.value;
        if caps == FULLCAP {
          break;
        }
        var e, u := DecodeMask(caps);
        effective, unknown := effective + e, unknown + u;
      }
      i := i + 1;
    }
    return Ok(ProcessCapabilities(pid, effective, unknown));
  }

  /** `get_process_capabilities` with the `FULLCAP` assignment going to
      `effective_caps`. */
  method GetProcessCapabilitiesFixed(proc: ProcFs, pid: int) returns (r: Result<ProcessCapabilities, CapsError>)
    ensures r == ReadCapabilitiesFixed(proc, pid)
  {
    if !proc.present {
      return Err(CapsUnsupported);
    }
    if pid !in proc.status {
      return Err(ProcessNotFound);
    }
    var lines := proc.status[pid];
    var effective: set<string>, unknown: set<int> := {}, {};
    var i := 0;
    while i < |lines|
      invariant 0 <= i <= |lines|
      invariant ScanLinesFixed(lines, {}, {}) == ScanLinesFixed(lines[i..], effective, unknown)
    {
      assert lines[i..][1..] == lines[i + 1..];
      var step := ParseCapEffLine(lines[i]);
      if step.Err? {
        return Err(step.error);
      }
      if step.value.Some? {
        var caps := step.value.value;
        if caps == FULLCAP {
          effective := FULLCAP_SET;
          break;
        }
        var e, u := DecodeMask(caps);
        effective, unknown := effective + e, unknown + u;
      }
      i := i + 1;
    }
    return Ok(ProcessCapabilities(pid, effective, unknown));
  }

  /** The set test of `has_caps`: the intersection equals the requested set. */
  function HasAll(effective: set<string>, caps: set<string>): (r: bool)
    ensures r <==> caps <= effective
  {
    effective * caps == caps
  }

  /** `has_caps`, over the corrected reader. */
  method HasCaps(proc: ProcFs, pid: int, caps: set<string>) returns (r: Result<bool, CapsError>)
    ensures ReadCapabilitiesFixed(proc, pid).Err? ==> r == Err(ReadCapabilitiesFixed(proc, pid).error)
    ensures ReadCapabilitiesFixed(proc, pid).Ok? ==>
              r.Ok? && (r.value <==> caps <= ReadCapabilitiesFixed(proc, pid).value.effective)
  {
    var pc := GetProcessCapabilitiesFixed(proc, pid);
    if pc.Err? {
      return Err(pc.error);
    }
    return Ok(HasAll(pc.value.effective, caps));
  }

  // ---------------------------------------------------------------------
  // Properties of the decoder

  /** Every bit of the table has its own name. */
  lemma CapabilityNamesDistinct()
    ensures forall i, j :: 0 <= i < j < |CAPABILITIES| ==> CAPABILITIES[i] != CAPABILITIES[j]
  {
    NamesDistinctFrom0();
    NamesDistinctFrom3();
    NamesDistinctFrom6();
    NamesDistinctFrom13();
    NamesDistinctFrom22();
  }

  // The table is checked in slices of bits to keep each proof small.

  lemma NamesDistinctFrom0()
    ensures forall i, j :: 0 <= i < 3 && i < j < |CAPABILITIES| ==> CAPABILITIES[i] != CAPABILITIES[j]
  {
  }

  lemma NamesDistinctFrom3()
    ensures forall i, j :: 3 <= i < 6 && i < j < |CAPABILITIES| ==> CAPABILITIES[i] != CAPABILITIES[j]
  {
  }

  lemma NamesDistinctFrom6()
    ensures forall i, j :: 6 <= i < 13 && i < j < |CAPABILITIES| ==> CAPABILITIES[i] != CAPABILITIES[j]
  {
  }

  lemma NamesDistinctFrom13()
    ensures forall i, j :: 13 <= i < 22 && i < j < |CAPABILITIES| ==> CAPABILITIES[i] != CAPABILITIES[j]
  {
  }

  lemma NamesDistinctFrom22()
    ensures forall i, j :: 22 <= i < 38 && i < j < |CAPABILITIES| ==> CAPABILITIES[i] != CAPABILITIES[j]
  {
  }

  /** A known bit is set iff its name is among the effective capabilities. */
  lemma KnownBitIff(caps: int, i: nat)
    requires i < |CAPABILITIES|
    ensures CAPABILITIES[i] in KnownCaps(caps) <==> Bit(caps, i)
  {
    CapabilityNamesDistinct();
  }

  /** Reading a status file whose only `CapEff` line carries `mask`, every
      set bit from 38 to 63 is reported as unknown, and nothing else. */
  lemma UnknownBitIff(pre: seq<string>, mask: nat, post: seq<string>, pid: int, i: int)
    requires NoCapEffLine(pre) && NoCapEffLine(post)
    requires mask < Pow2(64)
    ensures var r := ReadCapabilitiesFixed(ProcFs(true, map[pid := StatusWithMask(pre, mask, post)]), pid);
      r.Ok? && (i in r.value.unknown <==> 38 <= i < 64 && Bit(mask, i))
  {
    FixedMatchesBitDecoding(pre, mask, post, pid);
  }

  lemma Pow2Add(a: nat, b: nat)
    ensures Pow2(a + b) == Pow2(a) * Pow2(b)
  {
    if a > 0 {
      Pow2Add(a - 1, b);
    }
  }

  lemma {:induction false} ShrAddMultiple(caps: int, m: int, n: nat, i: nat)
    requires i < n
    decreases i
    ensures Shr(caps + m * Pow2(n), i) % 2 == Shr(caps, i) % 2
  {
    var t := m * Pow2(n - 1);
    assert m * Pow2(n) == 2 * t;
    if i > 0 {
      assert (caps + 2 * t) / 2 == caps / 2 + t;
      ShrAddMultiple(caps / 2, m, n - 1, i - 1);
    }
  }

  /** Adding a multiple of 2^64 changes no bit below 64. */
  lemma HighBitsIgnoredAt(caps: int, k: int, i: nat)
    requires i < 64
    ensures Bit(caps + k * Pow2(64), i) == Bit(caps, i)
  {
    ShrAddMultiple(caps, k, 64, i);
  }

  /** Bits at position 64 and above never reach either set. */
  lemma HighBitsIgnored(caps: int, k: int)
    ensures KnownCaps(caps + k * Pow2(64)) == KnownCaps(caps)
    ensures UnknownCaps(caps + k * Pow2(64)) == UnknownCaps(caps)
  {
    forall i: nat | i < 64
      ensures Bit(caps + k * Pow2(64), i) == Bit(caps, i)
    {
      HighBitsIgnoredAt(caps, k, i);
    }
  }

  lemma {:induction false} ShrPower(n: nat, i: nat)
    ensures i <= n ==> Shr(Pow2(n), i) == Pow2(n - i)
    ensures i > n ==> Shr(Pow2(n), i) == 0
  {
    if i > 0 {
      if n > 0 {
        ShrPower(n - 1, i - 1);
      } else {
        ShrZero(i - 1);
      }
    }
  }

  lemma {:induction false} ShrZero(i: nat)
    ensures Shr(0, i) == 0
  {
    if i > 0 {
      ShrZero(i - 1);
    }
  }

  /** Bit i of 2^n is set iff i == n. */
  lemma PowerBit(n: nat, i: nat)
    ensures Bit(Pow2(n), i) <==> i == n
  {
    ShrPower(n, i);
    if i < n {
      assert Pow2(n - i) == 2 * Pow2(n - i - 1);
    }
  }

  lemma {:induction false} ShrOnes(n: nat, i: nat)
    ensures i <= n ==> Shr(Pow2(n) - 1, i) == Pow2(n - i) - 1
    ensures i > n ==> Shr(Pow2(n) - 1, i) == 0
  {
    if i > 0 {
      if n > 0 {
        assert (Pow2(n) - 1) / 2 == Pow2(n - 1) - 1;
        ShrOnes(n - 1, i - 1);
      } else {
        ShrZero(i - 1);
      }
    }
  }

  /** Bit i of 2^n - 1 is set iff i < n. */
  lemma OnesBit(n: nat, i: nat)
    ensures Bit(Pow2(n) - 1, i) <==> i < n
  {
    ShrOnes(n, i);
    if i < n {
      assert Pow2(n - i) == 2 * Pow2(n - i - 1);
    }
  }

  lemma Pow2Values()
    ensures Pow2(38) == 0x40_0000_0000
    ensures Pow2(64) == 0x1_0000_0000_0000_0000
  {
    assert Pow2(1) == 2;
    assert Pow2(2) == 4;
    assert Pow2(3) == 8;
    assert Pow2(4) == 16;
    assert Pow2(5) == 32;
    assert Pow2(6) == 64;
    Pow2Add(6, 6);
    Pow2Add(12, 12);
    Pow2Add(24, 6);
    Pow2Add(30, 6);
    Pow2Add(36, 2);
    Pow2Add(30, 30);
    Pow2Add(60, 4);
  }

  /** A mask of 0 decodes to two empty sets. */
  lemma ZeroMask()
    ensures KnownCaps(0) == {} && UnknownCaps(0) == {}
  {
    forall i: nat ensures !Bit(0, i) { ShrZero(i); }
  }

  /** Only bit 0 set decodes to `{CAP_CHOWN}` and no unknown bits. */
  lemma ChownOnlyMask()
    ensures KnownCaps(1) == {"CAP_CHOWN"} && UnknownCaps(1) == {}
  {
    forall i: nat ensures Bit(1, i) <==> i == 0 { PowerBit(0, i); }
    assert KnownCaps(1) == {CAPABILITIES[0]};
  }

  /** Only bit 63 set decodes to no names and the unknown bit 63. */
  lemma Bit63OnlyMask()
    ensures KnownCaps(Pow2(63)) == {} && UnknownCaps(Pow2(63)) == {63}
  {
    forall i: nat ensures Bit(Pow2(63), i) <==> i == 63 { PowerBit(63, i); }
  }

  /** Decoding `FULLCAP` bit by bit would give exactly `FULLCAP_SET`. */
  lemma FullCapDecodes()
    ensures KnownCaps(FULLCAP) == FULLCAP_SET && UnknownCaps(FULLCAP) == {}
  {
    Pow2Values();
    assert FULLCAP == Pow2(38) - 1;
    forall i: nat ensures Bit(FULLCAP, i) <==> i < 38 { OnesBit(38, i); }
    forall name | name in FULLCAP_SET ensures name in KnownCaps(FULLCAP) {
      var i :| 0 <= i < |CAPABILITIES| && CAPABILITIES[i] == name;
    }
  }

  // ---------------------------------------------------------------------
  // The status file

  function Pow16(n: nat): (r: nat)
    ensures r >= 1
  {
    if n == 0 then 1 else 16 * Pow16(n - 1)
  }

  function LowerHexDigit(n: nat): char
    requires n < 16
  {
    if n < 10 then '0' + n as char else 'a' + (n - 10) as char
  }

  /** The kernel's `%016llx`-style rendering: `width` lower-case digits. */
  function FormatHex(x: nat, width: nat): (s: string)
    ensures |s| == width
  {
    if width == 0 then [] else FormatHex(x / 16, width - 1) + [LowerHexDigit(x % 16)]
  }

  /** Parsing a rendered mask gives back the mask. */
  lemma {:induction false} ParseFormatHex(x: nat, width: nat)
    requires 1 <= width && x < Pow16(width)
    ensures ParseHex(FormatHex(x, width)) == Some(x)
  {
    var s := FormatHex(x, width);
    assert s[|s| - 1] == LowerHexDigit(x % 16);
    assert HexDigitValue(LowerHexDigit(x % 16)) == Some(x % 16);
    if width > 1 {
      assert s[..|s| - 1] == FormatHex(x / 16, width - 1);
      ParseFormatHex(x / 16, width - 1);
    } else {
      assert x / 16 == 0;
    }
  }

  lemma {:induction false} Pow16IsPow2(n: nat)
    ensures Pow16(n) == Pow2(4 * n)
  {
    if n > 0 {
      Pow16IsPow2(n - 1);
      assert Pow2(4 * n) == 2 * Pow2(4 * n - 1);
      assert Pow2(4 * n - 1) == 2 * Pow2(4 * n - 2);
      assert Pow2(4 * n - 2) == 2 * Pow2(4 * n - 3);
      assert Pow2(4 * n - 3) == 2 * Pow2(4 * n - 4);
    }
  }

  lemma {:induction false} AfterTabPrefix(p: string, d: string)
    requires '\t' !in p
    ensures AfterFirstTab(p + "\t" + d) == d
  {
    var t := p + "\t" + d;
    if p == [] {
      assert t[1..] == d;
    } else {
      assert t[1..] == p[1..] + "\t" + d;
      assert '\t' in t[1..] by { assert t[1..][|p| - 1] == '\t'; }
      assert p[0] in p;
      AfterTabPrefix(p[1..], d);
    }
  }

  /** The `CapEff` line the kernel writes for a 64-bit mask parses back to
      that mask. */
  lemma KernelLineParses(mask: nat)
    requires mask < Pow2(64)
    ensures ParseCapEffLine("CapEff:\t" + FormatHex(mask, 16) + "\n") == Ok(Some(mask))
  {
    var digits := FormatHex(mask, 16);
    var line := "CapEff:\t" + digits + "\n";
    assert StartsWith(line, "CapEff") by { assert line[..6] == "CapEff"; }
    assert line[..|line| - 1] == "CapEff:\t" + digits;
    AfterTabPrefix("CapEff:", digits);
    assert "CapEff:" + "\t" + digits == "CapEff:\t" + digits;
    Pow16IsPow2(16);
    ParseFormatHex(mask, 16);
  }

  /** The status line the kernel writes for `mask`. */
  function KernelCapEffLine(mask: nat): string
  {
    "CapEff:\t" + FormatHex(mask, 16) + "\n"
  }

  predicate NoCapEffLine(lines: seq<string>)
  {
    forall k :: 0 <= k < |lines| ==> !StartsWith(lines[k], "CapEff")
  }

  lemma {:induction false} SkipOtherLines(pre: seq<string>, rest: seq<string>, e: set<string>, u: set<int>)
    requires NoCapEffLine(pre)
    ensures ScanLines(pre + rest, e, u) == ScanLines(rest, e, u)
    ensures ScanLinesFixed(pre + rest, e, u) == ScanLinesFixed(rest, e, u)
  {
    if pre != [] {
      assert (pre + rest)[0] == pre[0];
      assert !StartsWith(pre[0], "CapEff");
      assert ParseCapEffLine(pre[0]) == Ok(None);
      assert (pre + rest)[1..] == pre[1..] + rest;
      SkipOtherLines(pre[1..], rest, e, u);
    } else {
      assert pre + rest == rest;
    }
  }

  /** A status file whose only `CapEff` line is the kernel's line for `mask`. */
  function StatusWithMask(pre: seq<string>, mask: nat, post: seq<string>): seq<string>
  {
    pre + [KernelCapEffLine(mask)] + post
  }

  /** As written: a `FULLCAP` mask yields no effective capabilities at all. */
  lemma FullCapAsWrittenIsEmpty(pre: seq<string>, post: seq<string>, pid: int)
    requires NoCapEffLine(pre) && NoCapEffLine(post)
    ensures ReadCapabilities(ProcFs(true, map[pid := StatusWithMask(pre, FULLCAP, post)]), pid)
            == Ok(ProcessCapabilities(pid, {}, {}))
  {
    Pow2Values();
    KernelLineParses(FULLCAP);
    assert StatusWithMask(pre, FULLCAP, post) == pre + ([KernelCapEffLine(FULLCAP)] + post);
    SkipOtherLines(pre, [KernelCapEffLine(FULLCAP)] + post, {}, {});
  }

  /** Corrected, every 64-bit mask, `FULLCAP` included, yields exactly its
      decoded bits. */
  lemma FixedMatchesBitDecoding(pre: seq<string>, mask: nat, post: seq<string>, pid: int)
    requires NoCapEffLine(pre) && NoCapEffLine(post)
    requires mask < Pow2(64)
    ensures ReadCapabilitiesFixed(ProcFs(true, map[pid := StatusWithMask(pre, mask, post)]), pid)
            == Ok(ProcessCapabilities(pid, KnownCaps(mask), UnknownCaps(mask)))
  {
    KernelLineParses(mask);
    var line := KernelCapEffLine(mask);
    assert StatusWithMask(pre, mask, post) == pre + ([line] + post);
    SkipOtherLines(pre, [line] + post, {}, {});
    if mask == FULLCAP {
      FullCapDecodes();
    } else {
      assert ([line] + post)[1..] == post + [];
      assert {} + KnownCaps(mask) == KnownCaps(mask);
      assert {} + UnknownCaps(mask) == UnknownCaps(mask);
      SkipOtherLines(post, [], KnownCaps(mask), UnknownCaps(mask));
    }
  }

  /** The two readers differ only on `FULLCAP`. */
  lemma AsWrittenMatchesFixedElsewhere(pre: seq<string>, mask: nat, post: seq<string>, pid: int)
    requires NoCapEffLine(pre) && NoCapEffLine(post)
    requires mask < Pow2(64) && mask != FULLCAP
    ensures ReadCapabilities(ProcFs(true, map[pid := StatusWithMask(pre, mask, post)]), pid)
            == Ok(ProcessCapabilities(pid, KnownCaps(mask), UnknownCaps(mask)))
  {
    KernelLineParses(mask);
    var line := KernelCapEffLine(mask);
    assert StatusWithMask(pre, mask, post) == pre + ([line] + post);
    SkipOtherLines(pre, [line] + post, {}, {});
    assert ([line] + post)[1..] == post + [];
    assert {} + KnownCaps(mask) == KnownCaps(mask);
    assert {} + UnknownCaps(mask) == UnknownCaps(mask);
    SkipOtherLines(post, [], KnownCaps(mask), UnknownCaps(mask));
  }
}
