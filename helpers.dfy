/** src/core/helpers.ts: project path, version label and description fallbacks. */
module Helpers {
  import opened JsValue
  import opened Host
  import opened Decimal

  /** resolveProjectPath (helpers.ts:21-29). */
  function ResolveProjectPath(projectPath: string, cwd: string, paths: PathOps): (r: string)
    ensures projectPath == "" ==> r == cwd
    ensures projectPath != "" && paths.isAbsolute(projectPath) ==> r == projectPath
    ensures projectPath != "" && !paths.isAbsolute(projectPath) ==> r == paths.resolve(cwd, projectPath)
  {
    if projectPath == "" then cwd
    else if paths.isAbsolute(projectPath) then projectPath
    else paths.resolve(cwd, projectPath)
  }

  /** With an absolute working directory the resolved path is absolute ... */
  lemma ResolvedPathIsAbsolute(projectPath: string, cwd: string, paths: PathOps)
    requires ResolvesToAbsolute(paths) && paths.isAbsolute(cwd)
    ensures paths.isAbsolute(ResolveProjectPath(projectPath, cwd, paths))
  {
  }

  /** ... so resolving it again changes nothing. */
  lemma ResolveProjectPathIdempotent(projectPath: string, cwd: string, paths: PathOps)
    requires ResolvesToAbsolute(paths) && paths.isAbsolute(cwd)
    ensures var once := ResolveProjectPath(projectPath, cwd, paths);
            ResolveProjectPath(once, cwd, paths) == once
  {
    ResolvedPathIsAbsolute(projectPath, cwd, paths);
  }

  /** String(n).padStart(2, '0') */
  function Pad2(s: string): (r: string)
    ensures |s| >= 2 ==> r == s
    ensures |s| < 2 ==> |r| == 2 && r[2 - |s|..] == s && forall i :: 0 <= i < 2 - |s| ==> r[i] == '0'
  {
    if |s| >= 2 then s else seq(2 - |s|, _ => '0') + s
  }

  /** Two digits for any number below 100, denoting that number. */
  lemma Pad2Digits(n: nat)
    requires n < 100
    ensures var r := Pad2(NatToString(n));
            |r| == 2 && AllDigits(r) && DigitsValue(r) == n
  {
    NatToStringLength(n);
    var r := Pad2(NatToString(n));
    if n < 10 {
      assert r == ['0', NatToString(n)[0]];
      assert r[..1] == "0";
      assert DigitsValue("0") == 0 by {
        assert "0"[..0] == [];
      }
    }
  }

  /** s is a digit string denoting n. */
  predicate Denotes(s: string, n: nat) {
    AllDigits(s) && DigitsValue(s) == n
  }

  /** Two adjacent digit slices make one: a prefix grows by the slice after it ... */
  lemma AllDigitsPrefixJoin(s: string, j: nat, k: nat)
    requires j <= k <= |s| && AllDigits(s[..j]) && AllDigits(s[j..k])
    ensures AllDigits(s[..k])
  {
    forall m | 0 <= m < k
      ensures IsDigit(s[..k][m])
    {
      if m < j {
        assert s[..k][m] == s[..j][m];
      } else {
        assert s[..k][m] == s[j..k][m - j];
      }
    }
  }

  /** ... and a suffix by the slice before it. */
  lemma AllDigitsSuffixJoin(s: string, j: nat, k: nat)
    requires j <= k <= |s| && AllDigits(s[j..k]) && AllDigits(s[k..])
    ensures AllDigits(s[j..])
  {
    forall m | 0 <= m < |s| - j
      ensures IsDigit(s[j..][m])
    {
      if m < k - j {
        assert s[j..][m] == s[j..k][m];
      } else {
        assert s[j..][m] == s[k..][m - (k - j)];
      }
    }
  }

  /** A number below 100 padded to two digits. */
  function TwoDigits(n: nat): (r: string)
    requires n < 100
    ensures |r| == 2 && Denotes(r, n)
  {
    Pad2Digits(n);
    Pad2(NatToString(n))
  }

  /**
   * `${year}${month}${day}.${hour}${minute}`, month 1-based, the last four zero-padded (helpers.ts:52-59).
   * Whatever the year's width, the text after it is two digits each for month and day, a dot,
   * and two digits each for hour and minute, reading back as the date.
   */
  function Timestamp(d: DateParts): (r: string)
    requires ValidDate(d)
    ensures var n := |r|;
            && n >= 10 && r[..n - 9] == IntToString(d.year) && r[n - 5] == '.'
            && Denotes(r[n - 9..n - 7], d.month + 1) && Denotes(r[n - 7..n - 5], d.day)
            && Denotes(r[n - 4..n - 2], d.hour) && Denotes(r[n - 2..], d.minute)
  {
    var y, mo, da, h, mi := IntToString(d.year), TwoDigits(d.month + 1), TwoDigits(d.day), TwoDigits(d.hour), TwoDigits(d.minute);
    TimestampShape(y, mo, da, h, mi);
    y + mo + da + "." + h + mi
  }

  /** Where the pieces of a timestamp sit in it, counted from its end. */
  lemma TimestampShape(y: string, mo: string, da: string, h: string, mi: string)
    requires |y| >= 1 && |mo| == 2 && |da| == 2 && |h| == 2 && |mi| == 2
    ensures var r := y + mo + da + "." + h + mi;
            var n := |r|;
            && n == |y| + 9 && r[n - 5] == '.'
            && r[..n - 9] == y && r[n - 9..n - 7] == mo && r[n - 7..n - 5] == da && r[n - 4..n - 2] == h && r[n - 2..] == mi
  {
    var r := y + mo + da + "." + h + mi;
    assert r == y + (mo + da + "." + h + mi);
  }

  /** For a four-digit year the timestamp matches ^\d{8}\.\d{4}$, and its fields read back as the date. */
  lemma TimestampFormat(d: DateParts)
    requires ValidDate(d) && 1000 <= d.year <= 9999
    ensures var r := Timestamp(d);
            && |r| == 13 && r[8] == '.'
            && AllDigits(r[..8]) && AllDigits(r[9..])
            && Denotes(r[..4], d.year)
            && Denotes(r[4..6], d.month + 1)
            && Denotes(r[6..8], d.day)
            && Denotes(r[9..11], d.hour)
            && Denotes(r[11..], d.minute)
  {
    NatToStringLength(d.year);
    assert IntToString(d.year) == NatToString(d.year);
    var r := Timestamp(d);
    assert |r| == 13;
    AllDigitsPrefixJoin(r, 4, 6);
    AllDigitsPrefixJoin(r, 6, 8);
    AllDigitsSuffixJoin(r, 9, 11);
  }

  /** generateVersion (helpers.ts:36-60): the option, else a truthy package.json version, else the timestamp. */
  function GenerateVersion(options: map<string, Value>, pkg: PackageRead, now: DateParts): (r: Value)
    requires ValidDate(now)
    ensures Truthy(r)
    ensures Truthy(Field(options, "version")) ==> r == Field(options, "version")
    ensures !Truthy(Field(options, "version")) && pkg.Parsed? && Truthy(pkg.json) && Truthy(Property(pkg.json, "version")) ==>
              r == Property(pkg.json, "version")
    ensures !Truthy(Field(options, "version")) && !(pkg.Parsed? && Truthy(pkg.json) && Truthy(Property(pkg.json, "version"))) ==>
              r == Str(Timestamp(now))
  {
    if Truthy(Field(options, "version")) then Field(options, "version")
    else if pkg.Parsed? && Truthy(pkg.json) && Truthy(Property(pkg.json, "version")) then Property(pkg.json, "version")
    else Str(Timestamp(now))
  }

  /** A package.json that cannot be read only falls through to the timestamp (helpers.ts:48-49). */
  lemma UnreadablePackageGivesTimestamp(options: map<string, Value>, cause: string, now: DateParts)
    requires ValidDate(now) && !Truthy(Field(options, "version"))
    ensures GenerateVersion(options, Unreadable(cause), now) == Str(Timestamp(now))
  {
  }

  /** generateDesc (helpers.ts:66-75); the locale text of the clock is an input. */
  function GenerateDesc(options: map<string, Value>, localeNow: string): (r: Value)
    ensures Truthy(r)
    ensures Truthy(Field(options, "desc")) ==> r == Field(options, "desc")
    ensures !Truthy(Field(options, "desc")) ==> r == Str("CI构建 " + localeNow)
  {
    Or(Field(options, "desc"), Str("CI构建 " + localeNow))
  }
}
