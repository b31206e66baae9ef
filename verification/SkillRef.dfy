/** Parsing the skill reference that a job submission names. */
module SkillRef {
  import opened Wrappers
  import opened PyStr

  const SCHEME := "lake://skills/"
  const BUCKET := "s3://"
  const ZIP := ".zip"

  datatype Ref = Ref(name: string, version: string)

  predicate IsDigit(c: char) { '0' <= c <= '9' }

  function DigitRun(s: string): (n: nat)
    ensures n <= |s| && (forall i | 0 <= i < n :: IsDigit(s[i])) && (n < |s| ==> !IsDigit(s[n]))
  {
    if s == "" || !IsDigit(s[0]) then 0 else 1 + DigitRun(s[1..])
  }

  /** `groups` runs of digits separated by single dots: `\d+\.\d+\.\d+` for three. */
  predicate IsVersion(s: string, groups: nat) {
    var n := DigitRun(s);
    n > 0 && (if groups <= 1 then n == |s| else n < |s| && s[n] == '.' && IsVersion(s[n + 1..], groups - 1))
  }

  predicate EndsWith(s: string, suffix: string) {
    |suffix| <= |s| && s[|s| - |suffix|..] == suffix
  }

  /** The version that `-v(\d+\.\d+\.\d+)\.zip$` captures; `$` also matches before a final newline. */
  function VersionTail(s: string): Option<string> {
    var body := if EndsWith(s, ZIP + "\n") then s[..|s| - 1] else s;
    if "-v" <= body && EndsWith(body, ZIP) && |body| >= 6 && IsVersion(body[2..|body| - 4], 3)
    then Some(body[2..|body| - 4])
    else None
  }

  /** `^(.+?)-v...`: the shortest name of at least `i` characters that lets the rest match. */
  function MatchFrom(fname: string, i: nat): Option<Ref>
    decreases |fname| - i
  {
    if i > |fname| || '\n' in fname[..i] then None
    else if VersionTail(fname[i..]).Some? then Some(Ref(fname[..i], VersionTail(fname[i..]).value))
    else MatchFrom(fname, i + 1)
  }

  function AfterLastSlash(s: string): string {
    match LastIndex(s, '/')
    case None => s
    case Some(i) => s[i + 1..]
  }

  function Parse(skillRef: string): Ref {
    var rest := Replace(skillRef, SCHEME, "");
    if BUCKET <= skillRef then
      var fname := AfterLastSlash(skillRef);
      match MatchFrom(fname, 1)
      case Some(ref) => ref
      case None => Ref(Replace(fname, ZIP, ""), "latest")
    else SplitRef(rest)
  }

  /** `rsplit("@", 1)`. */
  function SplitRef(rest: string): Ref {
    match LastIndex(rest, '@')
    case Some(i) => Ref(rest[..i], rest[i + 1..])
    case None => Ref(rest, "latest")
  }

  // ---- lake references ----

  lemma SplitAtLast(left: string, c: char, right: string)
    requires c !in right
    ensures LastIndex(left + ([c] + right), c) == Some(|left|)
  {
    hide LastIndex;
    var s := left + ([c] + right);
    assert s[|left|] == c;
    forall k | |left| < k < |s| ensures s[k] != c { assert s[k] == right[k - |left| - 1] && s[k] in right; }
  }

  lemma StripScheme(body: string)
    ensures Parse(SCHEME + body) == SplitRef(Replace(body, SCHEME, ""))
  {
    var full := SCHEME + body;
    assert full[..|SCHEME|] == SCHEME && full[|SCHEME|..] == body;
    assert "" + Replace(body, SCHEME, "") == Replace(body, SCHEME, "");
    assert full[0] != BUCKET[0];
  }

  /** What `name@version` splits into has no '@' in the version and the same length. */
  lemma SplitRefBack(rest: string)
    requires '@' in rest
    ensures var ref := SplitRef(rest);
            |ref.name| + 1 + |ref.version| == |rest| && '@' !in ref.version
  {
  }

  lemma SplitRefOf(name: string, version: string)
    requires '@' !in version
    ensures SplitRef(name + ("@" + version)) == Ref(name, version)
  {
    SplitAtLast(name, '@', version);
    var s := name + ("@" + version);
    assert s[..|name|] == name && s[|name| + 1..] == version;
  }

  lemma UnambiguousParsesBack(name: string, version: string)
    requires '@' !in version && !Contains(name + ("@" + version), SCHEME)
    ensures Parse(SCHEME + (name + ("@" + version))) == Ref(name, version)
  {
    hide Parse, Contains, Replace, SplitRef;
    StripScheme(name + ("@" + version));
    ReplaceAbsent(name + ("@" + version), SCHEME, "");
    SplitRefOf(name, version);
  }

  lemma AmbiguousParsesOtherwise(name: string, version: string)
    requires '@' in version || Contains(name + ("@" + version), SCHEME)
    ensures Parse(SCHEME + (name + ("@" + version))) != Ref(name, version)
  {
    hide Parse, Contains, Replace, SplitRef;
    var body := name + ("@" + version);
    StripScheme(body);
    ReplaceShrinks(body, SCHEME, "");
    assert body[|name|] == '@';
    ReplaceKeepsCharacter(body, SCHEME, "", '@');
    SplitRefBack(Replace(body, SCHEME, ""));
  }

  /** A reference built from a name and a version parses back exactly when it is unambiguous. */
  lemma LakeRefParsesBack(name: string, version: string)
    ensures var body := name + ("@" + version);
            Parse(SCHEME + body) == Ref(name, version) <==> '@' !in version && !Contains(body, SCHEME)
  {
    hide Parse, Contains;
    if '@' !in version && !Contains(name + ("@" + version), SCHEME) {
      UnambiguousParsesBack(name, version);
    } else {
      AmbiguousParsesOtherwise(name, version);
    }
  }

  /** Without a version the latest is meant. */
  lemma UnversionedIsLatest(name: string)
    requires '@' !in name && !Contains(name, SCHEME)
    ensures Parse(SCHEME + name) == Ref(name, "latest")
  {
    StripScheme(name);
    ReplaceAbsent(name, SCHEME, "");
  }

  // ---- packaged references ----

  /** A version holds digits and dots only. */
  lemma {:induction false} VersionCharacters(s: string, groups: nat, i: nat)
    requires IsVersion(s, groups) && i < |s|
    ensures IsDigit(s[i]) || s[i] == '.'
  {
    var n := DigitRun(s);
    if groups > 1 && i > n { VersionCharacters(s[n + 1..], groups - 1, i - n - 1); }
  }

  /** `0` to `9`. */
  predicate Digits(s: string) {
    s != "" && forall i | 0 <= i < |s| :: s[i] in "0123456789"
  }

  lemma DigitIs(c: char)
    ensures IsDigit(c) <==> c in "0123456789"
  {
    if IsDigit(c) {
      assert "0123456789"[c as int - '0' as int] == c;
    }
  }

  lemma {:induction false} RunThenRest(run: string, rest: string)
    requires Digits(run) && (rest == "" || rest[0] == '.')
    ensures DigitRun(run + rest) == |run|
  {
    var s := run + rest;
    DigitIs(run[0]);
    assert s[1..] == run[1..] + rest;
    if |run| > 1 { RunThenRest(run[1..], rest); }
  }

  lemma RunIsDigits(s: string)
    requires DigitRun(s) > 0
    ensures Digits(s[..DigitRun(s)])
  {
    forall i | 0 <= i < DigitRun(s) ensures s[i] in "0123456789" { DigitIs(s[i]); }
  }

  lemma ThreeRunsAreAVersion(major: string, minor: string, patch: string)
    requires Digits(major) && Digits(minor) && Digits(patch)
    ensures IsVersion(major + ("." + (minor + ("." + patch))), 3)
  {
    hide DigitRun;
    var second := minor + ("." + patch);
    var whole := major + ("." + second);
    RunThenRest(major, "." + second);
    RunThenRest(minor, "." + patch);
    RunThenRest(patch, "");
    assert patch + "" == patch;
    assert whole[|major| + 1..] == second && second[|minor| + 1..] == patch;
    assert IsVersion(patch, 1) && IsVersion(second, 2);
  }

  /** A version starts with a run of digits; what follows the dot is a version of one group less. */
  lemma FirstRun(s: string, groups: nat) returns (run: string, rest: string)
    requires groups > 1 && IsVersion(s, groups)
    ensures Digits(run) && IsVersion(rest, groups - 1) && s == run + ("." + rest)
  {
    var n := DigitRun(s);
    RunIsDigits(s);
    run, rest := s[..n], s[n + 1..];
  }

  lemma LastRun(s: string)
    requires IsVersion(s, 1)
    ensures Digits(s)
  {
    RunIsDigits(s);
    assert s[..DigitRun(s)] == s;
  }

  ghost predicate ThreeRuns(s: string, major: string, minor: string, patch: string) {
    Digits(major) && Digits(minor) && Digits(patch) && s == major + ("." + (minor + ("." + patch)))
  }

  /** A version is three runs of digits separated by dots, and nothing else is. */
  lemma VersionIsThreeRuns(s: string)
    ensures IsVersion(s, 3) <==> exists major, minor, patch :: ThreeRuns(s, major, minor, patch)
  {
    hide IsVersion, Digits;
    if IsVersion(s, 3) {
      var major, rest := FirstRun(s, 3);
      var minor, patch := FirstRun(rest, 2);
      LastRun(patch);
      assert ThreeRuns(s, major, minor, patch);
    }
    forall major, minor, patch | ThreeRuns(s, major, minor, patch) ensures IsVersion(s, 3) {
      ThreeRunsAreAVersion(major, minor, patch);
    }
  }

  lemma EndsAlike(s: string, suffix: string)
    requires s != "" && suffix != ""
    ensures EndsWith(s, suffix) ==> s[|s| - 1] == suffix[|suffix| - 1]
  {
  }

  /** `name-vX.Y.Z.zip` */
  function FileName(name: string, version: string): string {
    name + ("-v" + version + ZIP)
  }

  /** The version is found, and a final newline does not hide it. */
  lemma TailMatches(version: string)
    requires IsVersion(version, 3)
    ensures VersionTail("-v" + version + ZIP) == Some(version)
    ensures VersionTail("-v" + version + ZIP + "\n") == Some(version)
  {
    var s := "-v" + version + ZIP;
    assert s[|s| - 1] == 'p';
    EndsAlike(s, ZIP + "\n");
    assert s[|s| - 4..] == ZIP && s[..2] == "-v" && s[2..|s| - 4] == version;
    var line := s + "\n";
    assert line[|line| - 5..] == ZIP + "\n" && line[..|line| - 1] == s;
  }

  /** No shorter name lets the rest match, even when the name itself contains version text. */
  lemma TailTooLong(front: string, version: string)
    requires front != "" && IsVersion(version, 3)
    ensures VersionTail(front + ("-v" + version + ZIP)).None?
  {
    var s := front + ("-v" + version + ZIP);
    var n := |front|;
    assert s[n] == '-' && s[n + 1] == 'v' && s[|s| - 1] == 'p';
    EndsAlike(s, ZIP + "\n");
    if "-v" <= s && IsVersion(s[2..|s| - 4], 3) {
      assert s[0] == '-' && s[1] == 'v';
      assert n >= 2;
      VersionCharacters(s[2..|s| - 4], 3, n - 2);
    }
  }

  lemma {:induction false} NameIsFound(name: string, version: string, i: nat)
    requires 1 <= i <= |name| && '\n' !in name && IsVersion(version, 3)
    ensures MatchFrom(FileName(name, version), i) == Some(Ref(name, version))
    decreases |name| - i
  {
    var fname := FileName(name, version);
    assert fname[..i] == name[..i];
    assert fname[i..] == name[i..] + ("-v" + version + ZIP);
    if i == |name| {
      TailMatches(version);
      assert name[i..] + ("-v" + version + ZIP) == "-v" + version + ZIP;
    } else {
      TailTooLong(name[i..], version);
      NameIsFound(name, version, i + 1);
    }
  }

  lemma PackageRefParsesBack(path: string, name: string, version: string)
    requires name != "" && '/' !in name && '\n' !in name && IsVersion(version, 3)
    ensures Parse(BUCKET + path + "/" + FileName(name, version)) == Ref(name, version)
  {
    var fname := FileName(name, version);
    var left := BUCKET + path;
    var full := BUCKET + path + "/" + fname;
    assert '/' !in fname by {
      assert forall i | 0 <= i < |version| :: version[i] != '/' by {
        forall i | 0 <= i < |version| ensures version[i] != '/' { VersionCharacters(version, 3, i); }
      }
    }
    SplitAtLast(left, '/', fname);
    assert full == left + (['/'] + fname);
    assert full[|left| + 1..] == fname;
    assert BUCKET <= full;
    NameIsFound(name, version, 1);
  }

  lemma {:induction false} NoTailNoMatch(fname: string, i: nat)
    requires forall k: nat | i <= k <= |fname| :: VersionTail(fname[k..]).None?
    ensures MatchFrom(fname, i).None?
    decreases |fname| - i
  {
    if i <= |fname| { NoTailNoMatch(fname, i + 1); }
  }

  lemma NotAtStart(s: string, pat: string)
    requires s != "" && pat != "" && !Contains(s, pat) && pat[0] !in pat[1..]
    ensures (s + pat)[..|pat|] != pat
  {
    var full := s + pat;
    if |s| >= |pat| {
      assert s[0..0 + |pat|] == full[..|pat|];
      assert !OccursAt(s, pat, 0);
    } else {
      assert full[..|pat|][|s|] == pat[0] && pat[|s|] == pat[1..][|s| - 1] && pat[|s|] in pat[1..];
    }
  }

  lemma {:induction false} ReplaceAtEnd(s: string, pat: string)
    requires pat != "" && !Contains(s, pat) && pat[0] !in pat[1..]
    ensures Replace(s + pat, pat, "") == s
    decreases |s|
  {
    var full := s + pat;
    if s == "" {
      assert full == pat && full[|pat|..] == "";
    } else {
      NotAtStart(s, pat);
      assert full[1..] == s[1..] + pat;
      if Contains(s[1..], pat) { ContainsShift(s, 1, pat); }
      ReplaceAtEnd(s[1..], pat);
    }
  }

  lemma TailInName(name: string, k: nat)
    requires k <= |name + ZIP| && VersionTail((name + ZIP)[k..]).Some?
    ensures Contains(name, "-v")
  {
    var s := (name + ZIP)[k..];
    assert s[0] == '-' && s[1] == 'v' && |s| >= 6;
    assert name[k..k + 2] == "-v";
    assert OccursAt(name, "-v", k);
  }

  /** A package whose file name holds no version is the latest of that name. */
  lemma PlainPackageIsLatest(path: string, name: string)
    requires '/' !in name && !Contains(name, "-v") && !Contains(name, ZIP)
    ensures Parse(BUCKET + path + "/" + (name + ZIP)) == Ref(name, "latest")
  {
    hide Replace, Contains, VersionTail;
    var fname := name + ZIP;
    var left := BUCKET + path;
    var full := BUCKET + path + "/" + fname;
    SplitAtLast(left, '/', fname);
    assert full == left + (['/'] + fname);
    assert full[|left| + 1..] == fname;
    forall k: nat | k <= |fname| ensures VersionTail(fname[k..]).Some? ==> Contains(name, "-v") {
      if VersionTail(fname[k..]).Some? { TailInName(name, k); }
    }
    NoTailNoMatch(fname, 1);
    ReplaceAtEnd(name, ZIP);
    assert BUCKET <= full;
  }

  /** The same file cannot stand for two names or two versions. */
  lemma FileNameInjective(name: string, version: string, name2: string, version2: string)
    requires name != "" && '\n' !in name && IsVersion(version, 3)
    requires name2 != "" && '\n' !in name2 && IsVersion(version2, 3)
    requires FileName(name, version) == FileName(name2, version2)
    ensures name == name2 && version == version2
  {
    NameIsFound(name, version, 1);
    NameIsFound(name2, version2, 1);
  }
}
