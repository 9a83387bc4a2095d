/** Accepted requests whose command the C helper rejects. */
module WindowsExamples {
  import opened Wrappers
  import opened Glob
  import opened Permutations
  import opened Rules
  import opened Normalize
  import opened WindowsCommand

  /** One rule that sends the TCP traffic of a program to the proxy. */
  function Sample(pattern: string): RulesRequest {
    RulesRequest(PROTOCOL_VERSION, "windows", WINDOWS_PROXY_PORT, true, false, false, [SampleRule(pattern)])
  }

  function SampleRule(pattern: string): Rule {
    Rule("1", "executable_path", pattern, pattern, "tcp", "proxy", true, 1)
  }

  lemma {:induction false} StarFreeMatches(p: string, v: string)
    requires StarFree(p) && Matches(p, v)
    ensures p == v
  {
    if p != [] {
      assert p[0] != '*';
      StarFreeMatches(p[1..], v[1..]);
      assert p == [p[0]] + p[1..] && v == [v[0]] + v[1..];
    }
  }

  /** A pattern without stars covers a name only if they are equal but for case. */
  lemma CoversOnlyEqual(p: string, name: string)
    requires StarFree(p) && StarFree(name) && GoMatches(p, name)
    ensures Lower(p) == Lower(name)
  {
    GoMeaning(p, name);
    StarFreeMatches(Lower(p), Lower(name));
  }

  /** No protected name has this character, which is not a letter, at this place. */
  predicate Apart(name: string, k: nat, c: char) {
    StarFree(name) && (k < |name| ==> name[k] != c)
  }

  lemma {:induction false} NotCovering(p: string, names: seq<string>, k: nat, c: char)
    requires StarFree(p) && k < |p| && p[k] == c && !('a' <= c <= 'z') && !('A' <= c <= 'Z')
    requires forall i :: 0 <= i < |names| ==> Apart(names[i], k, c)
    ensures !CoversAny(p, names)
  {
    if names != [] {
      NotCoveringOne(p, names[0], k, c);
      NotCovering(p, names[1..], k, c);
    }
  }

  lemma NotCoveringOne(p: string, name: string, k: nat, c: char)
    requires StarFree(p) && k < |p| && p[k] == c && !('a' <= c <= 'z') && !('A' <= c <= 'Z') && Apart(name, k, c)
    ensures !GoMatches(p, name)
  {
    assert Lower(p)[k] == LowerChar(c) == c;
    assert k < |name| ==> Lower(name)[k] == LowerChar(name[k]) != c;
    if GoMatches(p, name) { CoversOnlyEqual(p, name); }
  }

  lemma NamesApart(name: string)
    requires name in PROTECTED_NAMES
    ensures Apart(name, 0, '.') && Apart(name, 1, '&')
  {
    ProtectedNamesStarFree(name);
    NamesStart(name);
  }

  lemma NamesStart(name: string)
    requires name in PROTECTED_NAMES
    ensures |name| > 1 && name[0] != '.' && name[1] != '&'
  {
  }

  lemma SampleSetupApart()
    ensures Apart(SAMPLE_SETUP, 0, '.') && Apart(SAMPLE_SETUP, 1, '&')
  {
    var a, b := "kokorobox-desktop-", "windows-2.0.0-x64-setup.exe";
    SetupParts(a, b);
    Letters(a, b);
  }

  lemma SetupParts(a: string, b: string)
    requires a == "kokorobox-desktop-" && b == "windows-2.0.0-x64-setup.exe"
    ensures SAMPLE_SETUP == a + b
  {
  }

  lemma Letters(a: string, b: string)
    requires a == "kokorobox-desktop-" && b == "windows-2.0.0-x64-setup.exe"
    ensures StarFree(a) && StarFree(b) && a[0] != '.' && a[1] != '&'
  {
  }

  /** The program of the sample is not protected. */
  lemma Unprotected(p: string, k: nat, c: char)
    requires StarFree(p) && k < |p| && p[k] == c && ((k == 0 && c == '.') || (k == 1 && c == '&'))
    ensures !IsProtectedProcessPattern(p)
  {
    var names := PROTECTED_NAMES;
    forall i | 0 <= i < |names| ensures Apart(names[i], k, c) {
      NamesApart(names[i]);
    }
    NotCovering(p, names, k, c);
    SampleSetupApart();
    NotCoveringOne(p, SAMPLE_SETUP, k, c);
  }

  lemma SampleValid(p: string)
    requires ValidWindowsExecutablePattern(p) && '\\' !in p && !IsProtectedProcessPattern(p)
    ensures ValidRule(Fill(SampleRule(p)), "windows")
  {
  }

  lemma SampleAcceptable(p: string)
    requires ValidWindowsExecutablePattern(p) && '\\' !in p && !IsProtectedProcessPattern(p)
    ensures Acceptable(Sample(p), "windows") && Platform(Sample(p), "windows") == "windows"
    ensures Normalized(Sample(p), "windows").rules == [SampleRule(p)]
  {
    SampleValid(p);
    OneAcceptable(SampleRule(p), FilledValid("windows"), FilledKey("windows"));
    OneSorted(SampleRule(p));
  }

  lemma OneAcceptable(rule: Rule, valid: Rule -> bool, key: Rule -> string)
    requires valid(rule) && RuleBytes(rule) <= MAX_TOTAL_BYTES
    ensures AcceptableBy([rule], valid, key)
  {
    assert [rule][1..] == [];
    assert Sum([rule], RuleBytes) == RuleBytes(rule);
  }

  lemma OneSorted(rule: Rule)
    requires Fill(rule) == rule && rule.priority == 1
    ensures Renumber(SortBy([rule], RulePriority)) == [rule]
  {
    assert [rule][1..] == [];
    assert SortBy([rule], RulePriority) == [rule];
  }

  /** The helper rejects the command of an accepted request whose one pattern does not survive. */
  lemma SampleRejected(p: string, available: bool)
    requires ValidWindowsExecutablePattern(p) && '\\' !in p && !IsProtectedProcessPattern(p) && !Survives(p)
    ensures Acceptable(Sample(p), "windows") &&
            Printing(BuildRouterCommand(Normalized(Sample(p), "windows"), available))
    ensures ReadCommand(CommandText(BuildRouterCommand(Normalized(Sample(p), "windows"), available))) == None
  {
    SampleAcceptable(p);
    WindowsRoundTrip(Sample(p), "windows", available);
    assert !AllSurvive([SampleRule(p)]) by { assert !Survives([SampleRule(p)][0].executablePath); }
  }

  lemma SuffixOfSample(p: string)
    requires p == "a&b.exe"
    ensures HasSuffix(Lower(p), ".exe")
  {
    assert Lower(p) == p && p[3..] == ".exe";
  }

  lemma AmpersandAccepted(p: string)
    requires p == "a&b.exe"
    ensures ValidWindowsExecutablePattern(p) && '\\' !in p && StarFree(p) && p[1] == '&' && !Survives(p)
  {
    SuffixOfSample(p);
    assert p[1] == '&';
  }

  /** An ampersand is legal in a Windows file name: the request is accepted, and the helper rejects its command. */
  lemma AmpersandRejected(available: bool)
    ensures var request := Sample("a&b.exe");
            && Acceptable(request, "windows") && Printing(BuildRouterCommand(Normalized(request, "windows"), available))
            && ReadCommand(CommandText(BuildRouterCommand(Normalized(request, "windows"), available))) == None
  {
    var p := "a&b.exe";
    AmpersandAccepted(p);
    Unprotected(p, 1, '&');
    SampleRejected(p, available);
  }

  lemma BareExtensionAccepted(p: string)
    requires p == ".EXE"
    ensures ValidWindowsExecutablePattern(p) && '\\' !in p && StarFree(p) && p[0] == '.' && !Survives(p)
  {
    assert Lower(p) == ".exe" && Lower(p)[0..] == ".exe";
    assert p[1] != ".exe"[1];
  }

  /**
   The service tests for ".exe" alone by case, the helper by length: the
   request is accepted and its command rejected.
  */
  lemma BareExtensionRejected(available: bool)
    ensures var request := Sample(".EXE");
            && Acceptable(request, "windows") && Printing(BuildRouterCommand(Normalized(request, "windows"), available))
            && ReadCommand(CommandText(BuildRouterCommand(Normalized(request, "windows"), available))) == None
  {
    var p := ".EXE";
    BareExtensionAccepted(p);
    Unprotected(p, 0, '.');
    SampleRejected(p, available);
  }
}
