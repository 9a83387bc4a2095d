/**
 Application-routing rules: validation, normalisation and the router command
 (processrouter/types.go). A Go string is modelled as its bytes, one `char` each, and case is
 folded over ASCII letters.
 */
module Rules {
  import opened Wrappers
  import opened Glob
  import opened Permutations

  const PROTOCOL_VERSION := 1
  const WINDOWS_PROXY_PORT := 7891
  const LINUX_PROXY_PORT := 7894
  const MAX_RULES := 256
  const MAX_PATH_BYTES := 1023
  const MAX_TOTAL_BYTES := 30000

  const PROTECTED_NAMES := [
    "kokorobox.exe", "mihomo.exe", "mihomo-alpha.exe", "kokorobox-service.exe", "sparkle-service.exe",
    "kokorobox-process-router.exe", "crashpad_handler.exe", "elevate.exe", "kokorobox", "mihomo",
    "mihomo-alpha", "kokorobox-service", "crashpad_handler", "chrome_crashpad_handler"]
  const SAMPLE_SETUP := "kokorobox-desktop-windows-2.0.0-x64-setup.exe"

  datatype Rule = Rule(id: string, matchKind: string, executablePath: string, executableName: string,
      protocol: string, action: string, enabled: bool, priority: int)

  datatype RulesRequest = RulesRequest(version: int, platform: string, proxyPort: int, failClosed: bool,
      proxyUdpDns: bool, diagnosticLogging: bool, rules: seq<Rule>)

  datatype RouterRule = RouterRule(processPattern: string, matchKind: string, protocol: string, action: string,
      enabled: bool, priority: int)

  datatype RouterCommand = RouterCommand(version: int, command: string, host: string, port: int, failClosed: bool,
      proxyUdpDns: bool, diagnosticLogging: bool, rules: seq<RouterRule>)

  predicate ContainsAny(s: string, chars: string) {
    exists i :: 0 <= i < |s| && s[i] in chars
  }

  function Split(s: string, separator: char): (parts: seq<string>)
    ensures |parts| > 0
  {
    if s == [] then [""]
    else
      var rest := Split(s[1..], separator);
      if s[0] == separator then [""] + rest else [[s[0]] + rest[0]] + rest[1..]
  }

  /** The part after the last separator. */
  function BaseName(s: string, separator: char): string {
    if separator !in s then s
    else if s[0] == separator && separator !in s[1..] then s[1..]
    else BaseName(s[1..], separator)
  }

  predicate HasSuffix(s: string, suffix: string) {
    |s| >= |suffix| && s[|s| - |suffix|..] == suffix
  }

  /** `path.Clean` leaves a rooted path alone when no segment is empty, "." or "..". */
  predicate CleanRooted(value: string) {
    value == "/" || (value != "" && value[0] == '/' && forall part :: part in Split(value[1..], '/') ==>
      part !in ["", ".", ".."])
  }

  predicate ValidLinuxExecutablePath(value: string) {
    && 0 < |value| <= MAX_PATH_BYTES && '\0' !in value
    && CleanRooted(value) && value != "/"
    && !ContainsAny(value, "*?;,\r\n")
  }

  predicate ValidLinuxProcessName(value: string) {
    && value !in ["", ".", ".."] && |value| <= 255
    && forall c :: c in value ==> c as int >= 32 && c as int != 127 && c !in "/*?;,"
  }

  predicate IsASCIIAlpha(c: char) {
    'a' <= c <= 'z' || 'A' <= c <= 'Z'
  }

  predicate ValidWindowsExecutablePattern(value: string) {
    && 0 < |value| <= MAX_PATH_BYTES && '\0' !in value
    && !ContainsAny(value, "?;,\"") && '/' !in value
    && !("\\\\?\\" <= value) && !("\\\\.\\" <= value)
    && (forall c :: c in value ==> c as int >= 32)
    && HasSuffix(Lower(value), ".exe")
    && if '\\' !in value then !ContainsAny(value, "<>:|") && value != ".exe"
       else
         var drive := |value| > 3 && IsASCIIAlpha(value[0]) && value[1] == ':' && value[2] == '\\';
         var unc := |value| > 4 && "\\\\" <= value;
         (drive || unc) &&
         var segments := Split(if unc then value[2..] else value[3..], '\\');
         && |segments| >= (if unc then 3 else 1)
         && forall segment :: segment in segments ==>
              && segment !in ["", ".", ".."] && segment[|segment| - 1] !in ". "
              && !ContainsAny(segment, "<>:\"|")
  }

  predicate CoversAny(pattern: string, names: seq<string>) {
    names != [] && (GoMatches(pattern, names[0]) || CoversAny(pattern, names[1..]))
  }

  predicate IsProtectedProcessPattern(pattern: string) {
    CoversAny(pattern, PROTECTED_NAMES) || GoMatches(pattern, SAMPLE_SETUP)
  }

  /** The name `validateRule` checks against the protected ones. */
  function RuleName(kind: string, path: string, executable: string, platform: string): string {
    if platform == "linux" then if kind == "executable_path" then BaseName(path, '/') else executable
    else BaseName(path, '\\')
  }

  /** `validateRule` without the range of the priority. */
  predicate ValidFields(id: string, kind: string, path: string, executable: string, protocol: string, action: string,
      platform: string) {
    var name := RuleName(kind, path, executable, platform);
    && 0 < |id| <= 128
    && (if platform == "linux" then
          || (kind == "executable_path" && ValidLinuxExecutablePath(path))
          || (kind == "process_name" && ValidLinuxProcessName(executable) &&
              (path != "" ==> ValidLinuxExecutablePath(path) && BaseName(path, '/') == executable))
        else kind == "executable_path" && ValidWindowsExecutablePattern(path))
    && (kind == "executable_path" ==> name != "" && EqualFold(name, executable))
    && !IsProtectedProcessPattern(name)
    && protocol in ["tcp", "udp", "both"]
    && action in ["proxy", "direct", "block"]
  }

  predicate ValidRule(rule: Rule, platform: string) {
    && ValidFields(rule.id, rule.matchKind, rule.executablePath, rule.executableName, rule.protocol,
       rule.action, platform)
    && 1 <= rule.priority <= MAX_RULES
  }

  /** A rule without a kind matches by path. */
  function Fill(rule: Rule): Rule {
    if rule.matchKind == "" then rule.(matchKind := "executable_path") else rule
  }

  function Identifier(rule: Rule): string {
    if rule.matchKind == "process_name" then rule.executableName else rule.executablePath
  }

  function PathKey(rule: Rule, platform: string): string {
    var key := rule.matchKind + "\0" + Identifier(rule);
    if platform == "windows" then Lower(key) else key
  }

  function Platform(request: RulesRequest, goos: string): string {
    if request.platform != "" then request.platform
    else if goos in ["windows", "linux"] then goos else "windows"
  }

  function RuleBytes(rule: Rule): nat {
    |Identifier(Fill(rule))| + 1
  }

  /** The uniqueness key of a rule. */
  function FilledKey(platform: string): Rule -> string {
    (r: Rule) => PathKey(Fill(r), platform)
  }

  function RuleId(rule: Rule): string { rule.id }

  function RulePriority(rule: Rule): int { rule.priority }

  function FilledValid(platform: string): Rule -> bool {
    (r: Rule) => ValidRule(Fill(r), platform)
  }

  ghost predicate AcceptableBy(rules: seq<Rule>, valid: Rule -> bool, key: Rule -> string) {
    && |rules| <= MAX_RULES
    && All(rules, valid)
    && Distinct(Map(rules, RuleId))
    && Distinct(Map(rules, key))
    && Distinct(Map(rules, RulePriority))
    && Sum(rules, RuleBytes) <= MAX_TOTAL_BYTES
  }

  ghost predicate AcceptableHeader(request: RulesRequest, goos: string) {
    var platform := Platform(request, goos);
    && request.version == PROTOCOL_VERSION
    && platform in ["windows", "linux"]
    && request.proxyPort == (if platform == "linux" then LINUX_PROXY_PORT else WINDOWS_PROXY_PORT)
    && request.failClosed
  }

  /** When a request is accepted: a statement about the set of its rules. */
  ghost predicate Acceptable(request: RulesRequest, goos: string) {
    AcceptableHeader(request, goos) &&
      AcceptableBy(request.rules, FilledValid(Platform(request, goos)), FilledKey(Platform(request, goos)))
  }

  /** The rule with the highest priority, which is the lowest number, among those that fit. */
  ghost predicate Decides(rules: seq<Rule>, fits: Rule -> bool, rule: Option<Rule>) {
    match rule
    case Some(r) => r in rules && fits(r) && forall other :: other in rules && fits(other) ==>
      r.priority <= other.priority
    case None => forall other :: other in rules ==> !fits(other)
  }

  ghost predicate Ascending(rules: seq<Rule>) {
    forall i, j :: 0 <= i < j < |rules| ==> rules[i].priority < rules[j].priority
  }

  function Renumber(sorted: seq<Rule>): (r: seq<Rule>)
    ensures |r| == |sorted| && forall i :: 0 <= i < |r| ==> r[i] == Fill(sorted[i]).(priority := i + 1)
  {
    seq(|sorted|, i requires 0 <= i < |sorted| => Fill(sorted[i]).(priority := i + 1))
  }

  function Normalized(request: RulesRequest, goos: string): RulesRequest {
    request.(platform := Platform(request, goos), rules := Renumber(SortBy(request.rules, RulePriority)))
  }

  function UpperChar(c: char): char {
    if 'a' <= c <= 'z' then (c as int - 32) as char else c
  }

  function Upper(s: string): string {
    seq(|s|, i requires 0 <= i < |s| => UpperChar(s[i]))
  }

  /** A rule for the router. While the proxy is down, a proxy rule blocks. */
  function BuildRouterRule(rule: Rule, proxyAvailable: bool): RouterRule {
    RouterRule(
      Identifier(rule),
      if rule.matchKind == "process_name" then "process_name" else "",
      Upper(rule.protocol),
      if rule.action == "proxy" && !proxyAvailable then "BLOCK" else Upper(rule.action),
      rule.enabled,
      rule.priority)
  }

  function BuildRouterCommand(request: RulesRequest, proxyAvailable: bool): RouterCommand {
    RouterCommand(PROTOCOL_VERSION, "replace_rules", "127.0.0.1", request.proxyPort, true, request.proxyUdpDns,
                  request.diagnosticLogging,
                  Map(request.rules, (rule: Rule) => BuildRouterRule(rule, proxyAvailable)))
  }
}
