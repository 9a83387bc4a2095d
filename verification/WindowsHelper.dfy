/**
 The C helper as a whole, from its standard input to the engine: the loop of `main`, and what it makes of
 the commands the service prints for the requests it accepted.
 */
module WindowsHelper {
  import opened Wrappers
  import opened Permutations
  import opened Rules
  import opened JsonText
  import opened RouterJson
  import opened WindowsCommand
  import opened WindowsLine
  import opened EngineRules
  import opened GuardedReplacement
  import opened WindowsMeaning

  datatype Order = Skip | Replace | Stop

  /** What `main` does with a line. A line of another version, and an unknown command, is skipped. */
  function Ordered(line: string): Order {
    if ReadUint(line, "version") != Some(1) then Skip
    else
      var command := ReadString(line, "command", 32);
      if command == Some("replace_rules") then Replace else if command == Some("shutdown") then Stop else Skip
  }

  /** The policy a replacement asks for, when it is read and can be begun after `sofar`. */
  function Admitted(line: string, sofar: seq<ParsedRule>, starts: bool): Option<seq<ParsedRule>> {
    var got := ReadCommand(line);
    if got.Some? && Startable(Joined(sofar), got.value.list.enabledProcesses, !got.value.diagnosticLogging || starts)
    then Some(got.value.list.rules) else None
  }

  /** The text after the next line. */
  function After(text: string): (rest: string)
    ensures |rest| <= |text| && (text != "" ==> |rest| < |text|)
  {
    LineInText(text, MAX_COMMAND_SIZE);
    text[|ReadLine(text, MAX_COMMAND_SIZE)|..]
  }

  /**
   The policies a text asks for one after the other, the first after `sofar`. `starts` says whether the
   writer of the diagnostic log can be started with so much of the text still to be read.
   */
  function Requested(text: string, sofar: seq<ParsedRule>, starts: nat -> bool): seq<seq<ParsedRule>>
    decreases |text|
  {
    if text == "" then []
    else
      var line, rest := NextLine(text), After(text);
      match Ordered(line)
      case Stop => []
      case Skip => Requested(rest, sofar, starts)
      case Replace =>
        var next := Admitted(line, sofar, starts(|rest|));
        if next == None then [] else [next.value] + Requested(rest, next.value, starts)
  }

  /** One committed replacement. */
  datatype Commit = Commit(rules: seq<ParsedRule>, engine: seq<EngineRule>, proxyId: nat)

  function Policies(commits: seq<Commit>): seq<seq<ParsedRule>> {
    seq(|commits|, i requires 0 <= i < |commits| => commits[i].rules)
  }

  ghost predicate Installed(commits: seq<Commit>) {
    forall k :: 0 <= k < |commits| ==> Specs(commits[k].engine) == Target(commits[k].rules, commits[k].proxyId)
  }

  lemma ReadJoined(line: string)
    requires ReadCommand(line).Some?
    ensures var list := ReadCommand(line).value.list;
            list.enabledProcesses == Joined(list.rules) && |list.rules| <= MAX_RULES
  {
    ParsedJoined(Find(line, Needle("rules") + "[").value, EMPTY);
  }

  lemma NothingJoined()
    ensures Joined([]) == ""
  {
  }

  /** `replace_rules`: the line is read, then the rules are replaced. */
  method ReplaceFrom(h: Helper, line: string, starts: bool, ghost sofar: seq<ParsedRule>)
      returns (ok: bool, ghost commit: Commit)
    requires h.Settled() && h.active == Joined(sofar)
    modifies h
    ensures h.Inv() && h.guardId !in h.ruleIds && Interim(Snapshot(h.engine, h.base, h.list, h.coming))
    ensures ok ==>
            Admitted(line, sofar, starts) == Some(commit.rules) && h.Settled() && h.active == Joined(commit.rules)
    ensures ok ==>
            Specs(commit.engine) == Target(commit.rules, commit.proxyId) && h.engine == Engine(commit.engine, true)
    ensures Admitted(line, sofar, starts) == None ==> !ok && h.engine == old(h.engine) && h.trace == old(h.trace)
    ensures h.Working() ==> (ok <==> Admitted(line, sofar, starts).Some?)
  {
    IdsPositive(h.engine.rules);
    SettledInterim(h.engine, h.list, h.active, h.coming);
    var got := ReadCommand(line);
    if got == None { return false, Commit([], [], 0); }
    ReadJoined(line);
    var list := got.value.list;
    ok := h.ReplaceRules(list.rules, list.enabledProcesses, !got.value.diagnosticLogging || starts);
    commit := Commit(list.rules, h.engine.rules, h.proxyId);
    if ok {
      IdsPositive(h.engine.rules);
      SettledInterim(h.engine, h.list, h.active, h.coming);
    }
  }

  /**
   `main`, on any input, with any engine call failing: what it commits are the first policies asked for, and
   all of them when no call fails. Every moment is an interim one, and the run ends stopped.
   */
  method Serve(h: Helper, input: string, starts: nat -> bool) returns (failed: bool, ghost commits: seq<Commit>)
    requires h.Settled() && h.active == ""
    modifies h
    ensures h.Inv() && !h.engine.running && forall k :: 0 <= k < |h.trace| ==> Interim(h.trace[k])
    ensures Installed(commits) && Policies(commits) <= Requested(input, [], starts)
    ensures h.Working() ==> Policies(commits) == Requested(input, [], starts)
  {
    hide Interim, Ordered, Admitted, After, NextLine, Joined, Target, DistinctIds, Tidy, PatternsIn;
    var rest, more := input, true;
    failed, commits := false, [];
    ghost var now: seq<ParsedRule> := [];
    NothingJoined();
    SettledInterim(h.engine, h.list, h.active, h.coming);
    IdsPositive(h.engine.rules);
    while more && rest != ""
      invariant h.Inv() && h.guardId !in h.ruleIds && Interim(Snapshot(h.engine, h.base, h.list, h.coming)) &&
                Installed(commits)
      invariant more ==> h.Settled() && h.active == Joined(now)
      invariant more ==> Requested(input, [], starts) == Policies(commits) + Requested(rest, now, starts)
      invariant Policies(commits) <= Requested(input, [], starts)
      invariant !more && h.Working() ==> Policies(commits) == Requested(input, [], starts)
      decreases |rest|, more
    {
      var line := NextLine(rest);
      rest := After(rest);
      match Ordered(line)
      case Skip =>
      case Stop => more := false;
      case Replace =>
        ghost var commit;
        more, commit := ReplaceFrom(h, line, starts(|rest|), now);
        if more {
          assert Policies(commits + [commit]) == Policies(commits) + [commit.rules];
          commits, now := commits + [commit], commit.rules;
        } else {
          failed := true;
        }
    }
    h.Shutdown();
  }

  // What the service sends.

  /** A request with the system it was accepted on and the state of the proxy when its command was printed. */
  datatype Message = Message(request: RulesRequest, goos: string, available: bool) {
    ghost predicate Accepted() {
      Acceptable(request, goos) && Platform(request, goos) == "windows"
    }

    function Sent(): RulesRequest {
      Normalized(request, goos)
    }

    ghost function Text(): string
      requires Accepted()
    {
      CommandFits(request, goos, available);
      CommandText(BuildRouterCommand(Sent(), available))
    }

    function Policy(): seq<ParsedRule> {
      Map(Sent().rules, IntendedBy(available))
    }
  }

  ghost predicate AllAccepted(messages: seq<Message>) {
    forall k :: 0 <= k < |messages| ==> messages[k].Accepted()
  }

  ghost function Stream(messages: seq<Message>): string
    requires AllAccepted(messages)
  {
    if messages == [] then "" else messages[0].Text() + Stream(messages[1..])
  }

  ghost predicate Enables(rules: seq<Rule>) {
    exists i :: 0 <= i < |rules| && rules[i].enabled
  }

  /** How many of the messages are served. `any` says whether the policy in force has an enabled rule. */
  ghost function Handled(messages: seq<Message>, any: bool, starts: nat -> bool): nat
    requires AllAccepted(messages)
  {
    hide Message.Accepted, AllSurvive, Enables, Message.Sent;
    if messages == [] then 0
    else
      var sent, more := messages[0].Sent(), messages[1..];
      if AllSurvive(sent.rules) && (any || Enables(sent.rules)) && (!sent.diagnosticLogging || starts(|Stream(more)|))
      then 1 + Handled(more, Enables(sent.rules), starts)
      else 0
  }

  /** The joined list is empty exactly when no rule is enabled. */
  lemma {:induction false} JoinedEmpty(rules: seq<ParsedRule>)
    requires forall i :: 0 <= i < |rules| ==> rules[i].processPattern != ""
    ensures Joined(rules) != "" <==> exists i :: 0 <= i < |rules| && rules[i].enabled
  {
    if rules != [] { JoinedEmpty(rules[..|rules| - 1]); }
  }

  lemma PolicyEnables(message: Message)
    requires message.Accepted()
    ensures Joined(message.Policy()) != "" <==> Enables(message.Sent().rules)
  {
    var rules, policy := message.Sent().rules, message.Policy();
    forall i | 0 <= i < |policy| ensures policy[i].processPattern != "" && policy[i].enabled == rules[i].enabled {
      PlainRules(message.request, message.goos, i);
    }
    JoinedEmpty(policy);
  }

  lemma PrintedOrder(c: RouterCommand)
    requires WindowsHeader(c) && Printing(c)
    ensures Ordered(CommandText(c)) == Replace
  {
    ReadHeaderFlags(c, PrintList(c.rules));
  }

  /** The helper reads the message's policy, or nothing when a pattern does not survive. */
  lemma MessageRead(message: Message)
    requires message.Accepted()
    ensures var got := ReadCommand(message.Text());
            && (got.Some? <==> AllSurvive(message.Sent().rules))
            && (got.Some? ==> && got.value.list == ParsedList(message.Policy(), Joined(message.Policy()))
                              && |Joined(message.Policy())| <= MAX_TOTAL_BYTES
                              && got.value.diagnosticLogging == message.Sent().diagnosticLogging)
  {
    hide ReadCommand, CommandText, Joined, AllSurvive, Acceptable, Normalized;
    WindowsRoundTrip(message.request, message.goos, message.available);
    CommandFits(message.request, message.goos, message.available);
    var text := CommandText(BuildRouterCommand(message.Sent(), message.available));
    if ReadCommand(text).Some? { ReadJoined(text); }
  }

  lemma MessageOrder(message: Message)
    requires message.Accepted()
    ensures Ordered(message.Text()) == Replace
  {
    hide ReadCommand, CommandText, Joined, Ordered;
    PrintedOrder(BuildRouterCommand(message.Sent(), message.available));
  }

  /** Within the service's limits a replacement can be begun unless nothing is or was enabled. */
  lemma StartableExactly(previous: string, next: string, ready: bool)
    requires |previous| <= MAX_TOTAL_BYTES && |next| <= MAX_TOTAL_BYTES
    ensures Startable(previous, next, ready) <==> (previous != "" || next != "") && ready
  {
    GuardedFits(previous, next);
  }

  /** The policy asked for by one message. */
  lemma MessageAsked(message: Message, sofar: seq<ParsedRule>, starts: bool)
    requires message.Accepted() && |Joined(sofar)| <= MAX_TOTAL_BYTES
    ensures AllSurvive(message.Sent().rules) ==> |Joined(message.Policy())| <= MAX_TOTAL_BYTES
    ensures var sent := message.Sent();
            Admitted(message.Text(), sofar, starts) ==
            if AllSurvive(sent.rules) && (Joined(sofar) != "" || Enables(sent.rules)) &&
              (!sent.diagnosticLogging || starts)
            then Some(message.Policy()) else None
  {
    hide ReadCommand, CommandText, Joined, AllSurvive, Acceptable, Normalized, Startable, Enables,
      Message.Text, Message.Policy;
    MessageRead(message);
    PolicyEnables(message);
    if AllSurvive(message.Sent().rules) {
      StartableExactly(Joined(sofar), Joined(message.Policy()), !message.Sent().diagnosticLogging || starts);
    }
  }

  lemma MessageLine(message: Message, more: string)
    requires message.Accepted()
    ensures NextLine(message.Text() + more) == message.Text() && After(message.Text() + more) == more
    ensures message.Text() + more != ""
  {
    CommandFits(message.request, message.goos, message.available);
  }

  /** The policies the service's stream asks for are those of its messages, up to the first that is not served. */
  lemma {:induction false} StreamRequested(messages: seq<Message>, sofar: seq<ParsedRule>, starts: nat -> bool)
    requires AllAccepted(messages) && |Joined(sofar)| <= MAX_TOTAL_BYTES
    ensures var asked := Requested(Stream(messages), sofar, starts);
            && |asked| == Handled(messages, Joined(sofar) != "", starts) <= |messages|
            && forall k :: 0 <= k < |asked| ==> asked[k] == messages[k].Policy()
  {
    hide NextLine, After, Ordered, Admitted, Joined, AllSurvive, Enables, Message.Accepted, Message.Text,
      Message.Policy, Message.Sent;
    if messages != [] {
      var message, more := messages[0], Stream(messages[1..]);
      var policy := message.Policy();
      MessageLine(message, more);
      MessageOrder(message);
      MessageAsked(message, sofar, starts(|more|));
      PolicyEnables(message);
      if Admitted(message.Text(), sofar, starts(|more|)).Some? {
        StreamRequested(messages[1..], policy, starts);
        assert Requested(Stream(messages), sofar, starts) == [policy] + Requested(more, policy, starts);
      }
    }
  }

  /** The engine does to every packet what the message's rules intend. */
  ghost predicate InForce(message: Message, engine: seq<EngineRule>) {
    forall m: Matcher, p: Packet, rule: Option<Rule> ::
      m.Ok() && Decides(message.Sent().rules, MatchesPacket(m, p), rule) ==>
        Verdict(m, engine, p) == Treatment(m, p, rule, message.available)
  }

  lemma CommitInForce(message: Message, commit: Commit)
    requires message.Accepted() && commit.rules == message.Policy() &&
             Specs(commit.engine) == Target(commit.rules, commit.proxyId)
    ensures InForce(message, commit.engine)
  {
    hide Verdict, Treatment, Decides, Matcher.Ok, Specs, Target;
    forall m: Matcher, p: Packet, rule: Option<Rule>
      | m.Ok() && Decides(message.Sent().rules, MatchesPacket(m, p), rule)
      ensures Verdict(m, commit.engine, p) == Treatment(m, p, rule, message.available)
    {
      CommittedMeaning(message.request, message.goos, message.available, m, commit.engine, commit.proxyId, p, rule);
    }
  }

  /**
   From accepted requests to packets. The helper reads the printed commands and serves them in order up to the
   first that cannot be, all of these when no engine call fails; after each one the engine treats every packet
   as the deciding rule of that request intends.
   */
  method ServeService(h: Helper, input: string, ghost messages: seq<Message>, starts: nat -> bool)
      returns (ghost commits: seq<Commit>)
    requires h.Settled() && h.active == "" && AllAccepted(messages) && input == Stream(messages)
    modifies h
    ensures h.Inv() && !h.engine.running && forall k :: 0 <= k < |h.trace| ==> Interim(h.trace[k])
    ensures |commits| <= Handled(messages, false, starts) <= |messages|
    ensures h.Working() ==> |commits| == Handled(messages, false, starts)
    ensures forall k :: 0 <= k < |commits| ==> InForce(messages[k], commits[k].engine)
  {
    NothingJoined();
    StreamRequested(messages, [], starts);
    var failed;
    failed, commits := Serve(h, input, starts);
    forall k | 0 <= k < |commits| ensures InForce(messages[k], commits[k].engine) {
      assert commits[k].rules == Policies(commits)[k] == Requested(input, [], starts)[k];
      CommitInForce(messages[k], commits[k]);
    }
  }
}
