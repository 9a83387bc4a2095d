# KokoroBox Service: a verified model

KokoroBox Service changes operating-system state that it does not own: DNS servers, the system proxy,
firewall rules, packet rules and the cgroups of other processes. It has to be able to take every change
back, whatever fails, expires, crashes or is edited by the user meanwhile. This project models the parts
of the service that carry that burden and proves what they keep. Calls into the operating system are
operations on an explicit state that may fail; timers, threads, crashes and user edits are steps that may
come at any point.

| file | what it models |
|---|---|
| `DnsLease.dfy` | the DNS lease: a write-ahead, crash-recoverable lease over several network services |
| `Glob.dfy` | the two single-backtrack glob matchers, against what a pattern means |
| `Rules.dfy`, `Normalize.dfy`, `Permutations.dfy` | application-routing rules: validation, normalisation, the router command |
| `JsonText.dfy`, `RouterJson.dfy`, `RouterParser.dfy`, `WindowsCommand.dfy`, `WindowsLine.dfy` | the JSON command that Go prints and the C helper reads into its line buffer and parses by hand |
| `WindowsExamples.dfy` | accepted requests whose command the C helper rejects |
| `EngineRules.dfy`, `GuardedReplacement.dfy`, `WindowsMeaning.dfy` | the guarded rule replacement of the C helper over an engine whose calls may fail, and what it commits |
| `WindowsHelper.dfy` | the loop of the C helper, from its standard input to the engine, fed by the service |
| `LinuxTables.dfy`, `LinuxPlan.dfy` | an interpreter for the iptables and ip commands, and the two plans |
| `LinuxRollback.dfy`, `LinuxMeaning.dfy`, `LinuxRouting.dfy` | undoing an installation, what it installs, and what the installed chains do |
| `LinuxJourney.dfy` | the way of a packet through all tables, from the built-in chains on, out and back in |
| `CgroupRouter.dfy` | moving processes into the routing groups and back |
| `LinuxProcess.dfy` | the Linux router process: firewall, targets and cgroups together |
| `RouterManager.dfy` | the manager that starts, feeds and stops the router under a client lease |
| `FirewallPolicy.dfy` | the reconciler of Windows firewall rules |
| `SystemProxy.dfy` | the system-proxy lease, guard loops and timers |
| `NonceStore.dfy` | the replay cache and the request checks around it |
| `WebSocket.dfy` | WebSocket frames |
| `DiagnosticQueue.dfy` | the ring queue between engine callbacks and the diagnostic writer |

Code that updates fields is modelled by classes and methods with the same steps, loops by loops, and pure
code by functions. Every method is specified by a function or a predicate of its own, and the properties
are proved about those. Interleavings are modelled by a script: the critical sections run in any order, with
any outcome of each call.

Where the source does not do what one might expect, the model follows the source and says exactly when it does:

- the Go glob matcher compares literally before it looks for a star, so it means what patterns mean for every
  pattern exactly on values whose only star, if any, is the last character (`Glob.GoMatcherExact`);
- patterns with `&`, U+2028 or U+2029 and the pattern `.EXE` are accepted by the service but rejected by the
  C helper, which then stops; all other accepted Windows patterns arrive (`WindowsCommand.WindowsRoundTrip`,
  and `WindowsExamples.AmpersandRejected` and `WindowsExamples.BareExtensionRejected` for two whole requests);
- the replay cache answers the next call as a full history would, after every run of calls that ends at a
  reading `h`, exactly when the clock reads at least `h` then (`NonceStore.ExactIfForward`); with readings
  out of order by at most `lag`, a request can be accepted twice only within `lag` of the two ends of its
  window (`NonceStore.TwiceOnlyAtTheEnds`);
- after a successful `Disable` the firewall rules remain exactly when they exist although an earlier removal is
  still on record. A repair that installs them and then fails its recheck leaves such a record
  (`RouterManager.StaleRemovalRecord`);
- a process forked by a routed one stays in its group although no rule names it, until the router stops
  (`LinuxProcess.ChildStaysRouted`). On tables that let everything through, the packets of a process are
  treated as its deciding rule asks exactly when there is such a rule, or the process was routed or outside
  the groups before, or its group is one for direct traffic (`LinuxProcess.RoutedExactly`);
- on Linux the highest-priority rule for a process decides even for a protocol it does not cover
  (`LinuxRouting.Asked`), on Windows the protocol is part of the match (`WindowsMeaning.RuleMatches`);
- with DNS redirection on, a proxied packet to port 53 ends at the proxy port all the same, because it carries
  the mark; only one to a protected network ends at the DNS port (`LinuxJourney.ArrivalExact`);
- while a disabled Windows rule is being installed it is enabled for a moment, and a process that only this rule
  names is not under the guard then (`GuardedReplacement.UnguardedVerdict`);
- a crash between applying the system proxy and recording it leaves the proxy on after the next start
  (`SystemProxy.CrashBeforeRecord`, and `SystemProxy.CrashAndRecover` for the exact condition);
- a user who picks exactly the leased servers by hand while a record exists gets the recorded ones back
  (`DnsLease.PickedDesiredIsLost`).

## Model

| member | source | states |
|---|---|---|
| `DnsLease.Manager.Restart` | route/dnsapi/lease.go:328-340 | A start over any world a crash can leave, with any content the disk may hold, begins in a safe state |
| `DnsLease.Manager.SetDns` | sys/dns.go:138-163 | A write may fail before or after it took effect; only the user's value or a promised desired value is ever written, and only over one of the two |
| `DnsLease.Manager.Persist` | route/dnsapi/lease.go:294-326 | The record may be lost before or after the rename; either way every content a crash can find accounts for every service |
| `DnsLease.Manager.Restore` | route/dnsapi/lease.go:250-259 | Afterwards the service runs the user's value; a value that is neither desired nor original is not touched |
| `DnsLease.Manager.RestoreExcept` | route/dnsapi/lease.go:230-245 | The in-place filter over the entries: what is restored leaves, what is kept makes exactly the promises still needed; with working calls, no edits and no active service every service ends with what putting back the entries gives |
| `DnsLease.Manager.Release` | route/dnsapi/lease.go:261-279 | Success drops the lease and, when there was one, leaves no record on disk; without a lease every service is at the user's value; failure keeps a lease that still promises what is in force; with working calls and no edits the live settings are the recovered ones |
| `DnsLease.Manager.RemoveRecord` | route/dnsapi/lease.go:369-378 | Success means no content of the record can be found on disk any more; a failure, before or after the removal, keeps the world safe |
| `DnsLease.Manager.Set` | route/dnsapi/lease.go:94-130 | The record is written before the DNS; success leaves the wanted servers in force on the leased service, failure leaves nothing unaccounted for |
| `DnsLease.Manager.Renew` | route/dnsapi/lease.go:132-142 | Only a held lease is extended and nothing else changes |
| `DnsLease.Manager.Reconcile` | route/dnsapi/lease.go:189-248 | A network switch takes the active service over after recording its value, also when an entry exists that is not applied, puts the leased servers in force there, restores the ones left behind, and never overwrites a user's change |
| `DnsLease.Manager.Expire` | route/dnsapi/lease.go:156-170 | A lease past its deadline is released, an earlier one stays |
| `DnsLease.Manager.Recover` | route/dnsapi/lease.go:328-367 | With working calls the record is gone and, without edits, the live settings are the recovered ones |
| `DnsLease.Run` | route/dnsapi/lease.go:94-279 | Over any run of requests, timers, failures and user edits every world on the way is safe: live DNS is the user's value, or desired with that value on record; a held lease has one to eight entries, distinct services and one desired list |
| `DnsLease.CrashAndRecover` | route/dnsapi/lease.go:328-378 | A crash at any point of any run followed by a working start gives every service the user's last value and removes the record |
| `DnsLease.EditKeepsGood` | route/dnsapi/lease.go:189-259 | User edits, other than picking exactly a promised desired value, keep every promise good |
| `DnsLease.SweepDone` | route/dnsapi/lease.go:230-245 | After the sweep the kept entries form a lease and hold exactly the promises still needed |
| `DnsLease.RecoveryExact` | route/dnsapi/lease.go:250-259 | What the release and the recovery are proved to compute gives every service the user's value if and only if each is settled and no user value in force is a desired one recorded with another original |
| `DnsLease.SafeIsRecoverable` | route/dnsapi/lease.go:328-367 | Every content of the file that a safe world allows restores every user value |
| `DnsLease.PickedDesiredIsLost` | route/dnsapi/lease.go:250-259 | A concrete case in which recovery takes a hand-picked desired value for the service's own |
| `Glob.WildcardMatches` | processrouter/types.go:341-369 | The Go loop ends and answers as its step function does |
| `Glob.WildcardMatchCI` | processrouter/native/kokorobox_process_router.c:44-64 | The C loop decides the declarative glob relation, for every pattern and value |
| `Glob.GoMeaning` | processrouter/types.go:341-369 | The Go matcher decides the glob relation on values without an inner star |
| `Glob.GoMissesStar` | processrouter/types.go:341-369 | For a value with a star before its last character there is a matching pattern the Go matcher misses |
| `Glob.GoMatcherExact` | processrouter/types.go:341-369 | The Go matcher is right for every pattern if and only if the value has no star before its last character |
| `Normalize.NormalizeRulesRequest` | processrouter/types.go:127-198 | The sorting and checking loop accepts exactly the acceptable requests and returns the normal form |
| `Normalize.CheckRule` | processrouter/types.go:150-188 | The tests on one rule decide whether the rules so far are acceptable |
| `Normalize.OrderIrrelevant` | processrouter/types.go:127-198 | Acceptance and result are the same for every order of the rules |
| `Normalize.PrioritiesRenumbered` | processrouter/types.go:145-198 | Position k holds the rule with the k-th smallest priority, renumbered k + 1 |
| `Normalize.Idempotent` | processrouter/manager.go:449-469 | The normal form is accepted again and unchanged, so a saved configuration reloads as saved |
| `Normalize.ProtectedNamesSafe` | processrouter/types.go:241-243 | No accepted rule's name pattern matches a protected process name |
| `JsonText.EncodeRoundTrip` | processrouter/native/kokorobox_process_router.c:173-187 | A string as Go prints it reads back exactly when it needs no escape but the backslash's |
| `JsonText.FindIn` | processrouter/native/kokorobox_process_router.c:166-171 | Searching for a quoted name finds that field, whatever the string values before it hold |
| `RouterJson.RuleEnd` | processrouter/native/kokorobox_process_router.c:208-224 | The brace scan stops at the end of a printed rule whatever its pattern holds |
| `RouterJson.ObjectRoundTrip` | processrouter/native/kokorobox_process_router.c:311-379 | A printed rule object is read back exactly when its pattern is readable |
| `RouterJson.ListRoundTrip` | processrouter/native/kokorobox_process_router.c:311-379 | A printed list is read back rule by rule, or rejected as a whole when one pattern is not readable |
| `RouterParser.ReadStringLoop` | processrouter/native/kokorobox_process_router.c:173-187 | The copying loop computes the unquoting function within its buffer |
| `RouterParser.FindObjectEnd` | processrouter/native/kokorobox_process_router.c:208-224 | The scanning loop finds the first closing brace outside strings |
| `RouterParser.ParseRules` | processrouter/native/kokorobox_process_router.c:311-379 | The parsing loop computes the list function, with its limits on objects, rules and patterns |
| `WindowsCommand.CommandRoundTrip` | processrouter/native/kokorobox_process_router.c:381-400 | The printed command, header and rules, is received in full exactly when every pattern is readable |
| `WindowsCommand.ReadableExact` | processrouter/native/kokorobox_process_router.c:226-238 | An accepted pattern is readable if and only if it is longer than `.exe` and has no ampersand and no line separator |
| `WindowsCommand.ObjectFits` | processrouter/native/kokorobox_process_router.c:330-345 | Every accepted pattern that reads back leaves its object inside the 2048-byte buffer |
| `WindowsCommand.WindowsRoundTrip` | processrouter/types.go:380-413 | For every accepted Windows request the helper ends with the intended pattern, protocol, action, state and priority of each rule, joined in at most 30000 bytes, if and only if every pattern survives; otherwise it rejects the command |
| `WindowsLine.CommandFits` | processrouter/native/kokorobox_process_router.c:500-515 | For every accepted Windows request the printed command is one line that fits the 262144-byte buffer, and the helper sees it whole, whatever follows |
| `WindowsExamples.AmpersandRejected` | processrouter/native/kokorobox_process_router.c:178-181 | A whole accepted request with an ampersand in its one pattern, whose printed command the helper rejects |
| `WindowsExamples.BareExtensionRejected` | processrouter/native/kokorobox_process_router.c:226-238 | A whole accepted request with the one pattern `.EXE`, whose printed command the helper rejects |
| `GuardedReplacement.Helper.InstallGuard` | processrouter/native/kokorobox_process_router.c:251-276 | The guard ends at position 1 over the list, or is taken back |
| `GuardedReplacement.Helper.ClearRules` | processrouter/native/kokorobox_process_router.c:240-249 | Only managed rules go, and every one still in the engine keeps its identifier; success exactly when none is left; the guard stays |
| `GuardedReplacement.Helper.AddManagedRule` | processrouter/native/kokorobox_process_router.c:278-292 | A rule counts only when it is in place with its enabled state; a failure leaves the engine as it was, or the one rule that could neither be disabled nor taken back |
| `GuardedReplacement.Helper.ReplaceRules` | processrouter/native/kokorobox_process_router.c:381-490 | With any engine call failing, every moment is the old policy, the guarded interim or the new policy; success commits exactly the exclusions and the user rules in order, at most 258; with no call failing it succeeds exactly when the guard list fits and is not empty and the log can be written |
| `GuardedReplacement.Helper.Shutdown` | processrouter/native/kokorobox_process_router.c:538-543 | The engine is stopped at every moment of the shutdown, so before the guard is dropped |
| `WindowsHelper.Serve` | processrouter/native/kokorobox_process_router.c:500-549 | For any input text, with any calls failing: every moment is an interim one, the run ends stopped, and what is committed are the first policies the text asks for, all of them when no call fails |
| `GuardedReplacement.InterimVerdict` | processrouter/native/kokorobox_process_router.c:251-276 | During a replacement a guarded process is treated by the committed policy or blocked, never otherwise |
| `GuardedReplacement.UnguardedVerdict` | processrouter/native/kokorobox_process_router.c:278-292 | At every moment a process outside the guard's list is left alone, sent direct by an exclusion, or treated by a disabled rule being installed that names it |
| `GuardedReplacement.GuardedCovers` | processrouter/native/kokorobox_process_router.c:404-411 | The joined list covers every process an enabled pattern covered before or will cover |
| `GuardedReplacement.GuardedFits` | processrouter/native/kokorobox_process_router.c:404-411 | Two lists within the service's limit always fit the 65536-byte guard list; a run of accepted requests keeps the limit (`WindowsHelper.StreamRequested`) |
| `WindowsMeaning.CommittedMeaning` | processrouter/native/kokorobox_process_router.c:278-299 | For every accepted Windows request and packet a committed replacement sends direct what is excluded and otherwise does what the matching rule of highest priority intends, a proxy rule blocking while the proxy is down |
| `WindowsHelper.ReplaceFrom` | processrouter/native/kokorobox_process_router.c:381-490 | A line that is not read or cannot be begun changes nothing; otherwise success commits exactly its rules, and every moment is an interim one; with no call failing it succeeds exactly when it can be begun |
| `WindowsHelper.StreamRequested` | processrouter/native/kokorobox_process_router.c:500-549 | Out of the service's stream the helper reads each message's policy, up to the first with a pattern that does not survive, with no enabled rule before or after, or with a log that cannot be started |
| `WindowsHelper.ServeService` | processrouter/native/kokorobox_process_router.c:500-549 | From accepted requests to packets: the helper serves the printed commands in order up to the first that cannot be served, all of these when no engine call fails, and after each one the engine treats every packet as that request's deciding rule intends |
| `RouterJson.ParsedJoined` | processrouter/native/kokorobox_process_router.c:311-379 | Whatever the text, a list that is read has at most 256 rules and joins exactly its enabled patterns |
| `LinuxTables.RunBuilds` | processrouter/process_linux.go:591-603 | A plan that creates each chain once and before use runs through and extends each chain by its own rules |
| `LinuxPlan.BuildCleanup` | processrouter/linux_plan.go:150-172 | The loops build the cleanup plan |
| `LinuxPlan.BuildSetup` | processrouter/linux_plan.go:72-148 | The setup plan begins with the cleanup plan, and what remains after its length is the installation |
| `LinuxPlan.AppendGroups` | processrouter/linux_plan.go:103-128 | The nested loops over groups, protocols and networks append each group's rules in order |
| `LinuxRollback.TameStep` | processrouter/linux_plan.go:72-148 | Each installation step that runs adds only the router's own chains, rules, jumps, policies and routes |
| `LinuxRollback.CleanupRestores` | processrouter/linux_plan.go:150-172 | The cleanup, errors ignored, takes every residue of an installation out and leaves everything else as it was |
| `LinuxRollback.Rollback` | processrouter/process_linux.go:218-231 | On tables without the router's names, any prefix of the installation followed by the cleanup restores the tables |
| `LinuxRollback.Firewall.RunPlan` | processrouter/process_linux.go:591-603 | The loop runs a plan to the end ignoring errors, or up to its first error |
| `LinuxRollback.Firewall.Rebuild` | processrouter/process_linux.go:218-231 | From any leftover of earlier runs: success installs on the original tables, failure at any command leaves the original tables |
| `LinuxRollback.Firewall.Remove` | processrouter/process_linux.go:203-206 | Afterwards the tables are the original ones |
| `LinuxMeaning.InstallationRuns` | processrouter/linux_plan.go:72-148 | On tables with the built-in chains the installation runs through; every chain, the built-in ones with the jumps appended last included, holds its old rules and then the compiled ones, and policies and routes are in place |
| `LinuxMeaning.FamilyCompiled` | processrouter/linux_plan.go:74-141 | What the plan of one family appends to each of its chains |
| `LinuxRouting.OutFate` | processrouter/linux_plan.go:103-120 | The output chain marks what a proxy group sends over its protocols, except to protected networks, and nothing else |
| `LinuxRouting.DnsFate` | processrouter/linux_plan.go:106-110 | Only a proxy group's port 53 traffic is redirected, and only when asked for |
| `LinuxRouting.BlockFate` | processrouter/linux_plan.go:121-128 | The block chain drops exactly what a block group sends over its protocols |
| `LinuxRouting.BuildTargets` | processrouter/process_linux.go:155-172 | The loop keeps the enabled rules in order, and fails when one names no group |
| `LinuxRouting.TargetGroup` | processrouter/process_linux.go:313-326 | The group of the first target that fits |
| `LinuxRouting.GroupDecided` | processrouter/process_linux.go:155-172 | A process lands in the group of the enabled matching rule with the highest priority, or in none |
| `LinuxJourney.PacketMeaning` | processrouter/linux_plan.go:72-148 | For every accepted request, process and packet, walked from the built-in chains on: the installed tables do what they did before and, to what they let through, mark, redirect, drop or nothing as the deciding rule asks; with the proxy down a proxy rule drops |
| `LinuxJourney.OutgoingTreated` | processrouter/linux_plan.go:72-148 | The three tables on the way out treat the packets of a group as the group says, after what they did before |
| `LinuxJourney.PreroutingInstalled` | processrouter/linux_plan.go:129-140 | The installed PREROUTING chain hands exactly the marked packets it lets through to the proxy port |
| `LinuxJourney.InputInstalled` | processrouter/linux_plan.go:82-93 | The installed INPUT chain keeps other machines off the proxy port, and otherwise does what it did |
| `LinuxJourney.ArrivalExact` | processrouter/linux_plan.go:129-146 | The way out, the local route and the way back in: a proxied packet ends at the proxy port, one to a protected network at the DNS port if it is to port 53 and redirection is on, a blocked one nowhere, all others where they would |
| `LinuxRouting.SelectorsDiffer` | processrouter/linux_plan.go:30-56 | Different groups have different cgroup selectors in both modes |
| `CgroupRouter.Router.Record` | processrouter/process_linux.go:284-294 | The origin is where the process is, or for one already inside the groups its parent's recorded origin or the root; it is never inside the groups |
| `CgroupRouter.Router.Restore` | processrouter/process_linux.go:374-385 | A live recorded process is back at its origin and forgotten |
| `CgroupRouter.Router.Visit` | processrouter/process_linux.go:268-311 | A live process ends in the group its first target names; when none does, it is outside the groups exactly if it was routed or outside before |
| `CgroupRouter.Router.Scan` | processrouter/process_linux.go:268-311 | Every live process of the snapshot ends in the group its first target names, or, when none does, outside the groups exactly if it was routed or outside before; with forks and exits at every step |
| `CgroupRouter.Router.RestoreAll` | processrouter/process_linux.go:387-393 | Every routed process that is alive is back at its origin and nothing else has moved |
| `CgroupRouter.Router.Stop` | processrouter/process_linux.go:184-209 | Routed processes are at their origins and no live process is left in the groups |
| `CgroupRouter.Router.RunAndStop` | processrouter/process_linux.go:184-209 | After any run and a stop, every live process that does not descend from one forked inside the groups is where it would be had the router never run |
| `LinuxProcess.Native.Send` | processrouter/process_linux.go:131-182 | Success means the firewall is installed for the command's port and DNS setting, the targets are its enabled rules and every live process of the snapshot is placed by them; an improper command changes neither the tables nor any process |
| `LinuxProcess.Native.Stop` | processrouter/process_linux.go:184-209 | Afterwards the tables are the original ones, routed processes are at their origins and the groups are empty |
| `LinuxProcess.RoutedPackets` | processrouter/process_linux.go:131-182 | After a successful send for an accepted request, the packets of every live process of the snapshot that a rule decides, or that was routed or outside the groups before, are treated as the deciding rule asks |
| `LinuxProcess.RoutedExactly` | processrouter/process_linux.go:268-311 | On tables that let everything through, all packets of a process are treated as its deciding rule asks if and only if there is such a rule, or it was routed or outside before, or its group is one for direct traffic |
| `LinuxProcess.ChildStaysRouted` | processrouter/process_linux.go:273-279 | A run: a process is routed, forks, and after the next scan the child is still in the group though no target names it |
| `CgroupRouter.HappenKeeps` | processrouter/process_linux.go:268-311 | Forks and exits at any point keep the invariant |
| `RouterManager.Manager.AcceptRules` | processrouter/manager.go:115-135 | Acceptable rules are adopted in normal form under a new generation with no policy in force; others change nothing |
| `RouterManager.Manager.BeginEnable` | processrouter/manager.go:137-155 | Only a supported system with an enabled rule becomes desired, and that is a client contact |
| `RouterManager.Manager.Disable` | processrouter/manager.go:157-169 | No process, not desired, stopped; the firewall rules remain exactly when they existed although recorded as cleaned |
| `RouterManager.StaleRemovalRecord` | processrouter/manager.go:375-395 | A run: disabled, repaired with a failing recheck, and disabled again with success while the rules are there |
| `RouterManager.Manager.Cleanup` | processrouter/manager.go:171-188 | As `Disable`, with the default rules and without the file |
| `RouterManager.Manager.RepairFirewall` | processrouter/manager.go:193-214 | Success leaves process and state alone with the firewall in place; failure of a desired router stops it |
| `RouterManager.Manager.Close` | processrouter/manager.go:216-229 | No process remains |
| `RouterManager.Manager.Reconcile` | processrouter/manager.go:231-295 | Without a lease a desired router ends stopped with no process; within it, success has the current rules acknowledged for the present proxy state, failure has no process |
| `RouterManager.Manager.EnsureProcess` | processrouter/manager.go:247-274 | A process is started only within the lease, after the integrity and firewall checks |
| `RouterManager.Manager.ApplyPolicy` | processrouter/manager.go:276-292 | The acknowledged command is that of the current generation and proxy state |
| `RouterManager.Manager.Drive` | processrouter/manager.go:247-294 | Within the lease, success means a process with the current rules acknowledged for the present proxy state, blocked exactly when a proxy is needed and down, ready exactly when it is needed and up; otherwise there is no process and the state is failed |
| `RouterManager.Manager.EnsureFirewall` | processrouter/manager.go:375-395 | Success exactly when the firewall is ready, and then a forced check found or installed it |
| `RouterManager.Restore` | processrouter/manager.go:82-113 | A restored configuration, enabled or not, starts no process by itself |
| `RouterManager.Load` | processrouter/manager.go:449-469 | An acceptable file is loaded in normal form, any other changes nothing |
| `RouterManager.Run` | processrouter/manager.go:82-295 | Over any run: a process implies desired and firewall ready; a policy in force is the current generation's acknowledged command; every start follows a contact of at most twenty seconds before |
| `RouterManager.GatedStart` | processrouter/manager.go:416-418 | A start within the lease keeps every start of the history gated |
| `FirewallPolicy.Reconcile` | internal/winfirewall/policy.go:70-158 | Foreign rules are never touched; a failed preflight, a check and an ensure that finds everything in place write nothing; success means the goal is reached; on a working store the preflight is all it takes |
| `FirewallPolicy.EnsureAll` | internal/winfirewall/policy.go:128-146 | On a working store exactly one equivalent rule per desired name is left, and all other names are as before |
| `FirewallPolicy.RemoveAll` | internal/winfirewall/policy.go:109-116 | On a working store no rule of the group is left, whichever of several rules of a name each deletion takes |
| `FirewallPolicy.EnsureTwice` | internal/winfirewall/policy.go:70-158 | Ensuring again succeeds and writes nothing |
| `FirewallPolicy.HealthyPassesPreflight` | internal/winfirewall/policy.go:80-90 | What an ensure reaches passes its own preflight |
| `FirewallPolicy.NamesAreFree` | internal/winfirewall/policy.go:80-90 | The preflight over reserved names |
| `FirewallPolicy.IsRemovable` | internal/winfirewall/policy.go:92-103 | The preflight of a removal |
| `FirewallPolicy.Matching` | internal/winfirewall/policy.go:60-68 | The rules of a name, in order |
| `FirewallPolicy.PendingStep` | internal/winfirewall/policy.go:110-116 | Each deletion takes one rule of its name, so as many are left as deletions are still to come |
| `SystemProxy.SystemProxy.SetProxy` | route/sysproxyapi/sysproxy.go:188-204 | Success leaves the settings applied, leased, on record and guarded as asked; on every path the captured runner ends owned or closed |
| `SystemProxy.SystemProxy.Begin` | route/sysproxyapi/sysproxy_lease.go:165-182 | The runner passes to the lease, or everything is turned off and it is closed |
| `SystemProxy.SystemProxy.ReplaceLease` | route/sysproxyapi/sysproxy_lease.go:50-60 | The old lease's runner is closed and the new lease has a new generation |
| `SystemProxy.SystemProxy.Renew` | route/sysproxyapi/sysproxy_lease.go:62-74 | Only a held lease gets a new deadline |
| `SystemProxy.SystemProxy.Release` | route/sysproxyapi/sysproxy_lease.go:126-144 | Settings the user has changed stay; others are turned off |
| `SystemProxy.SystemProxy.FireExpiry` | route/sysproxyapi/sysproxy_lease.go:101-122 | A timer of another generation changes nothing; before the deadline the lease stays; past it the lease ends, or is kept with a new timer when it cannot be released; user changes stay |
| `SystemProxy.SystemProxy.StopManaged` | route/sysproxyapi/sysproxy_lease.go:148-163 | No guard and no lease remain, user changes stay |
| `SystemProxy.SystemProxy.Disable` | route/sysproxyapi/sysproxy.go:212-241 | Success leaves no guard and no lease, failure changes neither |
| `SystemProxy.SystemProxy.FireNetwork` | route/sysproxyapi/sysproxy_reconcile.go:22-64 | A timer of another generation or past the deadline applies nothing; otherwise the settings are applied exactly when the network signature changed |
| `SystemProxy.SystemProxy.StartGuard` | route/sysproxyapi/sysproxy_guard.go:111-128 | The new guard is the only active one and owns its runner |
| `SystemProxy.SystemProxy.StopGuard` | route/sysproxyapi/sysproxy_guard.go:130-142 | No guard is active any more |
| `SystemProxy.SystemProxy.GuardRestore` | route/sysproxyapi/sysproxy_guard.go:183-201 | A cancelled guard applies nothing, the active one applies its settings |
| `SystemProxy.SystemProxy.GuardExit` | route/sysproxyapi/sysproxy_guard.go:150-157 | A guard that ends closes its runner, once |
| `SystemProxy.SystemProxy.PrepareNative` | route/sysproxyapi/sysproxy_native_handoff.go:16-28 | The settings are not touched and nothing is managed any more |
| `SystemProxy.SystemProxy.AdoptNative` | route/sysproxyapi/sysproxy_native_handoff.go:47-64 | Settings are not touched; success leaves them leased and on record |
| `SystemProxy.SystemProxy.Recover` | route/sysproxyapi/sysproxy_lease_store.go:181-236 | Settings that differ from the record stay; success turns the others off and removes the record |
| `SystemProxy.SystemProxy.FireRecovery` | route/sysproxyapi/sysproxy_lease_store.go:85-103 | A retry that was called off, or that meets a lease, changes nothing |
| `SystemProxy.Run` | route/sysproxyapi/sysproxy_lease.go:50-182 | In every interleaving no background step begun before a completed disable, stop or expiry applies settings after it; no runner is closed twice, none is open and closed, and every captured one is one or the other |
| `SystemProxy.CrashAndRecover` | route/sysproxyapi/sysproxy_lease_store.go:181-236 | After a crash at any moment of any run, a start whose calls work turns the settings off exactly if a record was written and they still match it, and leaves no record |
| `SystemProxy.CrashBeforeRecord` | route/sysproxyapi/sysproxy.go:188-204 | A run: applied, crashed before the record was written, and still on after a start whose calls work |
| `NonceStore.Store.Evict` | route/auth/middleware.go:65-82 | The loop computes the eviction, for any clock |
| `NonceStore.Store.Remember` | route/auth/middleware.go:46-63 | The new cache and the answer, for any clock |
| `NonceStore.SameReplies` | route/auth/middleware.go:46-82 | Under a clock that does not go back every run of calls gets the replies of a full history |
| `NonceStore.ExactIfForward` | route/auth/middleware.go:46-82 | After every forward run ending at a reading the next call is answered as by a full history, if and only if the clock has not gone back |
| `NonceStore.NothingExpiredKept` | route/auth/middleware.go:65-82 | After a call no key is kept that has expired |
| `NonceStore.ClockGoesBack` | route/auth/middleware.go:46-82 | Whenever the clock goes back below an earlier reading, a key is accepted again that a full history refuses |
| `NonceStore.NonceKeyInjective` | route/auth/middleware.go:159-160 | The joined key tells requests apart by key identifier, timestamp and nonce |
| `NonceStore.NoColonInKeyId` | route/auth/auth.go:85-106 | A valid key identifier has no colon |
| `NonceStore.Gate.Authenticate` | route/auth/middleware.go:118-165 | For any clock, records what it accepts and how far readings were out of order; with a clock that does not go back, accepts exactly the admissible requests not accepted within their lifetime |
| `NonceStore.TwiceOnlyAtTheEnds` | route/auth/middleware.go:134-140 | With readings out of order by at most `lag`, a request accepted twice was accepted within `lag` of both ends of its window, at the exact ends when `lag` is zero |
| `NonceStore.ReplayedMeansAccepted` | route/auth/middleware.go:159-162 | A request is called replayed if and only if the same request was accepted less than sixty seconds before |
| `WebSocket.WriteFrame` | route/httphelper/websocket.go:89-109 | The bytes written are the frame of section 5.2 of RFC 6455 without a mask |
| `WebSocket.Stream.ReadFrame` | route/httphelper/websocket.go:111-164 | Decodes the next frame, with each error case, and consumes exactly that frame |
| `WebSocket.Unmask` | route/httphelper/websocket.go:157-161 | The in-place loop combines every byte with its key byte |
| `WebSocket.FrameRoundTrip` | route/httphelper/websocket.go:89-164 | For every opcode below 16, key and payload up to the limit the masked frame is read back and nothing beyond it |
| `WebSocket.StreamRoundTrip` | route/httphelper/websocket.go:89-164 | A stream of masked frames is read back in order |
| `WebSocket.ServerFrameRefused` | route/httphelper/websocket.go:121-124 | A frame as the service writes it is not taken for a client's |
| `DiagnosticQueue.LineStored` | processrouter/native/diagnostic_queue.h:16-24 | Every kept line ends in a newline, is a C string and fits 2048 bytes with its terminator |
| `DiagnosticQueue.Queue.Enqueue` | processrouter/native/diagnostic_queue.h:25-35 | The line goes to the end of the ring, or is counted as dropped when 1024 are queued |
| `DiagnosticQueue.Queue.Take` | processrouter/native/diagnostic_queue.h:56-73 | The writer takes the oldest line with the dropped count, or goes idle, or ends |
| `DiagnosticQueue.Queue.Write` | processrouter/native/diagnostic_queue.h:74-79 | Everything taken has been handed over and the dropped count reported |
| `DiagnosticQueue.RingAppend` | processrouter/native/diagnostic_queue.h:27-29 | Writing the slot after the last appends to the ring's contents |
| `DiagnosticQueue.Run` | processrouter/native/diagnostic_queue.h:52-101 | In every interleaving lines leave in order, offered lines are taken, queued or counted as dropped, idle means everything accepted was handed over, and no wake-up is lost |

## Left out

- Strings are sequences of bytes, case is folded over ASCII letters only, and `path.Clean` is modelled by what it leaves alone.
- Error texts, log lines, published events and HTTP handlers; only success or failure is modelled.
- `core/manager.go`, named pipes, COM, Win32, Security.framework, mounts, file permissions and integrity manifests: their outcomes are inputs.
- Signatures, digests, base64 and general JSON: inputs of the checks that use them, except the command format between Go and C.
- Timers and goroutines have no latency: an armed timer may fire at any later step, whether it was stopped or not.
- Counters do not wrap: the 64-bit generations and the 32-bit count of dropped lines are natural numbers.
- DNS lease assumptions: service identifiers and names correspond one to one, no edit lands between a read and the write it guards, the user does not pick exactly the desired servers while an entry exists, and start-up reads the record or finds none.
- `strtoul` in the C helper accepts signs and leading blanks, which the printer never writes; the model reads digits only, so `WindowsHelper.Serve` takes a number written otherwise for none.
- Setup programs of this product are protected only under the one sample name the source tests; the broader test by prefix and suffix (processrouter/types.go:333-339) has no caller and is not modelled.
- The engine and its matcher are a parameter: an ordered list of rules in which the first enabled match decides.
- GuardedReplacement.Helper.AddManagedRule: a rule that must stay disabled is enabled for the moment between adding and changing it, as in the source; only processes that an enabled rule names are under the guard then.
- WindowsHelper.Serve: the conversion of line ends on the helper's standard input; a NUL cuts a line short, as for C's string functions.
- iptables and ip are modelled by an interpreter that covers the commands of the plans; chains of other programs are walked like the router's own; the order of tables is mangle, nat, filter on the way out and mangle PREROUTING, filter INPUT on the way in, and nat PREROUTING is not modelled.
- LinuxRollback.Firewall.Rebuild: a cleanup command fails only when there is nothing to remove; a cleanup that fails for another reason is not undone by the source either.
- LinuxJourney.PacketMeaning: a process outside the router's groups does not carry one of their class identifiers, and no rule jumps to a built-in chain.
- LinuxJourney.ArrivalExact: stated for tables that let every packet through without the router; `LinuxJourney.OutgoingTreated`, `LinuxJourney.PreroutingInstalled` and `LinuxJourney.InputInstalled` hold for any.
- CgroupRouter.Router.Stop: writes to live processes succeed, process identifiers are not reused, other programs do not move a routed process, and no process is forked while the groups are emptied.
- RouterManager.Run: one reading of the clock per section, so the time between the lease check and the start is not modelled; `Restore` runs once at start-up, before any request.
- RouterManager.Manager.Close: a process whose stop reports an error counts as gone, as in the source.
- FirewallPolicy.Reconcile: the desired rules have different case-folded names and carry the managed group, as every caller's do; an invalid mode cannot be written.
- SystemProxy.CrashAndRecover: a record is written as a whole or not at all, and the settings are not edited between the crash and the start.
- SystemProxy.SystemProxy.AdoptNative: whether the settings are those the client named is an input, and when the new guard cannot be started the old one stays, as in the source.
- DiagnosticQueue.Queue.Write: a write that fails or is cancelled counts as handed over; what `diagnostic_queue_stop` discards after the writer ended is not modelled.
