# Sandbox control plane: verified model

A Dafny 4.11 model of a control plane that runs small virtual-machine sandboxes, publishes
their ports on the host and guards them with iptables. `dafny verify dfyconfig.toml` checks
everything. Source paths below are relative to the repository's root.

## What is modelled

- **Rules and tables** (`Text`, `Rules`, `Tables`): the string functions the code relies on
  (ASCII), IPv4 blocks in prefix notation (section 3.1 of RFC 4632), packets, iptables rules
  with their written form, first-match evaluation where a user chain falls through to its
  caller, and one table as a class whose methods are the calls the code makes (new chain,
  append unless present, insert at a position, delete the first equal rule, clear, drop an
  unreferenced chain, list).
- **Filter rules** (`Firewall`, `Policy`, `Hooks`, `Commands`, `History`, `Undo`, `Between`, `Reach`): installing
  the global chains, applying and deleting a sandbox, as methods over the shared table, each
  equal to a function of the old table. Proved of those functions: the verdict of every packet
  of every live sandbox is a plain policy after any history; deletion undoes application
  exactly, also across other operations; published ports stay reachable. `Hooks` says of the
  configured list of names which chains get the jump, `Commands` what the chains hold in the words
  of the iptables command line.
- **Address translation** (`Nat`, `Tags`, `Quoting`, `Published`, `Publishing`, `Lookup`):
  publishing, unpublishing by specification, by tag and by orphan sweep, over both ways a table
  may print comments. Listing lines are really rendered, split and read back. The translation
  chains implement the map of claimed ports after any history.
- **Requests and saved states** (`Requests`, `Sandboxes`): validation, container plans, the
  mutable sandbox object with phase changes and the refresh from runtime observations.
- **Host ports** (`Ports`, `PortProtocol`): the availability check and the reservation map as
  a class, and every interleaving of creations, deletions and reconciles as a step machine
  with one lock per sandbox and one for the ports section.
- **Lifecycle** (`Lifecycle`, `Passage`, `Sweeps`, `Serving`, `Origins`, `Courses`, `Service`): every
  interleaving of creation, provisioning, failure at any point, deletion, time-out, reconcile
  and orphan sweep over the real rule tables, one table operation per step, with the steps of
  the port protocol inside (`Lifecycle.PortRunIsRun`). What every run keeps, when a running
  sandbox's ports are published and open in any run, and that a packet to them is then
  translated and accepted. `Origins` ties what is saved, installed and served in any run to the
  requests the sandboxes were created by. `Courses` holds the stretches of the concrete runs.
  The operations of `Service` are methods whose effect is proved to be a run of those steps, so
  what holds between any two steps of any run holds inside each operation.
- **Reconcile** (`Debounce`, `Reconcile`, `Convergence`, `Outcomes`, `RoundEffects`,
  `RoundContainers`, `RoundPorts`, `RoundPolicies`, `RoundOrphans`, `Standstill`): the debouncer,
  the whole round over saved states, containers, runtime and both rule tables, what one round
  makes of each sandbox, its containers, ports and policy, and what iterating it comes to: a
  fixpoint of the whole world.

Time is a whole number of seconds and an input. Runtime answers (machine created, container
created, address, status, readiness, deletion) are inputs too. Resolver lists are arbitrary.

## Where the code does less than it intends

Each of these is stated for all inputs, with the exact condition under which the code does meet
the intent.

- The availability check keeps stored ports by number alone, so a port stored under two
  protocols loses one owner: `Ports.WrittenCheckExactIff`, `Ports.WrittenCheckMisses`.
- The check reads the store before the reservations, while a creation releases its reservation
  outside the ports section; two creations can both get one port. Reading the reservations
  first, or both at once, is safe: `PortProtocol.AlwaysUniqueIff`,
  `PortProtocol.StoreThenReservedFails`, `PortProtocol.NoPortHasTwoOwners`.
- A sandbox's tag is searched for as text, so id `a` also hits the rules of id `ab`:
  `Tags.TagFoundIff`, `Published.TagSweepExactIff`.
- If the listing prints comments in double quotes, both sweeps delete nothing, whatever other
  rules the chain holds: `Quoting.QuotedSweepKeepsAll`. A removal then takes away exactly the
  rules its own arguments name: `Publishing.QuotedCleanup`. That is enough for a sandbox with a
  saved state, so the theorems about runs and rounds hold for both styles of listing; ports of
  an orphan stay published under a quoting one: `RoundPorts.RoundPublishes`.
- The filter rules lower-case a protocol name without trimming it, the translation rules trim:
  `Text.FilterProtoAgrees`.
- Deletion restores `FORWARD` only if none of the sandbox's port rules was there before:
  `Undo.ForwardRestoredIff`.
- A failed provision keeps its address in the saved state, so removing it later closes the
  ports it shares with whoever has the address then. Live sandboxes' ports stay open in a run
  exactly when no removal in it names one: `Serving.AlwaysOpenIff`, `Reach.StaleDelete`, and a
  run in which it happens: `Serving.StaleRemovalHappens`.
- A refresh reports the error of whichever failing container the map yields first. The text
  depends on the order exactly when, outside the creation grace, one container is missing and
  another one's status cannot be read: `Sandboxes.RefreshOrderIndependentIff`,
  `Sandboxes.ErrorDependsOnOrder`.
- Setting the error phase without a text leaves a saved error without a text unless one was
  there: `Sandboxes.SetPhaseCoherentIff`.
- The sweep that ends a round keeps what was listed when the round began, so a sandbox created
  in between can lose its ports and still be saved as running: `Sweeps.StaleSweepHappens`.
  Published ports stay complete in a run, and no sandbox is or can without another sweep come
  to be saved as running short of one, exactly when each sweep in it keeps every sandbox with a
  published port that is at work or running: `Sweeps.AlwaysWholeIff`, `Sweeps.RunningInstalledIff`.
- Orphaned containers are collected by the prefix `id-`, which mixes sandboxes such as `a` and
  `a-b`: `Requests.FamiliesApartIff`.

## Assumptions

- Chain-name hashes of live ids differ, and an address given to a sandbox is not in use by a live one.
- Ids have no whitespace, do not end in a double quote and none begins another, where tags are
  swept; where only container prefixes matter, no id followed by a dash begins another one.
- A load and the save that follows it, and a reconcile round's work on one sandbox, happen with
  a current state and under that sandbox's lock; the code only probes the lock.
- A provision of a sandbox that is installed already fails at its containers, whose ids are
  taken, before it asks for an address.
- Saves whose error the code discards succeed, as do single iptables calls in tables with the
  global chains.
- Rules of other programs can be listed, carry no tag, and (for lookups) let the packet pass;
  where acceptance in `FORWARD` is stated, the host starts with no rule there that looks like a
  port rule.
- The port check sees of each stored number the protocol of one of its claims; which one depends
  on the order of the listing, so the machine allows any (`PortProtocol.WrittenCheckAllows`).

## Model

| member | source | states |
|---|---|---|
| Text.FieldsOfJoin | internal/network/firewall.go:265-265 | splitting a line of words on whitespace gives the words back |
| Text.ContainsInJoin | internal/network/firewall.go:253-263 | finding `flag value` in a line of words means two neighbouring words ending in the flag and starting with the value |
| Text.FilterProtoAgrees | internal/network/firewall.go:124-127 | filter and translation rules use the same protocol exactly when the name has no surrounding whitespace |
| Text.ProtocolWords | internal/network/firewall.go:124-127 | a missing name means tcp and case does not matter, for both kinds of rules |
| Text.CaseOfLetters | internal/network/firewall.go:83-84 | the 26 capitals and small letters are converted into each other, and no other character changes |
| Rules.CidrIsInterval | internal/network/firewall.go:144-149 | comparing prefixes is membership in the aligned block |
| Rules.NestedHas | internal/network/firewall.go:144-149 | a nested block's addresses lie in the outer block |
| Rules.LaterDuplicateRedundant | internal/network/firewall.go:131-156 | a later duplicate of a rule never changes a first-match verdict |
| Rules.RejectBlockDecides | internal/network/firewall.go:144-150 | the reject block rejects exactly the destinations in one of its blocks |
| Rules.NestedRejectRedundant | internal/network/firewall.go:144-150 | a reject rule for a block nested in another one of the list can be dropped, wherever either stands |
| Tables.RuleTable.AppendUnique | internal/network/firewall.go:114-156 | appends a rule unless an equal one is present; fails without the chain |
| Tables.RuleTable.Insert | internal/network/firewall.go:340-350 | inserts at a position, refused when the position is out of range |
| Tables.RuleTable.Delete | internal/network/firewall.go:331-331 | removes the first equal rule and tells whether there was one |
| Tables.RuleTable.DeleteSpec | internal/network/firewall.go:270-270 | removes the first rule written with the given words |
| Tables.RuleTable.DeleteChain | internal/network/firewall.go:196-199 | removes a chain only when it is empty and nothing jumps to it |
| Tables.FirstRemoved | internal/network/firewall.go:331-331 | a deletion takes out the first occurrence and leaves the others in their order |
| Tables.RuleTable.List | internal/network/firewall.go:255-258 | one line per rule, in order |
| Tables.AppendUniqueKeepsVerdict | internal/network/firewall.go:131-156 | a chain built by appending without duplicates gives every packet the verdict of the full list |
| Firewall.EnsureGlobalChains | internal/network/firewall.go:61-99 | installs the global chains and the rules at their heads; which chains are hooked is told from the configured names by Hooks.EveryNamedChainJumps |
| Hooks.EveryNamedChainJumps | internal/network/firewall.go:76-97 | for every table and every list of names: a chain that some name, cut and in upper case, names begins with the jump, INPUT with its own jump first; every other chain but FORWARD keeps its list |
| Hooks.DockerChainJumps | internal/network/firewall.go:76-92 | the default list, and a padded lower-case name, put the jump at the head of DOCKER-USER and of FORWARD |
| Commands.HeadCommands | internal/network/firewall.go:69-92 | the first three rules of FORWARD in the words of the command line |
| Firewall.ContainsChain | internal/network/firewall.go:368-377 | found exactly when some name agrees after trimming and upper-casing |
| Firewall.InsertFirst | internal/network/firewall.go:340-350 | moves or puts one rule at the head of a chain |
| Firewall.InsertForwardAcceptEarly | internal/network/firewall.go:327-338 | moves or puts one accept rule right behind the head of FORWARD |
| Firewall.ApplySandboxRules | internal/network/firewall.go:101-171 | hooks and fills the two chains of a sandbox and accepts its published ports |
| Commands.AppliedCommands | internal/network/firewall.go:101-171 | the two chains of a sandbox hold exactly the rules the command line would write for it, resolver by resolver, network by network and port by port, and the common chains the hooks to them |
| Commands.ResolverAllowed | internal/network/firewall.go:132-136 | with egress every resolver is reachable over both protocols, whatever the table held before |
| Firewall.DeleteSandboxRules | internal/network/firewall.go:173-200 | removes port rules, hooks and chains of a sandbox |
| Policy.BlockedIsIntervals | internal/network/firewall.go:144-149 | the blocked prefixes cover exactly the private, loopback, link-local, shared, benchmarking, multicast and reserved ranges |
| Policy.DnsRulesDecide | internal/network/firewall.go:132-139 | for every resolver list the DNS rules accept exactly DNS, and only with egress |
| Policy.ResolversRedundant | internal/network/firewall.go:132-136 | the per-resolver rules change no verdict, whatever the resolvers |
| Policy.FwdBodyDecides | internal/network/firewall.go:131-155 | a sandbox's forward chain decides every packet as the plain policy does |
| Policy.InBodyDecides | internal/network/firewall.go:157-168 | a sandbox's input chain decides every packet as the plain input policy does |
| Policy.EnsureEffect | internal/network/firewall.go:61-99 | the exact list each chain becomes |
| Policy.ApplyEffect | internal/network/firewall.go:101-171 | the exact list each of the five touched chains becomes, and that no other changes |
| Policy.DeleteEffect | internal/network/firewall.go:173-200 | the exact effect of a deletion on every chain |
| History.ApplyKeepsGuard | internal/network/firewall.go:101-171 | applying a new sandbox succeeds and keeps the table guarding the others and now it |
| History.DeleteKeepsGuard | internal/network/firewall.go:173-200 | deleting keeps the table guarding all other sandboxes, even when the address was handed on |
| History.ForwardVerdict | internal/network/firewall.go:101-171 | in a guarding table the FORWARD verdict of a live sandbox's packet is its policy |
| History.InputVerdict | internal/network/firewall.go:157-168 | the INPUT verdict of a live sandbox's packet from its bridge is its input policy |
| History.PolicyAfterAnyHistory | internal/network/firewall.go:61-200 | from a clean host, after any history of installs, applications and deletions: the jump heads FORWARD and every packet of every live sandbox gets its policy, forwarded or to the host |
| Undo.EnsureIdempotent | internal/network/firewall.go:61-99 | installing the global chains twice is installing them once, on the whole table |
| Undo.EnsureKeepsForeignRules | internal/network/firewall.go:61-99 | FORWARD begins with jump, established and mark rules for any hook list, and foreign rules keep their order |
| Undo.ForwardRestoredIff | internal/network/firewall.go:102-200 | FORWARD is restored exactly when none of the port rules was there before, repeated ports included |
| Undo.DeleteUndoesApply | internal/network/firewall.go:102-200 | deletion restores the whole table rule for rule exactly under that condition |
| Between.DeleteCommutesWithRun | internal/network/firewall.go:102-200 | deletion commutes with any run of complete operations on other sandboxes |
| Between.DeleteUndoesApplyAcross | internal/network/firewall.go:102-200 | apply, any operations on others, delete: the table is as if the sandbox had never been applied |
| Between.RunKeepsExact | internal/network/firewall.go:61-200 | every legal history keeps the conditions the two results above need |
| Reach.PublishedReachable | internal/network/firewall.go:123-129 | packets from outside to a published container port are forwarded |
| Reach.ReachableAfterAnyHistory | internal/network/firewall.go:61-200 | the same after any legal history from a bare host |
| Reach.StaleDelete | internal/network/firewall.go:180-186 | a deletion with an address handed on closes exactly the ports it shares with a live sandbox |
| Nat.ApplyHostPortDNAT | internal/network/firewall.go:202-228 | appends both tagged rules per port in order, stopping at the first failure |
| Nat.PublishStops | internal/network/firewall.go:202-228 | without one of the two chains publishing fails with no more than the first rule written |
| Nat.DeleteHostPortDNAT | internal/network/firewall.go:230-248 | removes one occurrence of both rules per port |
| Nat.SandboxIDFromRule | internal/network/firewall.go:312-325 | reads the first tagged comment of a split line |
| Nat.DeleteHostPortDNATBySandbox | internal/network/firewall.go:250-277 | in both chains, deletes by content each listed line that contains the tag's text |
| Nat.DeleteOrphanHostPortDNAT | internal/network/firewall.go:279-310 | in both chains, deletes by content each listed line whose tag is not kept |
| Nat.SweepIsFilter | internal/network/firewall.go:254-310 | listing once and deleting by content one occurrence at a time leaves exactly the order-preserving filter, duplicates included |
| Nat.ShortLines | internal/network/firewall.go:264-268 | only listed rules with words behind the chain's name are ever deleted |
| Nat.QuotedSweepDeletesNothing | internal/network/firewall.go:260-272 | when no listed line is written like a rule of the chain, a sweep changes nothing |
| Tags.TagRoundTrip | internal/network/firewall.go:312-325 | listing, splitting and reading a rule's tag gives back the id exactly when it has no whitespace and no trailing quote, in both listing styles |
| Tags.TagFoundIff | internal/network/firewall.go:253-263 | a sandbox's tag text is in the line of another id's rule exactly when that id begins with it |
| Published.OrphansSwept | internal/network/firewall.go:279-310 | an orphan sweep leaves exactly the untagged rules and the rules of kept ids, in order |
| Published.TagSweepExactIff | internal/network/firewall.go:250-277 | a tag sweep removes exactly the sandbox's rules if and only if no other publishing id begins with its id |
| Publishing.BareCleanup | internal/sandbox/runtime.go:310-319 | over a bare listing removal by specification and then by tag removes exactly the sandbox's rules, whatever address and ports it was given |
| Publishing.QuotedCleanup | internal/sandbox/runtime.go:310-319 | over a quoting listing it removes exactly the rules its own arguments name |
| Publishing.CleanupHostPortPublish | internal/sandbox/runtime.go:310-319 | removal by specification when an address is known, then by tag, over either style of listing |
| Quoting.QuotedSweepKeepsAll | internal/network/firewall.go:250-310 | over a quoting listing neither sweep changes a chain of published rules and rules of other programs |
| Publishing.NatEventKeeps | internal/network/firewall.go:202-310 | publishing, removing and sweeping keep the chains holding exactly foreign rules and, once each, the rules of the current publications, over either style of listing |
| Lookup.ClaimedLookup | internal/network/firewall.go:202-228 | a packet to a claimed host port is translated to the claiming sandbox |
| Lookup.UnclaimedLookup | internal/network/firewall.go:202-228 | a packet to an unclaimed host port is left alone |
| Lookup.LookupAfterAnyHistory | internal/network/firewall.go:202-310 | both, after any history from chains with foreign rules only |
| Lookup.OthersUndisturbed | internal/network/firewall.go:202-277 | publishing or removing one sandbox changes no other sandbox's lookup |
| Requests.Validate | internal/model/validate.go:8-57 | accepts exactly the acceptable requests, else names the first thing wrong |
| Requests.AcceptedIff | internal/model/validate.go:8-57 | what is accepted, in plain terms |
| Requests.AcceptedPortsDistinct | internal/model/validate.go:30-54 | accepted requests claim pairwise different host ports |
| Requests.PlanContainers | internal/sandbox/state.go:47-59 | fills the container map in request order |
| Requests.PlanIsBijection | internal/sandbox/state.go:47-59 | for accepted requests the map is in bijection with the list, with distinct container ids |
| Requests.FamiliesApartIff | internal/sandbox/reconcile.go:214-219 | collecting by prefix mixes two sandboxes exactly when one id with a dash begins the other with a dash |
| Requests.PlansApart | internal/sandbox/state.go:49-59 | otherwise their planned container ids differ and neither family holds the other's |
| Sandboxes.Sandbox.constructor | internal/sandbox/state.go:33-62 | a new sandbox is creating, without error or address, with the egress setting and ports of the request and each requested container planned under its own name with its image, arguments and environment |
| Sandboxes.NewRecordSays | internal/sandbox/state.go:33-62 | the same of the saved state, for every accepted request |
| Sandboxes.Sandbox.SetPhase | internal/sandbox/state.go:22-31 | sets phase and time; a text replaces the error, no text clears it except in the error phase |
| Sandboxes.SetPhaseCoherentIff | internal/sandbox/state.go:22-31 | when a phase change leaves phase and error text consistent |
| Sandboxes.Sandbox.VisitOne | internal/sandbox/runtime.go:349-356 | one container's state from one observation, with the grace for missing containers |
| Sandboxes.Sandbox.Conclude | internal/sandbox/runtime.go:370-381 | the phase that follows from the containers; a sandbox being deleted keeps its own |
| Sandboxes.Sandbox.Refresh | internal/sandbox/runtime.go:329-384 | phase, error and container states from the observations, in any visiting order; what they are is told from the observations by the three members below |
| Sandboxes.RefreshedPhase | internal/sandbox/runtime.go:370-381 | running if and only if every container is observed running, failed if and only if some status is unreadable or some container is missing outside the grace, creating otherwise, with the error text that goes with it |
| Sandboxes.RefreshedStatus | internal/sandbox/runtime.go:386-460 | every saved field of a container in terms of its observation |
| Sandboxes.RefreshedRecord | internal/sandbox/runtime.go:329-384 | nothing else of the record changes but its time |
| Sandboxes.Sandbox.VisitContainers | internal/sandbox/runtime.go:343-368 | the loop over the containers: refreshed states, whether any failed, the first error text, whether all run |
| Sandboxes.RefreshPhaseIndependent | internal/sandbox/runtime.go:345-384 | the visiting order changes nothing but the error text |
| Sandboxes.RefreshOrderIndependentIff | internal/sandbox/runtime.go:329-384 | a refresh is the same in every visiting order exactly unless, in a state it does rework, one container is missing outside the grace and another one's status is unreadable |
| Sandboxes.ErrorDependsOnOrder | internal/sandbox/runtime.go:345-368 | a sandbox whose error text the visiting order decides |
| Sandboxes.RefreshIdempotent | internal/sandbox/runtime.go:329-423 | for every status the runtime reports, a second refresh with the same observations and clock changes nothing, in whatever orders the two visit |
| Sandboxes.RefreshKeepsCoherent | internal/sandbox/runtime.go:329-384 | a refresh keeps error phase and error text together |
| Sandboxes.RefreshNeverMasks | internal/sandbox/runtime.go:329-334 | a saved error is returned as it is; running is reported only when every container runs |
| Ports.KeyTextInjective | internal/sandbox/lifecycle.go:350-352 | the text key of a reservation determines port and protocol |
| Ports.PortBook.CollectUsed | internal/sandbox/lifecycle.go:268-288 | the map by port number of the other sandboxes' stored ports |
| Ports.PortBook.EnsureHostPortsAvailable | internal/sandbox/lifecycle.go:263-307 | passes exactly when every requested port does, else names the first failing one, why and whose it is |
| Ports.PortBook.ReserveRequestedPorts | internal/sandbox/lifecycle.go:309-318 | reserves exactly the requested keys |
| Ports.PortBook.ReleasePorts | internal/sandbox/lifecycle.go:320-328 | releases exactly the keys still held by the sandbox |
| Ports.PortBook.ReleaseReservedPorts | internal/sandbox/lifecycle.go:331-340 | releases everything the sandbox holds |
| Ports.ReleaseUndoesReserveIff | internal/sandbox/lifecycle.go:309-329 | release after reserve restores the map exactly when no key was reserved before |
| Ports.WrittenCheckExactIff | internal/sandbox/lifecycle.go:268-295 | the check by number agrees with the check by number and protocol exactly when no stored number is claimed under two protocols |
| Ports.WrittenCheckMisses | internal/sandbox/lifecycle.go:268-295 | a stored tcp port the check hands out again |
| Ports.UsedNamesOwner | internal/sandbox/lifecycle.go:268-288 | the sandbox the map names for a number is another one listed with that number and protocol |
| PortProtocol.OthersKeepTheirs | internal/sandbox/lifecycle.go:59-76 | a step of one sandbox changes no other sandbox's ports |
| PortProtocol.ActorsPorts | internal/sandbox/lifecycle.go:59-76 | what each step does to the acting sandbox's ports; the hand-over from reservation to saved state loses none |
| PortProtocol.StepKeepsUniqueIff | internal/sandbox/lifecycle.go:263-318 | a step keeps every port singly owned exactly when a claim finds the store still free |
| PortProtocol.AlwaysUniqueIff | internal/sandbox/lifecycle.go:263-348 | the same for whole interleavings, in whatever order the check reads |
| PortProtocol.NoPortHasTwoOwners | internal/sandbox/lifecycle.go:263-348 | no interleaving gives a port two owners when the check reads at once or reservations first |
| PortProtocol.ReservationsOfCreations | internal/sandbox/lifecycle.go:59-86 | in every interleaving the reservations are exactly those of creations between claim and release |
| PortProtocol.StoreThenReservedFails | internal/sandbox/lifecycle.go:263-301 | a run in which the written order of reading gives one port to two sandboxes |
| PortProtocol.CheckIsGuard | internal/sandbox/lifecycle.go:263-307 | the port book's check is the protocol's guard while no stored number has two protocols |
| PortProtocol.WrittenCheckAllows | internal/sandbox/lifecycle.go:263-307 | whatever passes the check as written meets the guard of the protocol's written mode |
| Lifecycle.StepKeepsSound | internal/sandbox/lifecycle.go:114-233 | every step of every operation, a sweep with any keep list included, keeps tables, saved states, reservations and work in progress consistent |
| Lifecycle.AnyRunIsSound | internal/sandbox/lifecycle.go:30-233 | so does every interleaving from a clean host |
| Lifecycle.PortRunIsRun | internal/sandbox/lifecycle.go:59-86 | the port steps of a lifecycle run are a run of the port protocol that ends in the same reservations and keys |
| Serving.PublishedOnlyBehindPolicy | internal/sandbox/runtime.go:229-246 | at every point, a tagged translation rule leads to a saved sandbox whose hooks and chains are in place |
| Serving.ClaimsAreUnique | internal/sandbox/lifecycle.go:263-307 | published claims are unique when the saved sandboxes' ports are apart |
| Serving.RunningPolicy | internal/sandbox/lifecycle.go:158-185 | a sandbox saved as running has its address and its packets meet its policy, in every run |
| Serving.FreshClaimsApart | internal/sandbox/lifecycle.go:59-86 | in a run whose claims find the store free, saved sandboxes' ports are apart |
| Serving.SureChecksClaimFresh | internal/sandbox/lifecycle.go:263-307 | checks that read reservations first, or at once, and by protocol make only such claims |
| Serving.RunningServes | internal/sandbox/lifecycle.go:145-185 | in every run whose claims find the store free and whose sweeps and removals spare the others, a packet to a host port of a sandbox saved as running is translated to it and then accepted in FORWARD |
| Origins.RunsServeRequests | internal/sandbox/lifecycle.go:30-189 | in every run the saved state and the installed policy have the egress setting and ports of the request that created the sandbox, and one saved as running is let out exactly as that request says |
| Origins.RunsAnswerRequests | internal/sandbox/lifecycle.go:30-189 | in every run a packet from it to the host is let in exactly when it answers on a container port of that request |
| Origins.RequestedPortsServed | internal/sandbox/lifecycle.go:30-189 | under the conditions of RunningServes a packet to a host port the request asked for reaches the container port it was asked for |
| Sweeps.SweepKeepsWholeIff | internal/sandbox/reconcile.go:109-118 | a sweep leaves every working and running sandbox's published ports complete exactly when its keep list, however old, holds each of them |
| Sweeps.AlwaysWholeIff | internal/sandbox/reconcile.go:20-118 | the same for whole runs: published ports are complete throughout exactly when each sweep spares them |
| Sweeps.RunningInstalledIff | internal/sandbox/reconcile.go:20-118 | throughout a run all running sandboxes have their ports published, whatever follows without a sweep, exactly when each sweep in it spares them |
| Sweeps.StaleSweepHappens | internal/sandbox/reconcile.go:24-118 | a run in which a sandbox is saved as running with none of its ports published |
| Passage.EventNoStray | internal/network/firewall.go:123-186 | every operation keeps the port rules of FORWARD those of live sandboxes |
| Passage.DeletionOpensIff | internal/network/firewall.go:180-186 | a deletion leaves all live ports accepted exactly when none is shared with its arguments |
| Passage.OtherTrafficPasses | internal/network/firewall.go:69-74 | after any legal history, open connections and marked packets that come from no live sandbox are accepted in FORWARD, whatever other programs have there |
| Serving.StepOpenIff | internal/sandbox/runtime.go:321-327 | a step keeps every live sandbox's ports accepted in FORWARD exactly when it is no removal that shares one |
| Serving.AlwaysOpenIff | internal/sandbox/runtime.go:229-246 | the same for whole runs |
| Serving.StaleRemovalHappens | internal/sandbox/lifecycle.go:117-128 | a run in which removing a failed sandbox closes another one's port |
| Serving.SavedErrorsShow | internal/sandbox/lifecycle.go:114-205 | on everything saved in any run, error phase and error text go together, and a refresh shows the error |
| Serving.RemovedLeavesNoTrace | internal/sandbox/runtime.go:223-246 | a sandbox that is not saved has no translation rule, no hook, no chain content and no accept rule in FORWARD left |
| Service.Service.CreateSandbox | internal/sandbox/lifecycle.go:30-86 | each outcome's exact condition, locks, load, listing, check and save included; at every exit the reservations are as they were; a background creation saves exactly what the request asks for; a foreground one ends as told for ProvisionSandboxSync; leftovers are cleaned first |
| Service.Service.CleanupLeftovers | internal/sandbox/lifecycle.go:53-57 | what both rule tables become; no saved state and no other sandbox's rules change |
| Service.Service.CreateContainers | internal/sandbox/lifecycle.go:138-149 | creates containers up to the first failure, whose text is returned; under each name the state that came back last is kept |
| Service.Service.InstallSandbox | internal/sandbox/lifecycle.go:158-188 | policy, readiness, ports, saved as running; any failure, that of the last save included, ends saved as failed and clean |
| Service.Service.ApplySandboxNetworkPolicy | internal/sandbox/runtime.go:300-303 | applying the policy is one lifecycle step, succeeds in every reachable state and lets look-ups at every resolver out where the sandbox has egress |
| Service.Service.ApplyHostPortPublish | internal/sandbox/runtime.go:305-308 | publishing is one lifecycle step per port and succeeds in every reachable state |
| Service.Service.DeleteRuntimeArtifacts | internal/sandbox/runtime.go:229-246 | ports first, then policy; afterwards neither is installed; tells whether some container could not be deleted |
| Service.Service.CleanupSandboxNetworkPolicy | internal/sandbox/runtime.go:321-327 | removes the policy if an address is known; without one there is none to remove |
| Service.Service.ProvisionSandboxSync | internal/sandbox/lifecycle.go:114-189 | ends saved as running with the address it was given, the policy installed and the containers that came back as then observed, or saved as failed with nothing installed and the first failing container's error, without one the error saved before, or a text of its own in place of an empty one |
| Service.Service.ProvisionSandbox | internal/sandbox/lifecycle.go:88-112 | the same in the background, with the error of the provision when that has a text, also for an id that is installed already, and what happens when the lock or the state is missing |
| Service.Service.FailProvision | internal/sandbox/lifecycle.go:117-128 | saves the error, then removes whatever was installed |
| Service.Service.MarkSandboxError | internal/sandbox/lifecycle.go:191-205 | saves the error if the sandbox is still saved |
| Service.Service.DeleteSandbox | internal/sandbox/lifecycle.go:207-233 | removes state, rules and reservations of the sandbox and of no other; each returned error's exact condition |
| Service.PublishRun | internal/sandbox/lifecycle.go:168-170 | publishing in one call is publishing port by port, and succeeds in every reachable state |
| Service.CheckedCreationKeepsPortsApartIff | internal/sandbox/lifecycle.go:65-76 | a creation that passes the check keeps saved ports apart exactly when the map by number has no requested port overwritten for another protocol |
| Debounce.WatchReflects | internal/sandbox/reconcile.go:259-283 | in every history both maps have the same keys and tell first sighting and count since the last clear |
| Debounce.DueIff | internal/sandbox/reconcile.go:259-276 | due on exactly the sightings that complete max(2, hits) with the first at least the grace ago |
| Debounce.Debouncer.ShouldFinalizeUnhealthy | internal/sandbox/reconcile.go:259-276 | the same for the object with its two maps |
| Debounce.Debouncer.ClearUnhealthy | internal/sandbox/reconcile.go:278-283 | forgets one sandbox and no other |
| Debounce.OthersUnaffected | internal/sandbox/reconcile.go:259-283 | signs of one sandbox never change what is kept of another |
| Reconcile.Reconciler.Healthy | internal/sandbox/reconcile.go:76-82 | healthy exactly when every container runs |
| Reconcile.Reconciler.FinalizeWhenDue | internal/sandbox/reconcile.go:84-91 | counts the sighting and, when it is due, takes the sandbox down: containers, ports, policy, runtime and state |
| Reconcile.Reconciler.TakeDown | internal/sandbox/reconcile.go:214-229 | afterwards a container is there if and only if it was and is not one of the sandbox's or resists; state and runtime entry are gone, and both rule tables are as after the clean-up |
| Reconcile.Reconciler.ReconcileOnce | internal/sandbox/reconcile.go:20-122 | one round equals its specification over saved states, containers, runtime, debouncer and both rule tables, and a failed listing changes nothing; what the round comes to is told in plain terms by Outcomes, RoundContainers, RoundPorts, RoundPolicies and RoundOrphans |
| Reconcile.Reconciler.VisitSaved | internal/sandbox/reconcile.go:44-93 | the decision about one saved sandbox |
| Reconcile.Reconciler.CleanupOrphan | internal/sandbox/reconcile.go:208-229 | the clean-up of a runtime sandbox without a saved state |
| Convergence.RoundSlots | internal/sandbox/reconcile.go:20-122 | what a round makes of each sandbox, whatever the listing order and whatever else it removes |
| Outcomes.RoundWaits | internal/sandbox/reconcile.go:45-66 | a locked or deleting sandbox is left alone, one being created until it is 120 seconds old, when it is saved as failed with the time-out text |
| Outcomes.SlotSeen | internal/sandbox/reconcile.go:259-283 | the maps the next two are about tell when the sandbox was seen unhealthy since it was last cleared, in every history |
| Outcomes.RoundRemovesDue | internal/sandbox/reconcile.go:68-91 | one found unhealthy is removed exactly when it has been seen so at least twice, as often and for as long as configured since it was last well; otherwise one more sighting is noted |
| Outcomes.RoundForgetsWell | internal/sandbox/reconcile.go:92-92 | one found well stays as it is and its sightings are forgotten |
| Outcomes.TimeOutIsStep | internal/sandbox/reconcile.go:53-66 | the reconciler's time-out is the lifecycle's |
| Convergence.PotentialDrops | internal/sandbox/reconcile.go:44-122 | the measure never rises and falls in every round that has something to do |
| Convergence.QuietRound | internal/sandbox/reconcile.go:44-122 | once nothing is left to do a round changes no state, container, runtime entry or filter rule |
| Convergence.RoundsSettle | internal/sandbox/reconcile.go:44-122 | after a bounded number of rounds nothing is left to do: every saved sandbox is locked, deleting or has all its containers running |
| RoundEffects.RoundSpares | internal/sandbox/reconcile.go:44-122 | a round leaves containers and runtime of every locked, deleting or healthy sandbox as they were |
| RoundContainers.RoundStops | internal/sandbox/reconcile.go:44-107 | a round stops exactly the containers of the sandboxes it removes and those that carry an orphan's id in front, unless they resist; the others stay as they are |
| RoundEffects.RoundsRemoveExactlyTheSick | internal/sandbox/reconcile.go:44-122 | after the bound a sandbox is still saved if and only if it was locked, deleting or healthy at the start |
| RoundPorts.RoundPublishes | internal/sandbox/reconcile.go:100-119 | exactly the ports published after a round, over either style of listing: those of sandboxes still saved and of runtime entries not cleaned, or all but those of the removed |
| RoundPolicies.RoundGuards | internal/sandbox/reconcile.go:44-107 | after a round the filter table guards exactly the sandboxes still saved, whoever has the others' addresses now, and accepts no port but theirs |
| RoundPolicies.RoundsGuard | internal/sandbox/reconcile.go:44-107 | the same after any number of rounds |
| RoundOrphans.RoundUnhooksOrphan | internal/sandbox/reconcile.go:208-229 | a runtime sandbox without a saved state whose address can be read has lost its hooks and chains after a round |
| Standstill.RoundsPublish | internal/sandbox/reconcile.go:44-119 | exactly the ports published after any number of rounds |
| Standstill.StillRound | internal/sandbox/reconcile.go:20-122 | a round over a still world leaves all of it as it is, sightings and both tables included |
| Standstill.RoundsStandStill | internal/sandbox/reconcile.go:20-122 | one round after the bound, and from then on, every round leaves the whole world as it is |

## Left out

- HTTP handlers, responses, external address lookup, logging, configuration and shell scripts: plumbing.
- containerd, Firecracker, images, retries, time-outs of single calls and readiness polling: their answers are inputs.
- The JSON file store, lock files and the clock: a map, exclusive locks and an input. Store and lock errors are modelled where the code branches on them; saves and deletions of state files whose error the code discards are taken to succeed.
- Bridge settings, resolv.conf and the network plug-in's cache: any resolver list, any address.
- The hash behind short ids: any function that tells the ids in use apart.
- Non-ASCII whitespace and letter case.
- Tables.RuleTable.AppendUnique: does not check that the target chain of a jump exists, because the code creates it first.
- Sandboxes.Sandbox.constructor: does not keep namespace, bridge name, subnet and the path of the network configuration, which no rule of the phases, ports or containers reads.
- Service.Service.CleanupLeftovers: does not model the removal of leftover containers, shim directories and network cache, because `Service` holds rule tables, saved states and reservations only; leftover containers are in `Reconcile`.
- Service.Service.DeleteRuntimeArtifacts: does not model what stopping a container or the machine does to them, only whether a container resisted; their removal is in `Reconcile`.
- Service.Service.ProvisionSandbox: does not model a background provision that outlives its sandbox's deletion and re-creation and then creates containers of other names beside the new installation, because the request it was started with is no longer the saved one.
- Crashes in the middle of an operation: every started provision or removal is taken to go on.
- Errors of single iptables calls that the code discards, and a filter application that stops half-way: `Lifecycle` takes applying the rules as one step that succeeds, which is proved for tables with the global chains.
- Packets between the two rule changes inside one filter application: verdicts are stated between operations.
- Reconcile.Reconciler.ReconcileOnce: does not model time passing within one round, because the age and grace tests only compare instants.
