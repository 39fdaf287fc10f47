# PortGuard, verified

A Dafny 4.11 model of the algorithms and protocols PortGuard depends on, with proofs.
`dafny verify dfyconfig.toml` checks everything.

PortGuard keeps port mappings in a database, renders them as nginx and HAProxy
configuration, applies that transactionally, reads live configuration back, talks to
remote nodes through a reverse tunnel and limits bandwidth per user. The modules follow
these parts:

| modules | part of PortGuard | main results |
|---|---|---|
| `Lcs`, `DiffScript`, `Hunks`, `UnifiedDiff`, `DiffLayout` | text diff | the script is a shortest one although the common ends are trimmed; printing, reading back and patching gives the new text, and the flipped diff gives the old one back; three lines of context, deletions first |
| `Model`, `Routes`, `HAProxyReading`, `HAProxyRoutes`, `HAProxyNames`, `HAProxyChoice`, `HAProxyBackends`, `NginxRoutes`, `Engines` | route rules | exactly which printed files the engines load; what each does with a request, exactly when that is the longest matching rule, and exactly when both agree |
| `HAProxyRender`, `HAProxyDetails`, `HAProxyParser`, `HAProxyTokens`, `HAProxyBlocks`, `HAProxyRoundTrip`, `HAProxyImport` | HAProxy compiler and importer | print, parse and convert gives the mappings back or reports them; what hand-written sections become |
| `NginxRender`, `NginxDetails`, `NginxParser`, `NginxBlocks`, `NginxGroups`, `NginxServers`, `NginxRoundTrip`, `NginxImport` | nginx compiler and importer | the same, upstream groups, path routes, route rules and stream servers included |
| `AccessLists`, `HAProxyAccess`, `NginxAccess` | access lists | which clients each printed configuration lets in, and when that is what the list says |
| `Import`, `ImportScan` | importing | the name search ends, and all offered names are new |
| `NodeHub`, `NodeProtocol`, `NodeRuns`, `NodeCalls`, `NodeOrder` | reverse tunnel | over every interleaving a response is the answer of the right router to the right request; exactly which runs panic, and exactly how long a connection stays registered; every call to a node with a free connection can be answered |
| `Paths`, `Apply`, `Service`, `Backups` | apply, backup, restore | all or nothing for any order and any fault, and exactly when it is all; backup then restore |
| `Store`, `Sockets` | mapping table and versions | no address and port is taken by two enabled mappings, over every run and in every snapshot; restores can be undone |
| `Ports`, `Connections` | delta synchronisers | the scanned multiset with the fewest changes; first seen is the start of the unbroken streak |
| `Bandwidth`, `RateLimit` | bandwidth limits | when 64 bits are enough; which addresses are limited; the reconcile loop |
| `Text` | Go's string functions | decimal numbers, splitting, trimming |

How it is modelled. A configuration file is a sequence of lines and a line a sequence of
tokens. A loop of the program is a method with a loop, proved equal to a function; a
struct the program updates is a class. Concurrency is a step system in which every
critical section and every channel or socket operation is one step. Reads, writes,
reloads, clocks and map iteration order are parameters, so a statement about all
parameters is one about all faults and orders.

What the proofs brought to light. In these places the code does not do what its
documentation says, or what its neighbour does. Each comes with a concrete input, an
exact condition, or both:

- HAProxy does not serve all route rules by the longest match: redirects come before backends, a path prefix turns away rules beside it, an allow rule ends the rules before a redirect, and rules are looked up by ids that nothing keeps apart (`HAProxyChoice.FollowsLongestIff`, `HAProxyChoice.MixedRulesDisagree`, `HAProxyChoice.PrefixHidesRule`, `HAProxyChoice.AllowSkipsRedirect`, `HAProxyChoice.DisabledRedirectFound`);
- tcp and udp mappings on nginx ignore their access list, which docs/USAGE.md:140 says both engines take, and nginx gives redirects to kept-out clients too (`NginxAccess.StreamHonoursIff`, `NginxAccess.RedirectsSkipTheList`); on HAProxy, clients on the allow list of a mapping that redirects as a whole get nothing (`HAProxyAccess.RedirectServes`);
- an nginx mapping on the address "::", or on none, prints one listen address twice, which nginx refuses (`NginxDetails.ListensTwiceIff`);
- rules with equal ids give two backends of one name, and a path route may be named like a rule's ACL or like the upgrade guards' (`HAProxyBackends.LoadsIff`, `HAProxyBackends.EqualIdsAreRefused`, `HAProxyNames.AclsOnceIff`, `HAProxyChoice.RouteCalledLikeRule`, `HAProxyChoice.RouteCalledUp`);
- where a rule meets a path route or a path prefix, the engines serve the same mapping differently (`Engines.AgreeIff`, `Engines.PathRouteDisagrees`, `Engines.RuleBesideRoute`);
- nginx refuses some mappings that validation accepts: a rule `/`, a rule with several targets, `/ws/` beside `/ws/*`, or whole-site targets together with path routes or a decoy (`NginxRoutes.AcceptsIff`, `NginxRoutes.RootRuleIsRefused`, `NginxRoutes.TwoTargetRuleIsRefused`, `NginxRoutes.WildcardTwinIsRefused`, `NginxRoutes.SiteWithFallbackIsRefused`);
- a path prefix below a route rule, and a path route beside one, take paths from the longest rule (`NginxRoutes.FollowsLongestIff`);
- an nginx mapping with a proxying route rule comes back from an import with the rule's targets in place of its own (`NginxRoundTrip.OwnTargetsComeBackIff`, `NginxRoundTrip.RuleReplacesSite`);
- the nginx importer takes a brace glued to the name of an upstream for a part of the name and loses its targets (`NginxImport.GluedUpstreamIsLost`);
- IPv6 targets do not survive the HAProxy import (`HAProxyTokens.ServerReadsBackIff`); udp streams come back from the nginx import as tcp (`NginxRoundTrip.ProtocolKeptIff`); every HAProxy listen section comes in as tcp, and a frontend whose backend has a capital letter in its name does not come in (`HAProxyImport.ListenImports`, `HAProxyImport.CapitalsAreLostIff`);
- a create request whose body carries the id of a stored row is not checked against that row (`Store.RunKeepsGoodIff`, `Store.CreateSkipsItsOwnId`);
- the rollback of a backup restore leaves files behind that did not exist before (`Apply.CopyBackIff`, `Apply.CopyBackCounterexample`, `Backups.RestoreSafeIff`);
- an apply that fails to write, or finds a binary missing, records no deploy result, although the comment at internal/service/service.go:164 says failed applies are recorded too (`Service.NoResultIff`, `Service.FailedWriteIsNotRecorded`, `Service.MissingBinaryIsNotRecorded`);
- a request that loses the race with its node's disconnection panics, and its id stays pending for good (`NodeRuns.PanicIff`, `NodeProtocol.PanicHappens`, `NodeProtocol.PanicLeaks`);
- some numbers of gigabits wrap around and are accepted as something else (`Bandwidth.GigabitsWrap`);
- policies that limit only the upload are planned and never enforced (`RateLimit.EnforcedIff`);
- reading only nginx.conf, whose mappings are in included files, an import of PortGuard's own nginx finds nothing (`NginxRoundTrip.MainAloneIsEmpty`).

## Model

| member | source | states |
|---|---|---|
| `Lcs.LengthIsUpperBound` | internal/ops/diff.go:143-161 | no common subsequence of two line lists is longer than what the table recursion computes |
| `Lcs.LengthIsAttained` | internal/ops/diff.go:143-161 | some common subsequence has exactly that length |
| `DiffScript.LcsTable` | internal/ops/diff.go:143-161 | entry (i, j) of the table is the LCS length of the tails from i and j |
| `DiffScript.CountPrefix` | internal/ops/diff.go:101-105 | the loop finds the longest common prefix |
| `DiffScript.CountSuffix` | internal/ops/diff.go:106-109 | the loop finds the longest common suffix that does not overlap the prefix |
| `DiffScript.Walk` | internal/ops/diff.go:117-130 | walking the table yields the greedy script of the two middles |
| `DiffScript.DiffOps` | internal/ops/diff.go:99-141 | the program computes the specified edit script |
| `DiffScript.ScriptReplays` | internal/ops/diff.go:99-141 | the eq and del lines of the script are the old text, the eq and ins lines the new one |
| `DiffScript.ScriptIsShortest` | internal/ops/diff.go:99-141 | the number of eq lines is the LCS length of the whole texts, so trimming prefix and suffix loses nothing and no shorter script exists |
| `DiffScript.NoChangesMeansEqual` | internal/ops/diff.go:23-25 | a script without changes means equal texts |
| `DiffScript.EqualMeansNoChanges` | internal/ops/diff.go:23-25 | equal texts give a script without changes |
| `Hunks.GroupsCover` | internal/ops/diff.go:27-52 | hunk windows are ordered, disjoint, and only eq lines lie outside them |
| `Hunks.ChangeInExactlyOneHunk` | internal/ops/diff.go:27-52 | every changed line is in exactly one hunk |
| `Hunks.HunksPatch` | internal/ops/diff.go:44-89 | an independent patch program, given only hunks and old lines, checks every start line and count and produces the new lines |
| `UnifiedDiff.ChangedPositions` | internal/ops/diff.go:17-22 | the collected positions are all the changed ones, ascending |
| `UnifiedDiff.GroupChanges` | internal/ops/diff.go:27-40 | the grouping loop computes the specified windows |
| `UnifiedDiff.CountSides` | internal/ops/diff.go:54-77 | the counting loops give the line counts of both sides |
| `UnifiedDiff.PrintHunks` | internal/ops/diff.go:44-89 | the printing loop emits header, counts and marked lines of every hunk |
| `UnifiedDiff.UnifiedDiff` | internal/ops/diff.go:10-91 | the program prints the hunks of the shortest script of the two texts, CRLF normalised, and nothing when there is no change |
| `UnifiedDiff.DiffThenPatch` | internal/ops/diff.go:10-91 | reading the printed diff back and patching the old text yields the new text |
| `UnifiedDiff.DiffThenUnpatch` | internal/ops/diff.go:10-91 | reading the printed diff back, flipping its signs and patching the new text yields the old one |
| `UnifiedDiff.EmptyIffEqual` | internal/ops/diff.go:23-25 | the output is empty if and only if the texts are equal up to CRLF |
| `UnifiedDiff.CountsAreNeverZero` | internal/ops/diff.go:66-78 | no hunk has an empty side, so the special start line of the format for an empty range never arises |
| `DiffLayout.ScriptDeletionsFirst` | internal/ops/diff.go:117-130 | no inserted line of the script stands directly before a deleted one: where both can go first, the deletion does |
| `DiffLayout.HunkDeletionsFirst` | internal/ops/diff.go:117-130 | in a printed hunk the deleted lines of a change come before the inserted ones |
| `DiffLayout.GroupsTight` | internal/ops/diff.go:27-40 | a group begins and ends with a change, any six ops in a row inside it hold one, and more than six unchanged ones part two groups |
| `DiffLayout.HunkHasThree` | internal/ops/diff.go:44-53 | every printed hunk begins and ends with three unchanged lines, or with all there are, and no six unchanged lines in a row stand between its changes |
| `DiffLayout.LabelsFirst` | internal/ops/diff.go:41-43 | the printed diff starts with the old label after --- and the new one after +++ |
| `Text.AtoiItoa` | internal/proxy/parser.go:352-385 | a printed port number reads back as itself |
| `Text.DecReadsBack` | internal/proxy/parser.go:352-385 | every 64-bit number reads back as printed |
| `Routes.Sink` | internal/proxy/nginx.go:228-230 | the inner loop moves one rule to its place in the sorted prefix |
| `Routes.SortInPlace` | internal/proxy/nginx.go:226-231 | the in-place insertion sort computes the sorted list, stable among equal lengths |
| `Routes.SortedPermutes` | internal/proxy/haproxy.go:187-192 | sorting loses and invents no rule |
| `Routes.SortedDescends` | internal/proxy/haproxy.go:187-192 | prefixes come out longest first |
| `Routes.RenderHaRules` | internal/proxy/haproxy.go:173-205 | the HAProxy directives of the enabled rules, longest prefix first |
| `Routes.LongestIsUnique` | internal/proxy/engine.go:271-315 | validated rules never leave two longest matches for one path |
| `Routes.LongestExists` | internal/proxy/engine.go:271-315 | a path some rule matches has a longest matching rule |
| `HAProxyReading.FrontendRead` | internal/proxy/haproxy.go:79-88 | the printed frontend reads back as exactly these statements, in order: access rules, route rules, path routes, path prefix, default backend |
| `HAProxyRoutes.PatternIsRoute` | internal/proxy/haproxy.go:263-312 | the printed path_reg pattern takes exactly /prefix/port and what is below, for the ports of the range or for any digits |
| `HAProxyRoutes.ServesAsExpected` | internal/proxy/haproxy.go:173-360 | what HAProxy does with every request to a printed frontend whose ACL names are each declared once: access verdict, then redirects longest first, then the 404s of upgrade guards, path routes and path prefix, then the backend of the longest proxying rule, of a path route, or of the mapping |
| `HAProxyNames.AclsOnceIff` | internal/proxy/haproxy.go:173-335 | a frontend declares each ACL once if and only if enabled rules differ in their ids modulo 100000, path routes in their prefixes, and no prefix reads like a tag in use, like up beside upgrade guards, or like path beside a path prefix |
| `HAProxyChoice.RouteCalledLikeRule` | internal/proxy/engine.go:387-430 | a validated path route r1 beside rule 1: one name for two ACLs |
| `HAProxyChoice.RouteCalledUp` | internal/proxy/haproxy.go:276-285 | a validated path route up: its ACL and the one of the upgrade guards have one name |
| `HAProxyChoice.RuleServesIff` | internal/proxy/haproxy.go:173-360 | a request is answered as its longest rule says if and only if the access rules let it through without ending the rules before a redirect and, for a proxy, nothing before it redirects or turns the request away |
| `HAProxyChoice.FollowsLongestIff` | internal/proxy/haproxy.go:170-172 | for every kind of client, HAProxy serves every path by its longest matching rule if and only if each rule is found under its own id and: after an allow rule, no rule redirects; otherwise no redirect shadows a longer proxy, and each proxying rule is under the path prefix, inside a path route where nothing else is served, and clear of the upgrade guards; a refused client is served no rule |
| `HAProxyChoice.DifferentIdsFind` | internal/proxy/haproxy.go:228-245 | rules with pairwise different ids are found under their own |
| `HAProxyChoice.PrefixHidesRule` | internal/proxy/haproxy.go:247-256 | a concrete rule /a beside the path prefix /x, which is answered with a 404 |
| `HAProxyChoice.AllowSkipsRedirect` | internal/proxy/haproxy.go:338-360 | a concrete client on the allow list for whom a redirect rule does nothing |
| `HAProxyChoice.DisabledRedirectFound` | internal/proxy/haproxy.go:228-245 | a concrete disabled redirect that takes the place of an enabled proxying rule with its id |
| `HAProxyBackends.LoadsIff` | internal/proxy/haproxy.go:207-226 | a printed file of validated mappings declares each backend once, and every backend it uses, if and only if in each mapping the enabled rules with targets have ids that differ modulo 100000 |
| `HAProxyBackends.EqualIdsAreRefused` | internal/proxy/engine.go:271-315 | two validated rules without ids: two backends of one name |
| `HAProxyChoice.MixedRulesDisagree` | internal/proxy/haproxy.go:194-203 | two concrete rules, a redirect of / and a proxy of /a, that HAProxy does not serve by the longest match |
| `NginxRender.RenderRouteRules` | internal/proxy/nginx.go:204-262 | the loop with its two builders prints the groups and the locations of the enabled rules, longest prefix first |
| `NginxRoutes.ServingBlocks` | internal/proxy/nginx.go:168-190 | read back as locations, the serving lines hold one per enabled rule, then the path prefix or whole site, then the fallback or decoy |
| `NginxRoutes.AcceptsIff` | internal/proxy/nginx.go:168-262 | nginx loads a printed server block (no upstream inside, no two equal prefix locations) if and only if the mapping redirects as a whole, or every enabled rule redirects or has exactly one target and all printed paths differ: the rules from each other, from the path prefix and from a printed /, and the site and the fallback are not both / |
| `NginxRoutes.RootRuleIsRefused` | internal/proxy/engine.go:271-315 | a validated rule / on a mapping with targets: two location /, which nginx refuses |
| `NginxRoutes.TwoTargetRuleIsRefused` | internal/proxy/nginx.go:243-261 | a validated rule with two targets: an upstream inside a server, which nginx refuses |
| `NginxRoutes.WildcardTwinIsRefused` | internal/proxy/engine.go:271-326 | /ws/ and /ws/* pass validation and are printed as one location |
| `NginxRoutes.SiteWithFallbackIsRefused` | internal/proxy/nginx.go:180-190 | targets without a path prefix, together with path routes or a decoy: two location /, whatever the rules |
| `NginxRoutes.ServesOne` | internal/proxy/nginx.go:168-190 | in a block nginx loads, at most one location serves a path |
| `NginxRoutes.RuleServesIff` | internal/proxy/nginx.go:166-262 | a rule is served the paths it is the longest rule for, except exactly those with a port for a path route and those a longer path prefix takes |
| `NginxRoutes.RestServes` | internal/proxy/nginx.go:174-190 | a path that no rule and no path route matches goes to the path prefix, the whole site, or the fallback or decoy, whichever comes first, or nowhere |
| `NginxRoutes.FollowsLongestIff` | internal/proxy/nginx.go:199-203 | of a block it loads, nginx serves every path by its longest matching rule if and only if no enabled rule lies above the path prefix or shares a path with a path route |
| `NginxRoutes.ServingRuleIsLongest` | internal/proxy/nginx.go:199-203 | a rule whose location serves a path is the longest rule for it |
| `Engines.AgreeIff` | internal/proxy/haproxy.go:173-256 | for a mapping either engine loads, without path routes and access rules, both answer every request alike (a rule, the own targets, or a 404) if and only if each rule is found under its own id, no redirect shadows a longer proxy, and with a path prefix every proxying rule is below it and no rule above it |
| `Engines.PathRouteDisagrees` | internal/proxy/nginx.go:168-173 | where a rule meets a path route the engines differ: nginx prefers the route, HAProxy the rule |
| `Engines.RuleBesideRoute` | internal/proxy/haproxy.go:263-319 | a concrete rule /ws beside a path route ws, loaded by nginx, with the request /ws/80 |
| `Import.UniqueName` | internal/proxy/parser.go:521-531 | the name is free, and is the base name when that is free |
| `Import.FirstFree` | internal/proxy/parser.go:521-531 | the search ends with the least free number: each taken candidate rules out another of finitely many taken names |
| `Import.NumberIsLeast` | internal/proxy/parser.go:521-531 | a taken name gets the least number from 2 on that makes it free |
| `Import.UniqueMappingName` | internal/proxy/parser.go:521-531 | the loop stops, on that name |
| `Import.AddCandidateFresh` | internal/proxy/parser.go:459-460 | adding a candidate keeps all names new and pairwise different |
| `ImportScan.ScanNamesFresh` | internal/api/configimport.go:72-117 | over both importers, offered names are pairwise different, none is stored already, and no offered port is used by an enabled mapping |
| `ImportScan.FilterCollisions` | internal/api/configimport.go:103-115 | the two loops drop exactly the candidates on a port of an enabled mapping and keep the others in order |
| `ImportScan.ScanOffers` | internal/api/configimport.go:72-117 | a candidate whose port no enabled mapping listens on is offered if and only if one of the importers hands it out |
| `HAProxyRender.SortByIdPermutes` | internal/proxy/haproxy.go:37-39 | rendering considers every mapping once |
| `HAProxyRender.SortByIdAscends` | internal/proxy/haproxy.go:37-39 | in id order |
| `HAProxyRender.RenderAccessRules` | internal/proxy/haproxy.go:338-360 | the loop prints the access rules in order, with the closing line of a whitelist; what they let in is HAProxyAccess.TcpEntersIff and HttpEntersIff |
| `HAProxyAccess.TcpEntersIff` | internal/proxy/haproxy.go:338-360 | a printed tcp frontend, its tcp-request lines read first match wins, takes a connection if and only if the first access rule the client is in allows, or it is in none and no rule allows |
| `HAProxyAccess.HttpEntersIff` | internal/proxy/haproxy.go:338-360 | the first http-request rules of a printed http frontend deny exactly the clients the access list keeps out, and those an allow rule admits skip all later rules |
| `HAProxyAccess.RedirectServes` | internal/proxy/haproxy.go:79-84 | a mapping that redirects as a whole redirects exactly the clients no rule names; one on the allow list gets nothing at all |
| `AccessLists.OpenToAllIff` | internal/proxy/haproxy.go:338-360 | an access list lets every client in if and only if it is empty |
| `HAProxyDetails.PrintedIff` | internal/proxy/haproxy.go:66-74 | a mapping is printed if and only if it is enabled and HAProxy's |
| `HAProxyDetails.BackendSays` | internal/proxy/haproxy.go:146-168 | a backend keeps tunnels open exactly for websockets, sets the host header exactly over http, and says mode tcp exactly for tcp |
| `HAProxyDetails.DynPortIsPaths` | internal/proxy/haproxy.go:315-333 | in the dynamic backend a path of a path route meets the condition of that route's own line and of no other, and the line extracts its port |
| `HAProxyRender.RenderServers` | internal/proxy/haproxy.go:146-168 | one server line per target, numbered |
| `HAProxyRender.RenderRouteBackends` | internal/proxy/haproxy.go:209-226 | one backend per enabled rule with targets |
| `HAProxyRender.RenderMain` | internal/proxy/haproxy.go:36-131 | the loop over the sorted mappings prints each rendered one, or fails on one without a certificate |
| `HAProxyRender.RenderDyn` | internal/proxy/haproxy.go:134-144 | one dynamic backend per mapping with path routes |
| `HAProxyRender.Render` | internal/proxy/haproxy.go:36-131 | the whole file, exactly when every https mapping has a certificate |
| `HAProxyParser.RunAppend` | internal/proxy/parser.go:99-280 | the parser state after a text is all it needs for the rest |
| `HAProxyParser.ParseHAProxyConfig` | internal/proxy/parser.go:99-280 | the loop with its section variable computes the state machine |
| `HAProxyParser.HAProxyCfgToMappings` | internal/proxy/parser.go:416-490 | the conversion loops compute the specified candidates and issues |
| `HAProxyParser.ToMappingsFresh` | internal/proxy/parser.go:416-490 | all names a conversion hands out are new and pairwise different |
| `HAProxyImport.ListenRead` | internal/proxy/parser.go:99-280 | parsing a listen section of a bind and any servers adds exactly that section |
| `HAProxyImport.ListenImports` | internal/proxy/parser.go:465-490 | whatever its mode, it comes in as a tcp mapping with the address and port of its bind and every server in order; without servers it is an issue |
| `HAProxyImport.CapitalsAreLostIff` | internal/proxy/parser.go:208-221 | a hand-written frontend with its backend comes in if and only if the backend's name has no capital letter; otherwise it is an issue |
| `HAProxyImport.FirstRuleLeads` | internal/proxy/parser.go:416-462 | a frontend without a default backend comes in with the targets of its first rule's backend, whose name is read as it is |
| `HAProxyImport.BindForms` | internal/proxy/parser.go:282-324 | a bind by port alone, after a bare colon, with a bracketed address, by address alone (port 80), or without anything |
| `HAProxyImport.ServerForms` | internal/proxy/parser.go:352-385 | a server without a port gets port 80; one whose port is no number keeps its whole text as the address |
| `HAProxyTokens.BindReadsBack` | internal/proxy/parser.go:282-324 | a printed bind address reads back as the same address and port, wildcards as 0.0.0.0 |
| `HAProxyTokens.ServerReadsBackIff` | internal/proxy/parser.go:352-385 | a printed server address reads back as its host and port if and only if the host has no colon: IPv6 targets are lost |
| `HAProxyTokens.ServerLineReadsBack` | internal/proxy/parser.go:352-385 | a printed server line reads back with address, port, weight and backup mark |
| `HAProxyBlocks.BackendBodyReadsBack` | internal/proxy/haproxy.go:146-168 | a printed backend reads back with its mode, balance and servers |
| `HAProxyBlocks.BackendBlock` | internal/proxy/haproxy.go:146-168 | parsing a printed backend adds exactly that backend, whatever came before |
| `HAProxyRoundTrip.MappingRun` | internal/proxy/haproxy.go:36-131 | parsing a printed mapping adds its frontend, its extra backends and its main backend, and nothing else |
| `HAProxyRoundTrip.ConfigRun` | internal/proxy/parser.go:99-280 | parsing the whole printed file yields one frontend per rendered mapping and every main backend |
| `HAProxyRoundTrip.MainBackendFound` | internal/proxy/parser.go:492-499 | the backend a frontend names is found under the names of all others |
| `HAProxyRoundTrip.RoundTrip` | internal/proxy/haproxy.go:36-131 | print, parse and convert gives back, in id order, every rendered mapping that has targets and is no http redirect, and one issue for each other one |
| `HAProxyRoundTrip.ReimportContents` | internal/proxy/parser.go:416-490 | what exactly comes back: protocol, address, port, balance and targets with normalised weights, in order, with the issues in order |
| `HAProxyRoundTrip.RecoveredOrReported` | internal/proxy/parser.go:416-490 | every rendered mapping is recovered or reported, none twice |
| `NginxRender.Render` | internal/proxy/nginx.go:53-122 | the three files, exactly when every https mapping has a certificate, and the decoy page; one pass fills the three builders |
| `NginxRender.DecoyFiles` | internal/proxy/nginx.go:318-336 | one page for all: that of the first mapping in id order that asks for one, and none exactly when none does |
| `NginxAccess.HttpEntersIff` | internal/proxy/nginx.go:504-524 | a printed http or https server, its allow and deny lines read first match wins, admits a client if and only if the first access rule it is in allows, or it is in none and no rule allows |
| `NginxAccess.StreamHonoursIff` | internal/proxy/nginx.go:416-444 | a printed tcp or udp server admits everybody, so it honours the access list if and only if that is empty |
| `NginxAccess.RedirectsSkipTheList` | internal/proxy/nginx.go:160-241 | a redirect, of the mapping or of a rule that serves the path, is given to kept-out clients too |
| `NginxAccess.ProxiesKeepTheList` | internal/proxy/nginx.go:204-262 | a rule that proxies is refused to exactly the clients the list keeps out |
| `NginxDetails.ServerSays` | internal/proxy/nginx.go:378-440 | a printed upstream server has the target's address, weight and, over http, its backup mark |
| `NginxDetails.PrintedIff` | internal/proxy/nginx.go:66-122 | a mapping is printed, as an http or a stream server, if and only if it is enabled and nginx's |
| `NginxDetails.ListensTwiceIff` | internal/proxy/nginx.go:124-152 | a printed server names no address twice, which nginx refuses, if and only if it listens neither on "::" nor on no address |
| `NginxDetails.ListenOptions` | internal/proxy/nginx.go:131-152 | every listen line says ssl exactly for https, and http2 exactly for https with it |
| `NginxDetails.PathRouteLeads` | internal/proxy/nginx.go:446-496 | a path route leads to the port of its path on the first target, or on this host, and first asks for an upgrade unless it is xhttp |
| `NginxDetails.IncludesAreLive` | internal/proxy/nginx.go:53-122 | the printed main file includes the two other files at the paths they are written to |
| `NginxDetails.DecoyIsServed` | internal/proxy/nginx.go:297-336 | the decoy page is written where the printed fallback looks for it |
| `NginxDetails.DecoyIsNeeded` | internal/proxy/nginx.go:297-336 | the decoy page is written if and only if the fallback of some printed mapping looks for it |
| `NginxDetails.DecoyIsOfFirst` | internal/proxy/nginx.go:318-336 | it is the page the first such mapping asks for |
| `NginxParser.RunAppend` | internal/proxy/nginxparser.go:40-200 | the parser state after a text is all it needs for the rest |
| `NginxParser.ParseNginxConfig` | internal/proxy/nginxparser.go:40-200 | the loop with its five local variables computes the state machine |
| `NginxParser.FindProxy` | internal/proxy/nginxparser.go:250-266 | the location loop finds the first location that resolves |
| `NginxParser.NginxSitesToMappings` | internal/proxy/nginxparser.go:225-297 | the conversion loops compute the specified candidates and issues |
| `NginxParser.ToMappingsFresh` | internal/proxy/nginxparser.go:225-297 | all names a conversion hands out are new and pairwise different |
| `NginxImport.SiteImports` | internal/proxy/nginxparser.go:40-297 | a hand-written reverse proxy (any form of listen address and options, a prefix, regular expression or modified location, http or https with any path behind the target) comes in as one disabled mapping with its port, protocol, names, target and path prefix, under the first free name; one whose names say "portguard" does not |
| `NginxImport.GluedUpstreamIsLost` | internal/proxy/nginxparser.go:69-86 | a brace glued to the name of an upstream block becomes part of the name, and what proxies to that upstream leads nowhere |
| `NginxImport.RedirectImports` | internal/proxy/nginxparser.go:184-187 | a server that redirects comes in as a mapping that does, with nothing to report |
| `NginxImport.EmptyIsSkippedIff` | internal/proxy/nginxparser.go:229-276 | a server without locations is left out if and only if it is the default server and has no name; it is reported either way |
| `NginxImport.StreamImports` | internal/proxy/nginxparser.go:277-297 | a stream server comes in as one disabled tcp mapping with its port and its target |
| `NginxBlocks.ListenReadsBack` | internal/proxy/nginx.go:555-563 | every printed listen address, IPv6 and wildcards included, reads back as its port |
| `NginxBlocks.HostPortReadsBack` | internal/proxy/nginxparser.go:322-334 | a printed target reads back as host and port, IPv6 hosts included |
| `NginxBlocks.UpstreamRun` | internal/proxy/nginx.go:378-414 | parsing a printed upstream block records exactly its servers |
| `NginxBlocks.LocationRun` | internal/proxy/nginxparser.go:105-123 | parsing a location block adds one location with what its lines say |
| `NginxServers.RouteRulesRun` | internal/proxy/nginx.go:204-262 | parsing the printed route rules adds one location per enabled rule and one group per rule that needs one |
| `NginxServers.HttpServerRun` | internal/proxy/nginx.go:124-198 | parsing a printed server block adds exactly its server (port, TLS, names, redirect or locations) and the groups of its rules |
| `NginxGroups.GroupListDistinct` | internal/proxy/nginx.go:378-414 | no two upstream groups of a configuration share a name, over http, rule and stream groups |
| `NginxGroups.FindsGroup` | internal/proxy/nginxparser.go:301-320 | every group of a mapping or of its rules is found among all groups with exactly its targets |
| `NginxGroups.FindsNoGroup` | internal/proxy/nginxparser.go:301-320 | a mapping without a group of its own finds none under its name |
| `NginxRoundTrip.FirstProxyFor` | internal/proxy/nginxparser.go:250-266 | path-route and fallback locations and redirecting rules lead nowhere, so what is found is the first proxying rule or, without one, the mapping's own site |
| `NginxServers.StreamServersRun` | internal/proxy/nginx.go:416-440 | parsing the printed stream block yields one server and one group per stream mapping |
| `NginxServers.ConfigRun` | internal/proxy/nginxparser.go:40-200 | parsing the whole configuration yields every http server, every stream server and all groups |
| `NginxRoundTrip.RoundTrip` | internal/proxy/nginx.go:53-117 | with the includes expanded, print, parse and convert gives back every rendered mapping, with or without route rules, the http ones in id order and then the stream ones |
| `NginxRoundTrip.RoundTripContents` | internal/proxy/nginxparser.go:225-297 | what exactly comes back: port, protocol, server names, redirect, the targets and prefix of the first proxying rule or else the mapping's own; incomplete ones are also reported; names are fresh |
| `NginxRoundTrip.OwnTargetsComeBackIff` | internal/proxy/nginxparser.go:250-266 | of a block nginx loads, the mapping's own targets and prefix come back if and only if no enabled rule proxies and there are targets, or no prefix, to keep |
| `NginxRoundTrip.LongestProxyComesBack` | internal/proxy/nginxparser.go:250-266 | otherwise an enabled proxying rule with the longest prefix takes their place |
| `NginxRoundTrip.RuleReplacesSite` | internal/proxy/nginxparser.go:250-266 | a concrete rule /api whose targets and prefix come back in place of the whole site |
| `NginxRoundTrip.ProtocolKeptIff` | internal/proxy/nginxparser.go:277-297 | printed, parsed and converted, a mapping keeps its protocol if and only if that is not udp, which comes back as tcp |
| `NginxRoundTrip.MainAloneIsEmpty` | internal/proxy/nginxparser.go:40-200 | without its includes, the written nginx.conf holds nothing to import |
| `NodeHub.Hub.Register` | internal/nodehub/hub.go:129-139 | the new connection is registered and reported, the replaced one closed and not unregistered |
| `NodeHub.Hub.Unregister` | internal/nodehub/hub.go:141-151 | only the registered connection takes its node offline; the send channel is closed in either case |
| `NodeHub.Hub.Allocate` | internal/nodehub/hub.go:161-166 | an id above all before it and not pending, now pending for its caller |
| `NodeHub.Hub.Forget` | internal/nodehub/hub.go:188-195 | the id is no longer pending, nothing else changes |
| `NodeHub.Conn.Close` | internal/nodehub/hub.go:291-300 | the socket is closed once; a second call closes nothing |
| `NodeProtocol.RegisterKeeps` | internal/nodehub/hub.go:129-139 | registering keeps every invariant |
| `NodeProtocol.UnregisterKeeps` | internal/nodehub/hub.go:141-151 | unregistering keeps every invariant |
| `NodeProtocol.EnqueueKeeps` | internal/nodehub/hub.go:175-182 | sending a frame, or panicking on a closed channel, keeps every invariant |
| `NodeProtocol.HandleKeeps` | internal/nodeagent/agent.go:193-228 | an agent running a request through its router keeps every invariant |
| `NodeProtocol.ReadKeeps` | internal/nodehub/hub.go:232-240 | looking a reply up keeps every invariant |
| `NodeProtocol.PushKeeps` | internal/nodehub/hub.go:240-243 | passing a reply on, or dropping it on a full channel, keeps every invariant |
| `NodeProtocol.StepKeepsInv` | internal/nodehub/hub.go:129-247 | every step of callers, readers, writers and agents keeps the invariant |
| `NodeProtocol.RunKeepsInv` | internal/nodehub/hub.go:129-247 | so does every run, in any interleaving |
| `NodeProtocol.ResponsesAreOwn` | internal/nodehub/hub.go:153-196 | a Request that returns a response returns what its own node's router said to exactly its own method, body and path: unchanged where it begins with a slash, otherwise with one put before it |
| `NodeProtocol.HandledAtMostOnce` | internal/nodeagent/agent.go:158-228 | no frame reaches a router twice, and every router call is for the node, method, path and body of a request some call has sent |
| `NodeCalls.CallCanBeAnswered` | internal/nodehub/hub.go:153-196 | from every reachable state in which the node's connection is free, for every request and every answer of the router, a run exists in which the router is asked once, for exactly that request, the call returns that answer, and nothing stays pending |
| `NodeOrder.NoOvertaking` | internal/nodehub/hub.go:262-276 | over every run, of two frames in one send channel or on one socket the later one leaves only after the earlier one has left or is lost |
| `NodeOrder.SendChannelHoldsSixteen` | internal/nodehub/hub.go:115-182 | over every run at most sixteen frames wait for a connection, and a call waits with its frame exactly while there are sixteen and the channel is open |
| `NodeCalls.OfflineFails` | internal/nodehub/hub.go:153-159 | a call to a node that is not connected fails at once and changes nothing else |
| `NodeCalls.SendTimesOut` | internal/nodehub/hub.go:175-196 | a call whose frame is not sent in time fails as such and its id is dropped |
| `NodeCalls.RequestTimesOut` | internal/nodehub/hub.go:183-196 | a call that is not answered in time fails as such and its id is dropped, wherever its frame is |
| `NodeProtocol.IdsNeverReused` | internal/nodehub/hub.go:161-166 | two calls never share an id |
| `NodeProtocol.PendingIsWaiting` | internal/nodehub/hub.go:232-247 | pending holds only calls that wait or panicked, and calls whose reply a reader passed on and has yet to drop |
| `NodeProtocol.RegistryIsTruth` | internal/nodehub/hub.go:129-151 | a node is registered exactly when it was last reported online; its connection is its own; every open connection is the registered one |
| `NodeRuns.RegisteredIff` | internal/nodehub/hub.go:129-151 | over every run, a registered connection stays the registered one if and only if its node does not register again and it is not unregistered itself; exits of others, replaced ones included, change nothing |
| `NodeRuns.ExitOfReplaced` | internal/nodehub/hub.go:141-159 | through such a run the node stays reported online and every lookup for it finds that connection |
| `NodeProtocol.PanicMeansUnregistered` | internal/nodehub/hub.go:175-177 | a call panics only after its connection was unregistered |
| `NodeRuns.PanicIff` | internal/nodehub/hub.go:150-182 | over every run, a call has panicked if and only if it sends its frame after the connection its lookup found was unregistered |
| `NodeProtocol.PanicHappens` | internal/nodehub/hub.go:150-177 | a concrete run that panics: the node goes away between lookup and send |
| `NodeProtocol.PanicLeaks` | internal/nodehub/hub.go:161-182 | the id of a call that panicked stays pending in every later state |
| `Paths.LiveOfStaged` | internal/proxy/nginx.go:27-51 | a live path that is recognised is written back to itself, whatever the configured paths |
| `Paths.StagedOfLiveIff` | internal/proxy/nginx.go:27-51 | every staged nginx file is recognised by its live path if and only if the four live paths differ |
| `Paths.LivePathsDiffer` | internal/proxy/nginx.go:27-36 | two staged files never land on one live path when the configured paths differ |
| `Paths.RelLiveInverse` | internal/service/backups.go:40-42 | the path below a backup folder names the live file |
| `Apply.WriteAllContents` | internal/service/service.go:246-256 | with one file per path every file ends with its own content |
| `Apply.WriteAllOldOrNew` | internal/service/service.go:246-256 | after each write every file is old or new |
| `Apply.BackupAt` | internal/service/service.go:346-364 | a backup folder holds exactly the live files that existed, over what it held before |
| `Apply.RollbackRestores` | internal/service/service.go:230-245 | undoing any number of writes gives the disk back, new files removed; only files whose copy failed may differ |
| `Apply.CopyBackIff` | internal/service/backups.go:199-204 | the rollback of a restore gives the disk back if and only if every file it had written existed before |
| `Apply.CopyBackCounterexample` | internal/service/backups.go:199-204 | one new file is enough for that rollback to leave it behind |
| `Service.StagedOncePerPath` | internal/service/service.go:178-206 | whatever the engine order, an apply writes each live path once when no two coincide |
| `Service.SuccessLeavesRendered` | internal/service/service.go:246-280 | a successful apply leaves every file of every installed engine with its rendered content |
| `Service.StagesIff` | internal/service/service.go:178-206 | an apply gets past staging if and only if every engine of the order has its binary, renders and accepts its files, or is missing while no enabled mapping needs it |
| `Service.RefusedIff` | internal/service/service.go:178-206 | otherwise it fails without a backup or a file, and the first such engine decides the recorded result: none for a missing binary, or the literal render or validate error |
| `Service.SucceedsIff` | internal/service/service.go:151-280 | an apply succeeds if and only if every engine can be staged, certificates are written, every live path is copied, every write goes through and every installed engine reloads |
| `Service.ResultSays` | internal/service/service.go:207-271 | the literal result of every other failure: certificates, backup, nothing for a failed write, and the rollback naming the first installed engine of the order that does not reload |
| `Service.PrunedIsNewest` | internal/service/service.go:288-308 | twenty folders stay, the newest, as they were |
| `Service.ResultOkIff` | internal/service/service.go:151-280 | the recorded deploy result is "ok" if and only if nothing failed |
| `Service.NoResultIff` | internal/service/service.go:164-256 | an apply leaves no result if and only if the first engine that refuses is one whose binary is missing and which has enabled mappings, or staging, certificates and backup pass and some write fails |
| `Service.RowStaysEmptyIff` | internal/service/service.go:164-168 | the version row stays without a result in exactly those cases, although the apply failed |
| `Service.FailedWriteIsNotRecorded` | internal/service/service.go:164-168 | a concrete apply on a full disk that fails and is not recorded |
| `Service.MissingBinaryIsNotRecorded` | internal/service/service.go:180-186 | an apply with nginx missing and a mapping that needs it fails and is not recorded |
| `Service.NewestAreNewest` | internal/service/service.go:288-308 | pruning keeps as many folders as it may, each newer than all it removes |
| `Service.PruneKeepsLatest` | internal/service/service.go:288-308 | the folder of the current apply survives pruning |
| `Service.Service.BackupFiles` | internal/service/service.go:346-364 | the folder gains copies of the existing files; other folders are untouched |
| `Service.Service.RestoreFiles` | internal/service/service.go:230-245 | the restore closure undoes each applied path |
| `Service.Service.StageAll` | internal/service/service.go:178-206 | staging stops at the first engine that cannot be staged, in map order; which that is, is Service.RefusedIff |
| `Service.Service.WriteFiles` | internal/service/service.go:246-256 | all files written, or those written before the failure undone; every step old or new |
| `Service.Service.ReloadAll` | internal/service/service.go:258-271 | the first engine whose reload fails, if any |
| `Service.Service.Commit` | internal/service/service.go:230-271 | write and reload everything, or put everything back |
| `Service.Service.ApplyAll` | internal/service/service.go:151-280 | all or nothing for any engine order and any fault: success exactly when nothing fails, otherwise every file as it was; each file old or new at every write; the version row gets the outcome, and nothing for a missing binary or a failed write; the backup folder is complete, and after a success the newest twenty stay; when an engine cannot be staged, disk and backups are untouched |
| `Backups.ClassifyFinds` | internal/service/backups.go:87-94 | a path is classified exactly when some engine knows it, and is written back to itself |
| `Backups.RestoreWrites` | internal/service/backups.go:137-216 | a restore gives every known file of the folder the folder's content and touches nothing outside it |
| `Backups.BackupThenRestore` | internal/service/backups.go:131-229 | restoring the folder of an apply gives every managed file that existed then its content of then, whatever happened since |
| `Backups.RestoreRollbackIff` | internal/service/backups.go:199-229 | a failed restore leaves the disk as it was if and only if every file it had written was already there |
| `Backups.RestoreSafeIff` | internal/service/backups.go:131-229 | the rollback is exact under every fault of writes and reloads if and only if every known file of the folder is on the disk before the call |
| `Backups.CollectFiles` | internal/service/backups.go:143-170 | the walk collects the known files, or fails on one it cannot read |
| `Backups.Restore` | internal/service/backups.go:131-229 | the program: success exactly when nothing fails; after a failure the disk is as specified |
| `Store.CreateKeepsExclusiveIff` | internal/api/handlers.go:234-260 | an accepted create keeps the table free of listen conflicts if and only if its body does not carry the id of a stored row it clashes with |
| `Store.CreateSkipsItsOwnId` | internal/proxy/engine.go:237-247 | a concrete create, with the id of row 1 in its body, that is accepted beside row 1 on the same port |
| `Store.UpdateKeepsGood` | internal/api/handlers.go:262-292 | an accepted update keeps tables and snapshots free of conflicts |
| `Store.AddAllKeepsGood` | internal/api/ops.go:342-363 | both import loops keep tables and snapshots free of conflicts |
| `Store.RestoreKeepsGood` | internal/api/versions.go:135-185 | restoring a snapshot, even when it stops midway, keeps tables and snapshots free of conflicts |
| `Store.StepKeepsGoodIff` | internal/proxy/engine.go:237-267 | every handler keeps tables and snapshots free of conflicts, except exactly an accepted create with the id of a stored row it clashes with |
| `Store.RunKeepsGoodIff` | internal/proxy/engine.go:237-267 | over every run, no two enabled mappings, stored or in a stored snapshot, ever overlap on a port if and only if no accepted create carries the id of a stored row it clashes with |
| `Sockets.ClashIff` | internal/proxy/engine.go:237-267 | two rows clash if and only if both are enabled and some address and port is taken by both, where "", "*", "0.0.0.0" and "::" take every address and any other listen address itself |
| `Sockets.RunOwnsOnceIff` | internal/proxy/engine.go:237-267 | over every run, no address and port is ever taken by two enabled mappings, stored or in a stored snapshot, if and only if no accepted create carries the id of a stored row it clashes with |
| `Sockets.WildcardTakesAll` | internal/proxy/engine.go:244-267 | beside an enabled row on a wildcard address, no create on its port is accepted, whatever its address |
| `Sockets.CreateHandler` | internal/api/handlers.go:234-260 | a create adds its row, under a new id, if and only if its own checks pass and no row with another id takes an address and port it takes |
| `Sockets.UpdateHandler` | internal/api/handlers.go:262-292 | an update replaces the row of its id in place if and only if its own checks pass and its addresses are free beside the other rows |
| `Sockets.ImportStep` | internal/api/ops.go:342-363 | an import adds an entry if and only if its name is new, its checks pass and its addresses are free when its turn comes, and counts it as skipped when the name is taken; a confirmed scan does not look at names |
| `Sockets.DeleteHandler` | internal/api/handlers.go:308-321 | a delete removes exactly the rows with its id, and nothing without an id |
| `Store.CreateVersionNumbered` | internal/store/store.go:292-317 | the n+1st version is numbered n+1 and the last min(n+1, 50) stay |
| `Store.RunKeepsNumbered` | internal/store/store.go:292-317 | over every run the stored numbers are the last min(n, 50) of 1..n |
| `Store.RestoreContents` | internal/api/versions.go:157-182 | a restore leaves exactly the snapshot, up to ids |
| `Store.RestoreIsRestorable` | internal/api/versions.go:135-185 | restoring a version and then the snapshot taken before it gives back mappings and relays as multisets, up to ids |
| `Store.Panel.Clashes` | internal/proxy/engine.go:240-248 | the conflict loop decides whether another enabled row overlaps |
| `Store.Panel.HandleCreate` | internal/api/handlers.go:234-260 | the row is added under a new id exactly when the checks pass |
| `Store.Panel.HandleUpdate` | internal/api/handlers.go:262-292 | the row is replaced exactly when the checks pass |
| `Store.Panel.HandleImport` | internal/api/ops.go:324-369 | each entry is checked against the store and all it has added, which the growing copy mirrors; the counters agree with the table, and exactly the entries with a taken listen address are skipped by name |
| `Store.Panel.HandleConfirm` | internal/api/configimport.go:26-67 | the same for picked candidates, by conflict only |
| `Store.Panel.CreateConfigVersion` | internal/store/store.go:292-317 | with n versions stored so far the new one is numbered n+1 and comes last, the last min(n+1, 50) stay, and nothing else changes |
| `Store.Panel.HandleRestoreVersion` | internal/api/versions.go:135-185 | the loops that delete and re-create rows leave the specified tables |
| `Ports.ReplacedIsSnapshot` | internal/store/mappings.go:80-157 | the table ends with exactly the scanned entries, duplicates included |
| `Ports.KeptIsMeet` | internal/store/mappings.go:106-121 | of every entry as many rows stay as both the table and the scan have |
| `Ports.KeptRows` | internal/store/mappings.go:106-121 | rows that stay keep their ids |
| `Ports.Traffic` | internal/store/mappings.go:80-157 | how many rows are deleted and inserted |
| `Ports.KeptIsMost` | internal/store/mappings.go:80-157 | no way of reaching the scanned entries deletes or inserts fewer rows |
| `Ports.DeletesLeaveReplaced` | internal/store/mappings.go:146-155 | deleting by id after inserting removes the dropped rows and no others |
| `Ports.PortTable.Match` | internal/store/mappings.go:106-121 | the scan over the table splits it into rows to keep and ids to delete, and leaves the copies still missing |
| `Ports.PortTable.ReplacePorts` | internal/store/mappings.go:80-157 | the program leaves the specified table |
| `Connections.InfoIsLast` | internal/store/mappings.go:257-265 | a row says what the last entry of the sample for its tuple says |
| `Connections.StreakIsUnbroken` | internal/store/mappings.go:213-279 | what the start of a streak is |
| `Connections.RunRemembersStreaks` | internal/store/mappings.go:213-279 | over every run the keys are those of the last sample, last seen then and first seen at the start of their unbroken streak |
| `Connections.ConnTable.ReplaceConnections` | internal/store/mappings.go:213-279 | upserting and then deleting what vanished leaves the specified table |
| `Bandwidth.ParsesAsMeantIff` | internal/ratelimit/ratelimit.go:35-71 | a text is read as what it means if and only if its product does not wrap around 64 bits into the accepted range |
| `Bandwidth.SmallUnitsExact` | internal/ratelimit/ratelimit.go:59-70 | bps, kbps, mbps, kb and mb are always read as meant |
| `Bandwidth.NumberAndUnit` | internal/ratelimit/ratelimit.go:42-70 | a number and a unit are read as that many times the bits of the unit, spelled out for each, up to 2 to the 40th, and refused above that while 64 bits are enough |
| `Bandwidth.SpaceAndCase` | internal/ratelimit/ratelimit.go:35-41 | space around a text is dropped and its case does not matter |
| `Bandwidth.GigaUnitsExact` | internal/ratelimit/ratelimit.go:42-70 | gbps up to 9223372036 and gb up to 1152921504 are read as meant |
| `Bandwidth.GigabitsWrap` | internal/ratelimit/ratelimit.go:59-70 | 18446744074gbps is accepted as 290448384 bits |
| `Bandwidth.FormatThenParse` | internal/ratelimit/ratelimit.go:74-88 | printing and reading back is exact below 1000 and otherwise drops the number modulo 1000 |
| `RateLimit.EnforcedIff` | internal/api/ratelimit.go:515-540 | an address is limited if and only if it is valid and some enabled policy of the node limits the download of a user last seen there: upload-only policies are planned and never enforced |
| `RateLimit.PlannedIff` | internal/api/ratelimit.go:515-540 | a policy is planned if and only if it is enabled for the node, limits the download or the upload, and its user has been seen |
| `RateLimit.DesiredAt` | internal/ratelimit/applier.go:150-160 | which addresses a plan asks to limit |
| `RateLimit.DesiredIsLast` | internal/ratelimit/applier.go:150-160 | of the enforceable rules of an address the last one counts |
| `RateLimit.EnforcedRates` | internal/api/ratelimit.go:515-540 | a limited address gets both rates of one policy that limits it, under the name of its user |
| `RateLimit.InterfaceChange` | internal/ratelimit/applier.go:137-149 | after the interface has changed everything is applied afresh and nothing removed; otherwise the loop goes on from what is saved |
| `RateLimit.QuadIsValid` | internal/ratelimit/applier.go:107-119 | every dotted quad passes the address check |
| `RateLimit.DiffIsExact` | internal/ratelimit/ratelimit.go:154-177 | the three sets are disjoint, turn the current limits into the desired ones, and every change in them is necessary |
| `RateLimit.NothingLeft` | internal/ratelimit/ratelimit.go:154-177 | after carrying them out there is no difference |
| `RateLimit.Diff` | internal/ratelimit/ratelimit.go:154-177 | the program returns exactly the three sets, each rule once |
| `RateLimit.Applier.RemoveVanished` | internal/ratelimit/applier.go:162-168 | one remove per address that vanished |
| `RateLimit.Applier.ApplyMissing` | internal/ratelimit/applier.go:169-178 | one apply per address that is new or has new limits, up to a refusal |
| `RateLimit.Applier.ApplyPlan` | internal/ratelimit/applier.go:137-184 | the steps are those of the difference, each once; the persisted state is the plan's limits on success and unchanged after any failure |
| `RateLimit.RepeatIsSilent` | internal/ratelimit/applier.go:134-184 | repeating an applied plan asks for nothing |

## Left out

- Escaping, Unicode checks and regular expressions inside configuration: user texts are taken to be plain tokens.
- Fields the parsers keep only for display: ACL texts, rule conditions, raw lines, unknown sections.
- HAProxyRoundTrip.RoundTrip: shuts out target hosts with a colon, which `HAProxyTokens.ServerReadsBackIff` shows cannot come back; certificate paths and hosts are single tokens.
- NginxRoundTrip.RoundTrip: for mappings whose route rules have distinct ids and whose server names do not contain "portguard", which the importer filters out; weights, backup marks, balance and listen address are not read back by the program.
- Engines.AgreeIff: for mappings with targets and no path routes and no access rules; `Engines.PathRouteDisagrees` says what path routes do, and nginx's access rules, which end no route, are not compared with HAProxy's.
- HAProxyChoice.FollowsLongestIff: for frontends that declare each ACL once, which `HAProxyNames.AclsOnceIff` characterises; a path is any string, and which configured source ranges a client is in is part of the request.
- NginxAccess.HttpEntersIff: what a directive of nginx does is the reader's own: allow and deny are read in order, returns come before them, and a location inherits them; which client addresses lie in a configured range is a parameter.
- HAProxyAccess.TcpEntersIff: likewise, the source ranges that hold the client are a parameter.
- HAProxyBackends.LoadsIff: HAProxy has other reasons to refuse a file, such as a certificate that is missing on disk.
- NginxRoutes.AcceptsIff: nginx has other reasons to refuse a file, such as a host name that does not resolve, which depend on more than the block's own structure.
- NginxRoutes.RuleServesIff: nginx's own redirect of `/ws` to `/ws/` where only `/ws/` proxies, and its decoding of request paths, happen before or after the choice and are not modelled.
- NodeProtocol.ResponsesAreOwn: agents answer only frames they received; one hub lifetime.
- The order of extra headers: a map in the program, a sequence in the model.
- The checks of a mapping's own fields in `ValidateMapping` are a parameter of each request; the listen conflict check is modelled.
- Failing database statements, except a failing insertion during a version restore; transactions take effect as a whole or not at all.
- Timestamps of rows, and the JSON form of snapshots and frames: values are stored and sent as they are.
- Certificate files are written before the backup and are outside the rollback.
- Validation and reload of the engines, binary checks, and all kernel state behind the bandwidth limits: parameters that succeed or fail.
- The hub's pings, hello and status messages, and read limits; replies on one connection may overtake each other in the model, requests may not.
- Request ids are unbounded integers; the program's are 64 bits wide.
- Frames an agent cannot decode, and methods or paths the agent's HTTP library rejects.
- The agent's own connection state and reconnect back-off: a reply may leave over any connection, or be lost.
- Backup folders are named by their second; two applies in one second share a folder, which the model allows.
- Directory creation, temporary files and permissions of atomic writes: a write happens or does not.
- The login attempt window, the xray bridge builder, metric downsampling, health bookkeeping and the number forms of request parameters: each would only add easy members.
- Discovery, scanning of sockets, alerts, templates, certificates issuing, the HTTP layer and the user interface.
- The relay handler's own checks, its port comparison among them: a relay it refuses is no step.
