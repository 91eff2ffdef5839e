# sshsocks, verified

sshsocks keeps a chain of SSH connections alive and offers SOCKS5 and HTTP proxies over it. This project models its
core in Dafny and proves what the program promises. `dafny verify dfyconfig.toml` checks all of it.

## What is modelled

**The tunnel** (`Tunnel*.dfy`). `TunnelModel` is an interleaved state machine: the start-up call, the `maintain`
goroutine, the accept loop, any number of connection handlers with their requests in `waitClient` and `dial`, and any
number of `Stop` and `Reconnect` callers. Every lock section, channel operation and select arm is one step.
`TunnelInvariants`, `TunnelRequests`, `TunnelLedger`, `TunnelBackoff` and `TunnelNotices` prove what each step keeps;
`TunnelTheorems` states the promises for every reachable state; `TunnelShutdown` shows that `Stop` can always return;
`TunnelLimits` shows where a request does sit out a wait. `TunnelRecord` is the mutable side: the mutex-guarded record
with its close-and-replace channel, the dialling and closing of a chain, and the notices of the app. Its methods are
proved to have the effects that the state machine uses.

**Host keys** (`Glob.dfy`, `KnownHosts.dfy`). The one-backtrack wildcard loop against the declarative meaning of a
pattern, host matching, lookup, and the file that grows by one line the first time a host is seen.

**The configuration language** (`Config*.dfy`, `Fingerprint.dfy`). `ConfigModel` gives every line and every file a
meaning; `ConfigParser` has the loops of the source, proved to compute it. `ConfigWellFormed` says what every accepted
file satisfies, `ConfigBlocks` that the order of the blocks is irrelevant, and `ConfigPrinter`, `ConfigOptions` and
`ConfigRoundTrip` that a written configuration reads back (`ConfigRoundTrip.RoundTripApplies` exhibits an instance with
quotes, spaces and a `#` in a password). `Fingerprint` has a reader for fingerprints.

**The proxy port** (`BufReader.dfy`, `Http*.dfy`, `Socks*.dfy`, `Relay.dfy`, `Connection.dfy`). The buffered reader over
a stream that arrives in arbitrary segments, HTTP head reading and rewriting, SOCKS5 (RFC 1928, RFC 1929), and the relay
as two copy loops interleaved with the goroutine that waits for them. `Connection` joins them, from a connection's first
byte to the last one relayed.

**Reload** (`Reload.dfy`). The list of tunnels, the ports they hold, and how a new configuration changes both.

**System proxy** (`SysProxy.dfy`). Saving and restoring the settings, with a crash allowed before every single write.

`Basics.dfy` and `Text.dfy` hold what they share: small datatypes, and the parts of Go's `strings`, `strconv` and `net`
in use.

## Where the code does not do what one might expect

- `wildcardMatch` compares characters before it looks for `*`, so a `*` in the subject can be consumed literally. It is
  sound for every subject, and agrees with the meaning of every pattern exactly when the subject has no `*`
  (`Glob.ExactlyWithoutStars`; `Glob.Incompleteness` gives the failing pattern for each other subject).
- The comment at `tunnel.go:316` says that a request need not sit out the retry interval. That holds in state Failed;
  after a connection that was lost too soon, `maintain` waits in state Connecting and nothing cuts that wait short
  (`TunnelLimits.WaitIsCutShortWhenFailed`).
- `releaseSystemProxy` keeps the restore guarantee exactly when the live settings are the user's or point to the address
  it is given (`SysProxy.Machine.ReleaseSystemProxy`); otherwise the record is deleted while this program's settings are
  live (`SysProxy.StaleRelease`: switched to a second port, released with the first).
- Forwarding a forwarded request again gives identical bytes exactly when the request named its host, or the authority of
  its target does not end in a carriage return (`HttpAgain.ForwardAgain`; `HttpServe.CarriageReturnInTarget` for a
  request that does).
- An address is mistaken for an option exactly when its user already looks like one (`ConfigOptions.AddressIsPlain`), such
  as `key=x@host` (`ConfigOptions.AddressTakenForOption`).

## Assumptions on libraries

- `net.ParseIP` is a predicate `isIP` with `ConfigWellFormed.IPSyntax`: its alphabet, that a colon never comes alone, and
  that it accepts `0.0.0.0` and `127.0.0.1`.
- `ssh.ParseKnownHosts` reads a printed line back as its host and key, for host names without white space or pattern
  syntax and for genuine keys (those the SSH library has parsed), and nothing from an empty line
  (`KnownHosts.PrintedLinesParse`, met by the library of `KnownHosts.PrintedLinesCanParse`); the salted-hash comparison,
  key encoding and lower-casing of host names are arbitrary.
- Base64 decoding, `net.IP.String` and `strconv.IsPrint` are arbitrary functions.
- A read of a connection that succeeds returns at least one byte.

## Model

| member | source | states |
|---|---|---|
| TunnelTheorems.ReachableIsOk | tunnel.go:88-231 | every invariant of the tunnel holds in every state reachable by any interleaving |
| TunnelTheorems.NoLostWakeup | tunnel.go:302-329 | a request blocked in waitClient either has a closed channel and can go on, or holds exactly the current status; and if that is Failed and maintain is in its wait, the retry slot is full |
| TunnelLimits.WaitIsCutShortWhenFailed | tunnel.go:217-230 | for chains of any length: of the two states in which maintain waits, Failed guarantees every blocked request its retry token and Connecting does not |
| TunnelTheorems.WaitClientReturns | tunnel.go:302-329 | waitClient returns exactly one of client and error; the client was published after the call began, and a connection failure strictly after it began |
| TunnelTheorems.PublishedStatuses | tunnel.go:162-175 | every Failed ever published has an error, and a client is published exactly in Connected |
| TunnelTheorems.ClientsAreAccountedFor | tunnel.go:193-231 | the open SSH clients are exactly those maintain holds, all of one dial; no client is closed twice, and a chain is closed from the exit backwards |
| TunnelTheorems.NothingOpenAfterReturn | tunnel.go:193-222 | nothing is open when maintain has returned, waits or is about to dial, whichever way it got there |
| TunnelTheorems.PublishedClientIsOpen | tunnel.go:213-220 | a published client is the exit of a complete open chain, so it is unpublished before it is closed |
| TunnelTheorems.WaitGroupCounts | proxy.go:26-44 | the WaitGroup always equals the number of live goroutines and is raised only while positive, or by Start |
| TunnelTheorems.SweptConnectionsAreClosed | tunnel.go:331-344 | past Stop's lock section every tracked connection is closed and no step tracks another |
| TunnelTheorems.StopReachesRest | tunnel.go:105-118 | when Stop returns, all goroutines are gone, no connection is tracked and the status is Stopped; and that stays so along every further run |
| TunnelShutdown.StopCanAlwaysReturn | tunnel.go:105-118 | from every reachable state in which a Stop is under way there is a continuation in which it returns |
| TunnelTheorems.FailingIsTheStreak | tunnel.go:144-147 | Failing() holds exactly from the first Failed until Connected or Stopped, and not in a Connecting that follows a good connection |
| TunnelTheorems.OneNoticePerStreak | app_windows.go:161-183 | failure and recovery notices alternate, with exactly one failure notice per streak |
| TunnelTheorems.DelayIsExponential | tunnel.go:180-190 | after k waits since a reset the delay is min(2^k s, cap); with the default cap n >= 5 timed waits take at least 31 + 30(n - 5) s |
| TunnelTheorems.DialsAreEarned | tunnel.go:180-230 | in every run, between the beginnings of two dials there is a step that ends a wait, by retry or timer, or a connection that lived at least stableAfter |
| TunnelRecord.Record.SetState | tunnel.go:162-175 | setState publishes the status of the state machine, closes the current channel and installs a new open one |
| TunnelRecord.Record.Read | tunnel.go:305-307 | the lock section of waitClient reads the last status together with the channel that announces the next one, still open |
| TunnelRecord.Record.ReadThenPublish | tunnel.go:305-321 | through any number of publications, the channel read by waitClient is closed exactly when there was one, and until then its status is the current one and its channel the one the next publication closes |
| TunnelRecord.Record.Track | tunnel.go:331-344 | a connection is registered unless the tunnel is cancelled, or removed |
| TunnelRecord.Notifier.OnTunnelChange | app_windows.go:161-183 | the notices of one tunnel move on as in the state machine, and those of no other tunnel change |
| TunnelRecord.Dialer.CloseClients | sshconn.go:425-429 | the clients are closed once each, from the last to the first |
| TunnelRecord.Dialer.DialChain | sshconn.go:365-384 | either all hops are up and nothing was closed, or the first failing hop is reported and every earlier client is closed, last first |
| Glob.WildcardMatch | sshconn.go:244-267 | the loop decides the declarative meaning of the pattern for every subject without a star, and never accepts a non-match |
| Glob.Soundness | sshconn.go:244-267 | what the loop accepts matches, for every pattern and subject |
| Glob.Completeness | sshconn.go:244-267 | a match is accepted when the subject has no star |
| Glob.ExactlyWithoutStars | sshconn.go:249-252 | the loop agrees with the meaning of all patterns exactly for subjects without a star |
| Glob.Incompleteness | sshconn.go:249-252 | every subject with a star has a pattern that matches it and is rejected |
| Glob.LiteralPattern | sshconn.go:244-267 | a pattern without wildcards accepts itself and nothing else, whatever the subject |
| KnownHosts.MatchHost | sshconn.go:210-227 | the result is that some positive pattern matches and no negated one does |
| KnownHosts.OrderIsIrrelevant | sshconn.go:210-227 | neither the order of the patterns nor repetition makes a difference |
| KnownHosts.MatchesDeclaratively | sshconn.go:210-227 | for host names without a star the patterns have their declarative meaning |
| KnownHosts.NamesTellServersApart | sshconn.go:175-182 | two addresses get the same name in the file exactly when host (up to case) and port agree |
| KnownHosts.Store.LookupHost | sshconn.go:186-207 | the known and revoked keys are those of the lines that match; unreadable lines and certificate authorities are skipped |
| KnownHosts.Store.AppendKnownHost | sshconn.go:324-342 | the new contents of the file, with an unfinished last line completed first |
| KnownHosts.Store.CheckHostKey | sshconn.go:297-322 | verdict and new file of one check, including read and write failures |
| KnownHosts.AppendAddsOneLine | sshconn.go:328-332 | the append adds exactly one line and keeps the earlier ones, whether or not the file ended in a newline |
| KnownHosts.AppendIsLocal | sshconn.go:324-342 | recording a key adds it to that host and changes no other host's lookup |
| KnownHosts.CheckIsLocal | sshconn.go:297-322 | a check changes what the file says about a host only by recording that host's first key |
| KnownHosts.CheckAnswers | sshconn.go:297-322 | a key is accepted exactly when it is recorded and not revoked, or when the host has none yet and it is not revoked; the file changes only then |
| KnownHosts.TrustOnFirstUse | sshconn.go:296-322 | over any sequence of checks a host's revoked keys never change, and its known keys change at most once: from none to the key accepted first |
| KnownHosts.AcceptedKeyIsPinned | sshconn.go:296-322 | once a key was accepted for a host that had none, exactly that key is accepted, whatever checks came between |
| SysProxy.Machine.Save | sysproxy_windows.go:176-188 | a complete save is loaded back as the settings saved, and a save cut short anywhere leaves no record |
| SysProxy.Machine.Clear | sysproxy_windows.go:207-216 | a complete clear removes everything; one cut short leaves the record whole or gone |
| SysProxy.Machine.EnableSystemProxy | sysproxy_windows.go:120-132 | keeps that a record holds the user's settings, and that one exists while ours are live, with a crash or failure at any point |
| SysProxy.Machine.DisableSystemProxy | sysproxy_windows.go:134-150 | keeps the same; when it completes, the user's settings are back exactly, or switched off if there was no record |
| SysProxy.Machine.ReleaseSystemProxy | sysproxy_windows.go:152-160 | keeps the guarantee, about the user's settings as they were before the call, exactly when the live settings are those or point to the given address, and restores them in the latter case if there is a record |
| SysProxy.Machine.Sessions | sysproxy_windows.go:120-216 | after any enables, disables and releases, with crashes and failures anywhere, and one completed disable, the live settings are the user's own from before all of it, or those switched off if some disable or release changed them without a record; with enables only, which of the two is the record's presence, and one undisturbed enable suffices for it |
| SysProxy.StaleRelease | sysproxy_windows.go:154-160 | a concrete run in which a release with a stale address deletes the record, leaves this program's settings live and loses the user's |
| ConfigParser.StripCommentLoop | config.go:328-348 | the scan computes the line without its comment, as ConfigModel defines it |
| ConfigParser.SplitWordsLoop | config.go:351-382 | the scan computes the words, or the open-quote error |
| ConfigParser.ParseServerLoop | config.go:235-260 | the loop over words computes the server or the first error |
| ConfigParser.ParseRouteLoop | config.go:161-198 | the loop over the words of a proxy line computes hops and credentials or the first error |
| ConfigParser.ParseConfigLoop | config.go:112-232 | the whole parser computes the meaning that the theorems below are about |
| ConfigWellFormed.LabelReadsBack | config.go:28-36 | parseAddress of the label of an unnamed hop gives its user, host and port |
| ConfigWellFormed.FullAddressReadsBack | config.go:280-300 | user@host:port, bracketed where needed, parses back to the three |
| ConfigWellFormed.ListenIsNormal | config.go:303-325 | every accepted listen address is an IP and a port in range, and a fixed point of normalizeListen |
| ConfigWellFormed.AcceptedConfigIsOk | config.go:112-232 | every accepted file has distinct normal listens, ports in range and non-empty, fully resolved chains |
| ConfigBlocks.BlocksCommute | config.go:123-124 | swapping the servers and proxies blocks gives the same configuration, or both orders are rejected |
| ConfigPrinter.WordsReadBack | config.go:350-382 | splitWords undoes quoting and spacing of any words, with alternating quote kinds where a value holds both |
| ConfigPrinter.KeepsQuoted | config.go:327-348 | no comment starts inside a quoted word |
| ConfigPrinter.EntryReadsBack | config.go:131-151 | a printed line is read as its key and words, for any spacing and comment |
| ConfigOptions.AddressIsPlain | config.go:386-399 | user@address is taken for an option exactly when the user already is |
| ConfigOptions.OptionLikeUserIsRefused | config.go:235-260 | every server whose user looks like an option is refused |
| ConfigOptions.AddressTakenForOption | config.go:235-260 | key=x@host is a valid address to parseAddress and refused by parseServer |
| ConfigOptions.ServerReadsBack | config.go:235-276 | the words of a server are parsed as that server |
| ConfigOptions.ChainReadsBack | config.go:167-198 | the words of a chain add exactly its hops, inline options included |
| ConfigOptions.ProxyReadsBack | config.go:160-203 | the words of a proxy are parsed as its hops and credentials |
| ConfigRoundTrip.ConfigReadsBack | config.go:112-232 | every well-formed configuration that can be written down is printed, in any server order and style, and parsed back as itself |
| Fingerprint.Fingerprint | config.go:55-62 | the builder and its loops compute the fingerprint the theorems are about |
| Fingerprint.QuotedReadsBack | config.go:57-59 | a text quoted with %q can be read back whatever follows it |
| Fingerprint.FingerprintReadsBack | config.go:54-62 | a fingerprint determines listen address, credentials and chain, hop by hop |
| Fingerprint.FingerprintsAgree | config.go:54-62 | two fingerprints are equal exactly when the proxies agree in everything but the names of their servers |
| BufReader.Reader.Peek | proxy.go:57-61 | the first byte still to come, whatever the segments, and nothing consumed |
| BufReader.Reader.ReadFull | proxy.go:75-82 | exactly the next n bytes, or nothing if fewer come |
| BufReader.Reader.ReadSlice | proxy.go:216 | the next slice depends on the bytes still to come only, not on the segments |
| HttpHead.ReadLine | proxy.go:214-228 | one line and exactly its bytes, or too big, or failed, depending on the stream only |
| HttpHead.ReadHTTPHead | proxy.go:210-243 | head and bytes consumed depend on the stream only, with the limit of 64 KB |
| HttpRewrite.ReadHeadIsOk | proxy.go:210-243 | no part of a head that was read contains a line end it was split at; no header line is empty |
| HttpForward.Header | proxy.go:245-252 | the value of the first line with that name |
| HttpForward.Forward | proxy.go:317-344 | the builder writes the request line and the rewritten header |
| HttpRewrite.ForwardReadsBack | proxy.go:315-344 | reading the forwarded text gives the same method and protocol, the path, the kept lines in order, then Host if absent and Connection: close unless upgrading; and consumes exactly the text |
| HttpAgain.HeaderIsFirst | proxy.go:245-252 | a header's value is that of the first line with its name, or empty without one |
| HttpAgain.KeptInOrder | proxy.go:322-335 | the kept lines are exactly the lines not dropped, in their order |
| HttpAgain.OtherHeadersStay | proxy.go:321-335 | every header of another name says the same after rewriting |
| HttpAgain.ProxyHeadersAreGone | proxy.go:325-326 | no line named Proxy-Authorization or Proxy-Connection is forwarded |
| HttpAgain.RewrittenTwice | proxy.go:317-344 | rewriting a rewritten header changes nothing |
| HttpAgain.ForwardAgain | proxy.go:317-344 | forwarding again gives identical bytes exactly when Host was present or the authority does not end in a line end |
| HttpServe.CarriageReturnInTarget | proxy.go:317-344 | a concrete stream whose forwarded text, read and forwarded again, is a different text |
| HttpServe.SplitIsSpelling | proxy.go:347-364 | the authority and path found are exactly those of the one way to spell the target as scheme, user information, authority and path |
| HttpServe.FetchTargets | proxy.go:298-301 | the target dialled is the authority with its port, or with port 80 for a bare host or a bracketed address |
| HttpServe.BasicReadsBack | proxy.go:366-377 | a Basic header that carries user and password is accepted exactly when they are the configured ones |
| HttpServe.AcceptedBasic | proxy.go:366-377 | whatever is accepted decodes to the configured user and password |
| HttpServe.ServeHTTP | proxy.go:254-313 | the reply or relay, the target dialled, and that the relay starts right after the head |
| HttpServe.CredentialsGate | proxy.go:264-268 | with credentials configured a request without them is answered 407, and nothing is dialled unless its header decodes to them |
| HttpServe.FetchedRequestReadsBack | proxy.go:289-311 | what the target is sent for any plain request reads as that request in origin-form |
| Socks.Client.Authenticate | proxy.go:152-176 | outcome, answer and bytes consumed of the sub-negotiation |
| Socks.Client.ReadRequest | proxy.go:98-131 | the request, or why there is none, and exactly its bytes consumed |
| Socks.Client.Serve | proxy.go:73-150 | everything sent, the target dialled and the bytes left for the relay depend on the stream only |
| SocksTheorems.RequestReadsBack | proxy.go:98-131 | parsing inverts the encoding of section 4 of RFC 1928 for the three kinds of address and consumes exactly its bytes |
| SocksTheorems.RequestIsWritten | proxy.go:98-131 | nothing but such an encoding is accepted as a request |
| SocksTheorems.GrantedIsWritten | proxy.go:152-176 | authentication is granted exactly to the message of section 2 of RFC 1929 with the configured user and password |
| SocksTheorems.DialIsEarned | proxy.go:73-139 | whatever is dialled, the client's bytes were the right opening, credentials included, and a CONNECT request for that target |
| SocksTheorems.Conversation | proxy.go:73-150 | a right opening and a CONNECT to a reachable target is answered as the protocol says, and every byte after it is left for the relay |
| SocksTheorems.OneFinalReply | proxy.go:124-148 | at most one reply is sent, last, and it says success only when the target was reached |
| Relay.OnlyBeginnings | proxy.go:407-430 | in every interleaving each side has been given a beginning of what the other sent, in order and unchanged |
| Relay.CleanEndIsComplete | proxy.go:415-429 | a direction that ended without error has passed everything on, and the relay is content only when both have |
| Relay.SomethingCanHappen | proxy.go:415-429 | until the relay returns, it or a copy loop can go on without any connection failing |
| Relay.RunsAreBounded | proxy.go:415-429 | no run is longer than a bound set by the lengths of the two streams |
| Connection.Handle | proxy.go:47-69 | for any segments, what was sent to the target and what is left for the relay depend on the client's stream only |
| Connection.TargetGetsTheStream | proxy.go:407-430 | the target is only ever given a beginning of the forwarded head and all client bytes after the handshake, and all of it once that direction ends cleanly |
| Connection.ClientGetsTheStream | proxy.go:407-430 | the client is only ever given its handshake answers and then a beginning of what the target sends, and all of it once that direction ends cleanly |
| Reload.FingerprintTellsListen | app_windows.go:97-108 | equal fingerprints mean equal listen addresses |
| Reload.Ports.StopAll | app_windows.go:299-309 | all given tunnels are stopped, their ports are free and no other port is touched |
| Reload.Ports.StartAll | app_windows.go:122-128 | every given tunnel listens unless another program holds its port |
| Reload.App.Running | app_windows.go:97-102 | the tunnels that got their port, found by fingerprint |
| Reload.App.Plan | app_windows.go:103-112 | the new list mirrors the configuration in order, with running tunnels where the fingerprint is the same |
| Reload.App.Apply | app_windows.go:96-124 | old tunnels split exactly into kept and stopped; a kept one is the same object, listening and never stopped; all stops precede all starts; new tunnels listen unless another program holds the port |
| Reload.App.Reload | app_windows.go:80-136 | a bad configuration or a closed app changes nothing in the list; otherwise as Apply |
| Reload.App.Load | app_windows.go:81-95 | the same from any text of the file, with the key paths of the chains resolved |
| Reload.KeysResolvedTwice | config.go:90-98 | resolving the keys of a server that several chains share once per chain changes nothing, if resolving a path twice does not |
| Reload.App.Reconnect | app_windows.go:226-243 | only a tunnel of the list that could not listen is replaced, in its place and with the same proxy |
| Reload.App.Shutdown | app_windows.go:280-297 | every tunnel is stopped, every port is free and the list stays empty |

## Left out

- Windows tray, menus, settings dialogs, autostart, icon drawing and single-instance plumbing.
- The WinINet calls and registry handles; they are a settings record and four values here.
- SSH handshake, authentication, agent and key files, and host key algorithm choice: a hop comes up or fails.
- Message texts, logging, the status page's body, and descriptions of errors.
- Real clocks and fair scheduling: timers fire at any time after their delay, and progress is stated as "can go on".
- `keepAlive` in detail: it is the watch arms "lost" and "still there".
- Dropped reports of a broken connection: `broken` has one slot, and no claim is made that every report causes a reconnect.
- `Start` overlapping `Stop`, and `Reload`, `Reconnect` and `Shutdown` of the app overlapping each other.
- The stops of a reload run one after the other here, not in parallel.
- Listen addresses that differ as text but overlap, such as 0.0.0.0 and 127.0.0.1 on one port.
- The switch of the system proxy that Reload and Shutdown trigger, and the remembered preference.
- Other programs that change the proxy settings, and registry deletions that fail.
- KnownHosts.Store.AppendKnownHost: a write that fails leaves the file as it was, so a write that stops halfway is not modelled; nor are other programs that edit the file.
- Reading key files; how paths are resolved; file watching; the configuration template.
- Text that is not valid UTF-8, and `strconv.Atoi` overflow, which every caller's range check rejects as well.
- Case folding outside ASCII, except for the letters whose lower case or fold is an ASCII letter.
- The HTTP head is modelled on ASCII: a character counts as one byte towards the limit.
- A chain keeps its servers by value, so two hops never share one server object.
- Connection.Handle: the read deadline is a stream that fails.
