# TLSLatch: a verified model

TLSLatch holds application data on a TLS connection until an attestation report bound to that
connection's hello messages has been checked. This Dafny project models the parts of the repository in
which a mistake would break that promise, and proves what they keep. `dafny verify dfyconfig.toml` checks
everything.

Code that updates state in place is modelled twice: as a state machine on values, about which the
theorems are stated, and as a class with arrays and loops in the form of the C or Python code, each of
whose methods is proved to take exactly the step of the state machine.

| part | state machine and theorems | code form |
|---|---|---|
| open addressing with tombstones | `ProbeTable` | `ProbeTable` (probe loops), `JobRing` |
| server rendezvous cache | `Rendezvous`, `RendezvousInvariant`, `RendezvousRuns`, `RendezvousAnswers` | `ServerAgent` |
| client gate | `Gate`, `GateInvariant`, `GateQueues`, `GateRuns`, `GateEffects`, `GateAnswers` | `GateAgent` |
| both agents and their control connections | `Control`, `ControlInvariant`, `EndToEnd`, `Vouching`, `ControlAnswers`, `Completion` | |
| hello parsers | `Tls`, `TlsEncoding` | `TlsFinders` |
| ClientHello reassembly | `Reassembly`, `ReassemblyRuns` | `Observer` |
| batch manifests | `Batch`, `BatchServer`, `BatchRuns` | `BatchAgent` |
| stream I/O | `WireIo` | `WireIo` |

The theorems are of two kinds. Invariants and runs say what never happens. The modules named Answers,
`ReassemblyRuns` and `Completion` say what does happen: for each operation, in every state that keeps the
invariant, the exact conditions of each answer and the change that goes with it, spelled out on the entries,
gates, packets and clock readings themselves, and whole sessions that go well.

A step is one body that the code runs under its mutex, or one turn of the single main thread. Everything
the code asks the outside for is an input of the step: the clock, socket cookies, whether a send, a read,
a file write or an nftables deletion succeeds, and the report the hardware produces. SHA-512, report
verification, the two key derivations of mutual mode and all table hash functions are uninterpreted; every
theorem holds for whatever functions are supplied. In mutual mode the end-to-end theorem says that the two
agents' ServerHello keys are equal unless the run exhibits a collision of the derivations: two different
keys from which the two sides derive the same attested key (`EndToEnd.Collide`).

Some states carry history fields that the code does not have: `gens` and `outcomes` of the gate, the
`entry` of a server record, `parts` of a stash, `asked`, `taken`, `responses` and `heard` of a control
connection with the `exchange` number of a verdict, and `accepted` of the batch server. No step's outcome
depends on them.

## What the proofs found

- The server's job ring holds 8192 jobs and the cache 8192 entries, and no slot ever has two jobs, so the
  ring never refuses a job; the lookup index, 16384 cells for at most 8192 live entries, never fills
  either. `lookup_observed` and `has_lookup_key` are set together, so an entry with the second and
  without the first does not occur (`RendezvousInvariant.QueueNeverFull`, `IndexNeverFull`).
- `same_route` and `same_flow` are the same relation: `struct flow_key` has no field besides the route.
- A server record with `admitted` set implies an earlier admission by the client's gate; the converse is
  not promised, because a worker may time out before the gate's decision reaches it.
- `agents/linux/packet_view.c:36` adds the TCP header length to the sequence number, so two segments
  accepted as consecutive are contiguous exactly when their TCP headers have the same length
  (`Reassembly.ContiguousExactly`). With headers of 20 and 32 bytes a contiguous segment is refused
  (`Reassembly.UnequalHeadersRefused`).
- The Linux finder and the macOS finder can part on one hello or by looking at different hellos;
  `Tls.LinuxAgreesExactly` covers every stream.
  - On the same hello they agree exactly when it has no key_share or its first key_share is well formed.
    Section 4.2.8 of RFC 8446 allows two hellos in which it is not, in the finders' sense: a ClientHello with
    empty client_shares (`TlsEncoding.EmptyClientShares`), and a HelloRetryRequest, whose key_share is only
    the selected group. Linux finds nothing in them, macOS and Windows digest the short share; on a
    connection with a retry they stay with it, while Linux takes the share of the later ServerHello
    (`TlsEncoding.RetryDisagrees`). RFC 8446 does not allow a too short key_share before a good one, which
    makes the finders choose different extensions (`TlsEncoding.TwoKeySharesExample`).
  - They look at the same hello if handshake records hold whole messages up to the record that completes
    it. The first record that breaks this can be followed by one in which the finders look at different
    hellos (`Tls.WholeUntilExactly`), because the Linux finder starts afresh in each record and reads from
    the middle of a split message, which RFC 8446 does allow (`TlsEncoding.SplitMessageExample`).
- `tcpra_write_pair` reports an empty pair as a failure where `tcpra_write_all` reports an empty buffer as
  a success (`WireIo.WritersDifferOnEmpty`).
- The counts in the batch server's `BATCHES` add up to `|ASSIGNED|` exactly when no accepted request
  failed to write its manifest file, because ids are assigned before that write
  (`BatchServer.CountsAddUpExactly`, and `BatchServer.LostManifestExample` for one that did).

## Model

| member | source | states |
|---|---|---|
| ProbeTable.NothingBeyondVacant | agents/linux/tcpra_server_agent.c:285-301 | A search that stops at the first never-used slot misses no match anywhere in the table, because no live entry lies beyond a never-used slot of its probe path |
| ProbeTable.NewestOverWholeTable | agents/linux/tcpra_server_agent.c:285-319 | The newest-match search over a full circle returns a match with the greatest time stamp of the whole table, and nothing only if there is no match |
| ProbeTable.NewestUnchanged | agents/linux/tcpra_server_agent.c:303-319 | Probing further than the first never-used slot would not change the newest match |
| ProbeTable.FullExactly | agents/linux/tcpra_server_agent.c:197-209 | The slot search fails exactly when every slot is live |
| ProbeTable.RemoveKeepsProbing | agents/linux/tcpra_server_agent.c:277-283 | Tombstoning keeps every live entry's probe path free of never-used slots |
| ProbeTable.PlaceKeepsProbing | agents/linux/tcpra_server_agent.c:197-209 | Reusing the slot that the search gives, tombstone or not, keeps every probe path |
| ProbeTable.ProbeFirst | agents/linux/tcpra_server_agent.c:220-232 | The probe loop finds what a scan of the whole table finds |
| ProbeTable.ProbeNewest | agents/linux/tcpra_server_agent.c:285-319 | The probe loop that stops at a never-used slot returns the newest match of the full circle |
| ProbeTable.ProbeFree | agents/linux/tcpra_server_agent.c:197-209 | The probe loop returns the first tombstone on the path, else the first never-used slot, else nothing |
| ProbeTable.ProbeMatchOrFree | agents/linux/tcpra_client_agent.c:242-256 | The combined loop returns the match if the table has one, and otherwise the free slot |
| JobRing.Ring.Push | agents/linux/tcpra_client_agent.c:328-340 | The ring appends unless it is full, and then leaves its contents alone |
| JobRing.Ring.Pop | agents/linux/tcpra_client_agent.c:342-354 | The ring gives back and removes the oldest item, or nothing when it is empty |
| RendezvousInvariant.QueueNeverFull | agents/linux/tcpra_server_agent.c:385-397 | A slot without a pending report implies room in the job ring: a job is refused only while stopping |
| RendezvousInvariant.IndexNeverFull | agents/linux/tcpra_server_agent.c:246-275 | The lookup index always has a cell that is not live, so insertion never fails |
| RendezvousInvariant.IndexAgreesWithScan | agents/linux/tcpra_server_agent.c:234-244 | The search through the index finds the entry that a scan of the cache finds, and none when the scan finds none |
| RendezvousInvariant.InsertKeepsIndex | agents/linux/tcpra_server_agent.c:246-275 | Insertion keeps the index and the live entries with a lookup key in bijection |
| RendezvousInvariant.DeleteKeepsIndex | agents/linux/tcpra_server_agent.c:704-706 | Deleting the key together with its entry keeps that bijection |
| RendezvousInvariant.ObserveLookupKeeps | agents/linux/tcpra_server_agent.c:321-365 | Joining or placing a ClientHello keeps the whole invariant: probing, matching, index and jobs |
| RendezvousInvariant.ObserveReportKeeps | agents/linux/tcpra_server_agent.c:495-531 | Joining or placing a ServerHello, and scheduling its report, keeps the whole invariant |
| RendezvousInvariant.WorkIsStillWanted | agents/linux/tcpra_server_agent.c:554-576 | The re-check after report generation always succeeds: the slot is live with the job's flow and key |
| RendezvousInvariant.StepKeeps | agents/linux/tcpra_server_agent.c:321-709 | Every critical section of the server keeps the invariant |
| RendezvousRuns.ReachableOk | agents/linux/tcpra_server_agent.c:321-709 | The invariant holds in every state of every run |
| RendezvousRuns.LiveEntriesMatched | agents/linux/tcpra_server_agent.c:285-531 | In every reachable state lookup keys are unique, report keys are unique per route and socket, and no lookup-only entry faces a report-only entry of the same route and socket |
| RendezvousRuns.IndexIsExact | agents/linux/tcpra_server_agent.c:220-283 | In every reachable state the index leads from a key to exactly the one live entry with it, or to none, and has room for another key |
| RendezvousRuns.JobAccounting | agents/linux/tcpra_server_agent.c:458-493 | In every reachable state a live entry has report_start_ns set and report_done_ns unset exactly when one job for its slot is queued or in flight; no slot has two |
| RendezvousRuns.NoReportDiscarded | agents/linux/tcpra_server_agent.c:533-586 | Whatever happened since it was taken, finishing a job records its report in the entry it was for |
| RendezvousRuns.JoinedOnOneSocket | agents/linux/tcpra_server_agent.c:321-531 | Both keys of a live entry were observed on the entry's own route and socket cookie |
| RendezvousRuns.StepEffect | agents/linux/tcpra_server_agent.c:458-531 | What one step may change in one slot: identity, keys, nonce, key to attest, report and delivery mark never change once set, except when the slot is recycled |
| RendezvousRuns.FoundPersists | agents/linux/tcpra_server_agent.c:234-244 | A key found before a step is found in the same slot after it, unless the step records the verdict that recycles the entry |
| RendezvousRuns.DeliverySound | agents/linux/tcpra_server_agent.c:629-669 | A delivered report verifies under the key derived from that entry's own report key (in mutual mode also lookup key and nonce) and goes to the registered nonce |
| RendezvousRuns.DeliveredAtMostOnce | agents/linux/tcpra_server_agent.c:629-669 | Two deliveries for one lookup key are separated by the verdict that recycles the entry |
| RendezvousRuns.RegisteredAtMostOnce | agents/linux/tcpra_server_agent.c:588-627 | Two successful registrations for one lookup key are separated by the verdict that recycles the entry |
| RendezvousRuns.DeliveredToRegistered | agents/linux/tcpra_server_agent.c:588-669 | Between a registration and the verdict only the registered nonce gets the report |
| RendezvousAnswers.LookupAnswer | agents/linux/tcpra_server_agent.c:321-365 | A known key is confirmed exactly on its own socket; a new one is taken exactly if a ServerHello of the socket lacks its ClientHello, and then joins the newest such, or some slot is free, and then is stored there; the key is in the index and nothing else changes |
| RendezvousAnswers.ReportAnswer | agents/linux/tcpra_server_agent.c:495-531 | A known ServerHello is confirmed; a new one is refused exactly if no ClientHello lacks it and no slot is free; otherwise it joins the newest or is stored, and its report is asked for exactly if due, in vain exactly while stopping |
| RendezvousAnswers.RegisterAnswer | agents/linux/tcpra_server_agent.c:588-627 | A request is granted exactly if its key is there, not yet requested, less than 30 s old and on the same socket; INTERNAL exactly if a due report is asked for while stopping; every refusal and the wait have their own conditions and change nothing |
| RendezvousAnswers.DeliverAnswer | agents/linux/tcpra_server_agent.c:629-669 | A report is delivered exactly if it is ready, requested with this nonce, undelivered, less than 30 s after the ClientHello and on the same socket; every refusal has its own condition and changes nothing |
| RendezvousAnswers.WorkerAnswer | agents/linux/tcpra_server_agent.c:533-586 | An idle worker takes the oldest job if there is one, and its result goes into the entry the job is for |
| RendezvousAnswers.VerdictAnswer | agents/linux/tcpra_server_agent.c:671-709 | A verdict is recorded exactly on a delivered entry, for its own key, within the expected number, with the verdict's own value as admitted; slot and key are recycled |
| RendezvousAnswers.SessionRecorded | agents/linux/tcpra_server_agent.c:321-709 | From any state with nothing under way on its socket, a timely session is served in both modes and recorded with its keys, nonce and report and the client's answer |
| ServerAgent.Server.FindLookupEntry | agents/linux/tcpra_server_agent.c:234-244 | The index search returns the slot that a scan for the key returns |
| ServerAgent.Server.InsertLookupIndex | agents/linux/tcpra_server_agent.c:246-275 | The insertion loop changes the index as the state machine says |
| ServerAgent.Server.DeleteLookupIndex | agents/linux/tcpra_server_agent.c:277-283 | The deletion tombstones exactly the key's cell |
| ServerAgent.Server.ObserveLookupKey | agents/linux/tcpra_server_agent.c:321-365 | The code takes exactly the state machine's ClientHello step |
| ServerAgent.Server.EnqueueReport | agents/linux/tcpra_server_agent.c:385-397 | A job is appended unless the ring is full or the agent is stopping |
| ServerAgent.Server.ScheduleReport | agents/linux/tcpra_server_agent.c:458-493 | The code takes exactly the scheduling step: at most once per entry, with the derived key in mutual mode |
| ServerAgent.Server.ObserveReportKey | agents/linux/tcpra_server_agent.c:495-531 | The code takes exactly the ServerHello step |
| ServerAgent.Server.DequeueJob | agents/linux/tcpra_server_agent.c:533-549 | The worker takes the oldest job |
| ServerAgent.Server.CompleteJob | agents/linux/tcpra_server_agent.c:554-586 | The worker's second critical section is exactly the finishing step |
| ServerAgent.Server.RegisterRequest | agents/linux/tcpra_server_agent.c:588-627 | One pass of registration is exactly the state machine's, with its refusals |
| ServerAgent.Server.WaitForReport | agents/linux/tcpra_server_agent.c:629-669 | One pass of the wait is exactly the delivery step: wait, refuse or deliver |
| ServerAgent.Server.MarkResponseSent | agents/linux/tcpra_server_agent.c:671-677 | The send time is noted in the entry |
| ServerAgent.Server.RecordVerdictOf | agents/linux/tcpra_server_agent.c:679-709 | The verdict is recorded once and the slot and its index cell become tombstones |
| GateInvariant.GatedDataNeedsAdmission | agents/linux/tcpra_client_agent.c:700-835 | Payload that neither opens a connection nor carries a ClientHello passes only through an ADMITTED gate whose keys and cookie are those of its admission on a verified report, on a socket that still has that cookie |
| GateInvariant.QuarantineDrops | agents/linux/tcpra_client_agent.c:658-680 | After the quarantine no protected packet is accepted |
| GateInvariant.DropHeldKeeps | agents/linux/tcpra_client_agent.c:609-631 | Dropping a gate's held packets keeps the invariant, counters and conservation included |
| GateInvariant.ResetKeeps | agents/linux/tcpra_client_agent.c:633-643 | Starting a new generation keeps the invariant |
| GateInvariant.DecisionKeeps | agents/linux/tcpra_client_agent.c:866-921 | Applying a decision keeps the invariant, whether it admits, denies or no longer applies |
| GateInvariant.ExpireOneKeeps | agents/linux/tcpra_client_agent.c:941-965 | One slot of the expiry scan keeps the invariant |
| GateInvariant.StepKeeps | agents/linux/tcpra_client_agent.c:574-965 | Every step of the client keeps the invariant |
| GateQueues.HoldJoinsOwnFlow | agents/linux/tcpra_client_agent.c:815-834 | A packet put on hold joins the end of what its own flow's gate holds, and no other flow's gate holds anything else than before |
| GateQueues.StepKeepsQueues | agents/linux/tcpra_client_agent.c:574-965 | Every step of the client keeps each flow's queue: its live gate holds exactly the packets put on hold on that flow in its current generation that have no verdict |
| GateRuns.ReachableOk | agents/linux/tcpra_client_agent.c:574-965 | The invariant holds in every state of every run |
| GateRuns.DataPathSafety | agents/linux/tcpra_client_agent.c:658-904 | In every run a gated packet is accepted only while its flow's current generation is admitted on a report that verifies under the key expected for the gate's ServerHello; a held packet is released only by such an admission of the flow on which it was put on hold, and of the very generation in which it was; and no protected packet passes, is put on hold or is released after the quarantine |
| GateRuns.QueuesReachable | agents/linux/tcpra_client_agent.c:609-643 | In every run, for every flow, the packets put on hold on it are those that got a verdict, in that order, followed by those its live gate holds, and nothing happened to the flow's generation between a hold and its verdict save the decision behind that verdict |
| GateRuns.FirstHeldFirstJudged | agents/linux/tcpra_client_agent.c:609-622 | Held packets of a flow get their verdicts in the order in which they were put on hold, each hold at most one |
| GateRuns.QuarantineIsFinal | agents/linux/tcpra_client_agent.c:647-656 | Any denial implies the quarantine, and once quarantined no generation starts or is admitted again |
| GateRuns.QuarantineStays | agents/linux/tcpra_client_agent.c:647-680 | However a run goes on after the quarantine, it stays quarantined, no protected packet passes or is put on hold, and no held one is released |
| GateRuns.DeniedStays | agents/linux/tcpra_client_agent.c:871-914 | A denied gate stays denied until its slot is recycled |
| GateRuns.HeldConservation | agents/linux/tcpra_client_agent.c:742-744 | Times held equal times judged plus times still held, for every packet id, and copied = accepted + dropped + held + failed verdicts |
| GateRuns.ScanClearsOverdue | agents/linux/tcpra_client_agent.c:941-965 | After a scan no gate whose deadline has come still holds a packet |
| GateRuns.ShutdownClears | agents/linux/tcpra_client_agent.c:625-631 | After the shutdown drain nothing is held and the counters balance |
| GateRuns.SearchIsLookup | agents/linux/tcpra_client_agent.c:230-240 | Searching the table is looking the flow up in the map of gates |
| GateRuns.WriteIsUpdate | agents/linux/tcpra_client_agent.c:242-256 | Writing the slot chosen for a flow is updating the map |
| GateRuns.RemoveIsRemoval | agents/linux/tcpra_client_agent.c:958-963 | Tombstoning a gate removes its flow from the map and nothing else |
| GateRuns.SlotRefusedExactly | agents/linux/tcpra_client_agent.c:242-256 | The slot search fails exactly when all 8192 slots hold live gates of other flows |
| GateRuns.ResetAndCloseOnMap | agents/linux/tcpra_client_agent.c:633-643 | A reset puts a fresh gate under the flow, close cleanup removes the flow; other flows are untouched |
| GateRuns.ScanOnMap | agents/linux/tcpra_client_agent.c:941-965 | The expiry scan denies, retires or keeps each flow of the map by its own age and deadline |
| GateEffects.MainThreadEffect | agents/linux/tcpra_client_agent.c:866-939 | What a main-thread step may do to sessions shared with the workers: gateAllowed is set only with an admission of the same lookup key under the expected key |
| GateAnswers.DecisionAnswer | agents/linux/tcpra_client_agent.c:866-921 | A decision admits if and only if the flow's gate is in the session's generation, the endpoint is not quarantined, the report and in mutual mode the client report passed, the gate saw the session's ServerHello, and with a selector the socket is unchanged and the element deleted; otherwise it denies or, about no gate, quarantines; what was held gets exactly that verdict, counted by success |
| GateAnswers.OutsideAnswer | agents/linux/tcpra_client_agent.c:658-680 | Packets of other connections pass untouched; protected ones are dropped after the quarantine |
| GateAnswers.PlainAnswer | agents/linux/tcpra_client_agent.c:807-835 | What is neither hello, opening nor closing: by direction, payload, phase of the gate, cookie and number held, exactly when it is accepted, authorized, held or dropped, and when the endpoint is quarantined |
| GateAnswers.SynAnswer | agents/linux/tcpra_client_agent.c:669-701 | A SYN is accepted exactly if the kernel knows the connecting socket and the table has a place, and starts a new generation |
| GateAnswers.CloseAnswer | agents/linux/tcpra_client_agent.c:735-749 | A closing packet is accepted, the flow's gate goes and what it held is dropped |
| GateAnswers.ClientHelloAnswer | agents/linux/tcpra_client_agent.c:750-780 | A ClientHello needs its socket and a place; a repeated one passes and changes nothing; any other starts a new generation and passes exactly if a session for it is under way or can be started with a job |
| GateAnswers.ServerHelloAnswer | agents/linux/tcpra_client_agent.c:781-805 | A ServerHello passes exactly if the flow's gate has seen a ClientHello; the first is kept by the gate and by its session |
| GateAnswers.CountAnswer | agents/linux/tcpra_client_agent.c:837-864 | Each packet is counted once as copied and by its own action, and what passes is logged |
| GateAnswers.ScanAnswer | agents/linux/tcpra_client_agent.c:941-965 | A scan happens exactly 10 ms after the last; it denies exactly the undecided gates at their deadline, quarantines exactly if there is one, frees exactly those decided, empty and unchanged for more than 120 s, and leaves all others |
| GateAnswers.CheckAnswer | agents/linux/tcpra_client_agent.c:517-536 | The report passes exactly if the session has its ServerHello, the response carries the expected key, and the report verifies under it |
| GateAnswers.FinishedAnswer | agents/linux/tcpra_client_agent.c:426-438 | A finished session is under way no more |
| GateAnswers.ContactAdmitted | agents/linux/tcpra_client_agent.c:574-921 | From any open state a new connection in good order is admitted in both modes: early data is held and then released, later data passes at once |
| GateAgent.Agent.GateFlowFind | agents/linux/tcpra_client_agent.c:230-240 | The probe loop finds the flow's unique live gate or none |
| GateAgent.Agent.GateFlowSlot | agents/linux/tcpra_client_agent.c:242-256 | The probe loop gives the flow's own slot, else a free one, else none |
| GateAgent.Agent.FinishHeldAt | agents/linux/tcpra_client_agent.c:609-623 | Every held packet of the gate gets one verdict in order, counted by whether it was sent |
| GateAgent.Agent.DropAllHeld | agents/linux/tcpra_client_agent.c:625-631 | The drain visits every gate |
| GateAgent.Agent.ResetGateFlow | agents/linux/tcpra_client_agent.c:633-643 | The gate's packets are dropped and a fresh generation written |
| GateAgent.Agent.QuarantineEndpoint | agents/linux/tcpra_client_agent.c:647-656 | The quarantine is entered once |
| GateAgent.Agent.FindGeneration | agents/linux/tcpra_client_agent.c:295-304 | The list search returns the newest unfinished session of the flow and key |
| GateAgent.Agent.ClientObserveHello | agents/linux/tcpra_client_agent.c:574-589 | One session and one job per generation, unless the limit is reached or the queue refuses |
| GateAgent.Agent.ClientObserveServerKey | agents/linux/tcpra_client_agent.c:591-607 | The first ServerHello key of a generation is kept |
| GateAgent.Agent.HandleClientPacket | agents/linux/tcpra_client_agent.c:658-835 | The packet handler takes exactly the state machine's step and action, branch by branch |
| GateAgent.Agent.NfqueueCallback | agents/linux/tcpra_client_agent.c:837-864 | The callback takes the handler's step and counts the packet |
| GateAgent.Agent.ApplyDecisionTo | agents/linux/tcpra_client_agent.c:866-921 | The code takes exactly the decision step |
| GateAgent.Agent.DrainDecision | agents/linux/tcpra_client_agent.c:929-939 | The oldest decision is taken off the ring and applied |
| GateAgent.Agent.ExpireGateFlows | agents/linux/tcpra_client_agent.c:941-965 | The scan, at most once per 10 ms, takes exactly the expiry step |
| ControlInvariant.HoldPersists | agents/linux/tcpra_server_agent.c:741-810 | The cache entry a control thread serves stays its own through every server step that does not recycle it |
| EndToEnd.RegistrationIsFirst | agents/linux/tcpra_server_agent.c:588-627 | Registration succeeds only on an entry nobody registered, and registers it for the nonce |
| EndToEnd.VerdictRecorded | agents/linux/tcpra_server_agent.c:679-709 | A positive verdict's record is matched by the client's admission it reports |
| EndToEnd.VerdictIsCertified | agents/linux/tcpra_client_agent.c:543-560 | A worker sends a positive verdict only after the gate admitted the generation |
| EndToEnd.StepKeeps | agents/linux/tcpra_client_agent.c:471-561 | Every step of the two joined agents keeps the joint invariant |
| EndToEnd.ReachableOk | agents/linux/tcpra_server_agent.c:741-810 | The joint invariant holds in every state of every run |
| EndToEnd.AdmittedRecordsAgree | agents/linux/tcpra_server_agent.c:679-709 | In every run of both agents, a server record with admitted = 1 implies that the client's gate admitted that lookup key on a verified report with a ServerHello key equal to the report key the server had joined with it; in mutual mode, equal unless that admission and the record are a collision of the key derivations |
| EndToEnd.AdmittedKeysEqual | agents/linux/tls_parse.c:103-119 | The two ServerHello keys are equal, in mutual mode too, in every run in which the record collides with no admission |
| Vouching.RecordsRestOnClientReports | agents/linux/tcpra_server_agent.c:771-804 | In every run each completed session is recorded as client-verified and was answered on a control connection; in mutual mode that connection brought a client report which verifies under the key derived from the session's lookup key and nonce |
| EndToEnd.ResponseAnswersLastRequest | agents/linux/tcpra_client_agent.c:484-560 | Over any jobs, failures and reconnections, a full response the client accepts answers the request it sent last, although responses carry no nonce |
| ControlAnswers.RequestAnswer | agents/linux/tcpra_server_agent.c:741-770 | What the control thread answers to a request, each refusal with its own status and reason |
| ControlAnswers.DeliveryAnswer | agents/linux/tcpra_server_agent.c:771-804 | A delivered report is answered exactly if the client's own report passes, and refused as CLIENT_REPORT_INVALID otherwise |
| ControlAnswers.StrayMessageCloses | agents/linux/tcpra_server_agent.c:748-803 | A message that is not the one the control thread waits for, or a request of the other mode, closes the connection |
| ControlAnswers.FailureMovesOn | agents/linux/tcpra_client_agent.c:471-561 | Whatever fails or times out, a worker gets a stage further with its job, withdraws an admission it no longer waits for, and at the last stage finishes the session |
| Completion.SessionCompletes | agents/linux/tcpra_client_agent.c:471-561 | From any state that is ready for it, a session that goes well ends, in both modes, with the client's gate admitted, the worker and connection free, and one more server record: admitted, client-verified, with the session's keys, nonce and report |
| TlsFinders.FindKeyShare | agents/linux/tls_parse.c:48-67 | The extension loop finds the first key_share of the required length |
| TlsFinders.ClientLookupFromKeyShare | agents/linux/tls_parse.c:20-28 | Exactly the well-formed client key_share lists are digested |
| TlsFinders.ExtractClientHelloLookup | agents/linux/tls_parse.c:30-69 | The lookup key is the digest of the hello's first long enough key_share, if it is well formed, and nothing otherwise |
| TlsFinders.ExtractServerHello | agents/linux/tls_parse.c:121-161 | Group, public key and report key of the hello's key_share, exactly when it is well formed with 1 to 128 bytes |
| TlsFinders.ReportKeyFromPublic | agents/linux/tls_parse.c:71-83 | The report key is the digest of the key_share with that group and public key, for 1 to 128 bytes |
| TlsFinders.RecomputedKeyIsExtracted | agents/linux/tls_parse.c:71-83 | Group, length and public key put together again are the bytes of the key_share they came from |
| TlsFinders.FindHandshake | agents/linux/tls_parse.c:163-195 | The two nested loops report the share of the first hello of the wanted type in any handshake record |
| TlsFinders.FindExtension | agents/macos/ffi/src/tls.rs:23-58 | The Rust extension search returns the hello's first key_share, or nothing for a malformed hello |
| TlsFinders.FindHello | agents/macos/ffi/src/tls.rs:60-95 | The rescanning finder returns the digest of the share of the first hello of the coalesced handshake bytes |
| TlsFinders.ParseKeyShare | agents/windows/tcpra_agent_c.c:400-468 | The two Windows extension parsers return the hello's first key_share, or nothing for a malformed hello |
| TlsFinders.CoalesceHandshake | agents/windows/tcpra_agent_c.c:223-246 | Handshake payloads are appended in order until the 262144-byte bound refuses one |
| TlsFinders.FindHelloKey | agents/windows/tcpra_agent_c.c:470-519 | The coalescing finder returns the digest of the first share that any hello of the kind has |
| Tls.MacAndWindowsAgree | agents/windows/tcpra_agent_c.c:470-519 | On at most 262144 bytes, whenever the Rust finder succeeds the Windows finder returns the same extension; they can differ only on a malformed first hello |
| Tls.MacStable | agents/macos/ffi/src/tls.rs:60-95 | A key the Rust finder finds on a prefix is the key on every extension of it |
| Tls.WindowsStable | agents/windows/tcpra_agent_c.c:470-519 | A key the Windows finder finds on a prefix is the key on every extension of it |
| Tls.SegmentationIrrelevant | agents/macos/ffi/src/tls.rs:60-95 | Two prefixes of one stream on which finders succeed give the same key, so segmentation cannot change it |
| Tls.RescanIsCoalesce | agents/macos/ffi/src/tls.rs:60-95 | Rescanning after each record looks at the same hello as scanning everything once |
| Tls.PerRecordIsCoalesce | agents/linux/tls_parse.c:163-195 | When handshake records hold whole messages up to the record that completes the hello, scanning record by record finds the hello that scanning the joined payloads finds |
| Tls.AllThreeAgree | agents/linux/tls_parse.c:163-195 | On such streams of at most 262144 bytes all three finders agree on a hello with a key_share exactly when its first key_share is well formed, and Linux and macOS find nothing in one without |
| Tls.FindersOnShares | agents/linux/tls_parse.c:48-67 | On every stream the Linux finder returns its choice among the key_shares of the first hello found inside one record, the macOS finder the first key_share of the first hello of the joined payloads |
| Tls.LinuxAgreesExactly | agents/linux/tls_parse.c:163-195 | On every stream: whole messages up to the hello make the Linux and macOS finders look at the same hello; on the same hello they agree exactly when it has no key_share or its first one is well formed, and on different hellos exactly when the Linux choice in the one is the first share of the other |
| Tls.WholeUntilExactly | agents/linux/tls_parse.c:163-195 | Record by record: both readings look at the same hello on every continuation in whole messages exactly as long as handshake records hold whole messages up to the hello |
| TlsEncoding.RecordsRoundTrip | agents/linux/tls_parse.c:163-195 | Parsing inverts the record encoder of RFC 8446, section 5.1, whatever the version bytes of each record |
| TlsEncoding.MessagesRoundTrip | agents/linux/tls_parse.c:163-195 | Parsing inverts the handshake message encoder |
| TlsEncoding.BodyRoundTrip | agents/linux/tls_parse.c:30-69 | The parsers find the extension block of every encoded ClientHello and ServerHello (RFC 8446, sections 4.1.2 and 4.1.3) |
| TlsEncoding.FindersOnEncoding | agents/linux/tls_parse.c:163-195 | What the Linux and macOS finders return on every encoded stream, whatever its version bytes and key_share extensions, and that the Windows finder returns the same as macOS on up to 262144 bytes |
| TlsEncoding.FindersInvertEncoder | agents/linux/tls_parse.c:163-195 | With exactly one well-formed key_share the finders return exactly its data, whatever the version bytes, the Windows finder on up to 262144 bytes |
| TlsEncoding.TwoKeySharesDisagree | agents/linux/tls_parse.c:48-67 | With a short key_share before a good one the Linux and Rust finders return different extensions |
| TlsEncoding.TwoKeySharesExample | agents/linux/tls_parse.c:57-66 | One record with one hello, an empty key_share before a good one, on which the two finders return different extensions |
| TlsEncoding.SplitMessageDisagrees | agents/linux/tls_parse.c:163-195 | Whenever a message that is not a hello is split after its header, the Linux finder takes the hello its body looks like and the macOS finder the real hello behind it |
| TlsEncoding.SplitMessageExample | agents/linux/tls_parse.c:163-195 | Two records on which the two finders return well-formed shares of different hellos |
| TlsEncoding.ShortShareDisagrees | agents/linux/tls_parse.c:57-66 | On a hello whose only key_share is too short the Linux finder finds nothing, the macOS and Windows finders that share |
| TlsEncoding.EmptyClientShares | agents/linux/tls_parse.c:20-28 | A ClientHello with empty client_shares has no key on Linux and one on macOS |
| TlsEncoding.RetryDisagrees | agents/macos/ffi/src/tls.rs:60-95 | After a HelloRetryRequest the macOS and Windows finders keep the retry's group as the key, and the Linux finder takes the later ServerHello's share, which is another one |
| TlsEncoding.ServerKeyMatchesClients | agents/linux/tls_parse.c:71-83 | The server's key recomputed from group and public key is the key the client agents derive from the same stream |
| Reassembly.FindOk | agents/linux/pcap_observer.c:169-185 | The stash search only gives up stale stashes and finds the flow's one stash or leaves none |
| Reassembly.ClaimOk | agents/linux/pcap_observer.c:193-214 | A claim evicts the oldest stash only when all 128 are used by other flows |
| Reassembly.StepKeeps | agents/linux/pcap_observer.c:216-334 | One used stash per flow, filled <= needed <= 2048, filled < needed unless deferred, contents made of consecutive segments: kept by every packet |
| Reassembly.ReachableOk | agents/linux/pcap_observer.c:216-334 | That invariant in every run, and every reported record is one complete record with a ClientHello and exactly the bytes of its consecutive segments, or the front of the one segment it was deferred from |
| Reassembly.ReportedRecordIsComplete | agents/linux/pcap_observer.c:216-265 | What is reported from a stash is exactly one complete handshake record |
| Reassembly.ContiguousExactly | agents/linux/packet_view.c:36 | Segments accepted as consecutive are contiguous modulo 2^32 exactly when their TCP headers are equally long |
| Reassembly.AcceptedExactly | agents/linux/packet_view.c:36 | A contiguous segment carries the sequence number the stash waits for exactly when its TCP header is as long as the last one's |
| Reassembly.UnequalHeadersRefused | agents/linux/pcap_observer.c:247-265 | One record in two contiguous segments: with headers of 20 and 32 bytes the second is refused and the stash stays as it was, with equal headers it is taken |
| Reassembly.GatheredIsStreamSlice | agents/linux/pcap_observer.c:216-265 | With equal header lengths the gathered bytes are the stream's own bytes from the first segment on |
| Reassembly.ReportedFromStream | agents/linux/pcap_observer.c:149-167 | In every run a record reported from a stash is the slice of the client's stream at its first segment |
| ReassemblyRuns.CutRecordReported | agents/linux/pcap_observer.c:216-265 | A ClientHello record of at most 2048 bytes cut into consecutive segments is reported exactly once, whole, with its last segment if the socket is found then, and otherwise put aside |
| ReassemblyRuns.CutRecordRecovered | agents/linux/pcap_observer.c:301-334 | A cut record put aside is reported whole at the ServerHello that acknowledges its end on an unchanged socket |
| ReassemblyRuns.PutAsideSettled | agents/linux/pcap_observer.c:316-331 | A record put aside is reported exactly if the ServerHello comes within 10 s, acknowledges its end, and the socket is the same; no stash is left either way |
| ReassemblyRuns.PacketReported | agents/linux/pcap_observer.c:291-299 | A packet with a ClientHello is reported at once if its socket is found, and otherwise its first record is put aside |
| ReassemblyRuns.LatePieceLost | agents/linux/pcap_observer.c:169-185 | A continuation after more than 10 s reports nothing and the stash is given up |
| Observer.PcapObserver.FindStash | agents/linux/pcap_observer.c:169-185 | The loop takes exactly the search step, clearing stale stashes on its way |
| Observer.PcapObserver.ClaimStash | agents/linux/pcap_observer.c:193-214 | The loop picks exactly the slot the claim step picks |
| Observer.PcapObserver.ChFeed | agents/linux/pcap_observer.c:216-265 | The code takes exactly the feeding step |
| Observer.PcapObserver.CaptureFromClient | agents/linux/pcap_observer.c:291-299 | A client packet is reported directly or fed to the stashes |
| Observer.PcapObserver.CaptureServerHello | agents/linux/pcap_observer.c:301-334 | A ServerHello releases the deferred record it acknowledges and clears the flow's deferred stash |
| Batch.SortedExactly | batch/linux/batch.py:120-122 | The check ids == sorted(set(ids)) accepts exactly the strictly increasing lists |
| BatchServer.HandleKeeps | batch/linux/batch.py:97-165 | One connection, whoever makes it, leaves SEEN and ASSIGNED alone or adds exactly one checked manifest to both |
| BatchServer.ReachableOk | batch/linux/batch.py:114-161 | Over any connections: accepted manifests are pairwise disjoint with distinct numbers, each bound by its digest, and ASSIGNED is their union |
| BatchServer.CountsAddUpExactly | batch/linux/batch.py:149-161 | Accepted counts add up to the size of ASSIGNED; those in BATCHES do exactly when no accepted request failed to write its manifest file |
| BatchServer.LostManifestExample | batch/linux/batch.py:149-163 | One request whose manifest file cannot be written: one id is assigned and the log counts none |
| BatchServer.ReplayChangesNothing | batch/linux/batch.py:131-134 | A number already seen is answered exactly when the digest is the same, with the stored reply, and assigns nothing |
| BatchServer.NewNumberAnswer | batch/linux/batch.py:114-164 | A request for a new number is accepted exactly if it is of this epoch with 1 to 10000 strictly increasing, well spelled, unassigned ids observed here too, and the outside does its part |
| BatchServer.MutualNeverReplays | batch/mutual/batch.py:128-129 | The mutual server refuses a number already seen and assigns nothing |
| BatchRuns.StepKeeps | batch/mutual/batch.py:96-263 | Every step of client, server and the messages between them keeps the joint invariant, one-way and mutual |
| BatchRuns.ReachableOk | batch/linux/batch.py:97-237 | The joint invariant holds in every state of every run |
| BatchRuns.AssignmentsAgree | batch/linux/batch.py:149-223 | The server's ASSIGNED is the client's plus the disjoint ids of at most one outstanding request |
| BatchRuns.SettledIsAccepted | batch/mutual/batch.py:222-256 | What the client verifies is the very manifest the server accepted last |
| BatchRuns.RoundCoversExactly | batch/mutual/batch.py:188-256 | A round, one-way or mutual, assigns all it observed exactly when at most 10000 ids are new, the server observed them too, every frame can be read and every other outside step succeeds; otherwise nothing is assigned at the client and it starts no further round |
| BatchRuns.CleanExitCoversAll | batch/linux/batch.py:224-232 | An exit without error leaves every id of the last snapshot in exactly one batch, verified by the client and accepted by the server |
| BatchRuns.StopAnswer | batch/linux/batch.py:224-232 | Asked to stop, the client exits exactly if it is not short of the expected count and all it observes is assigned, fails exactly if short and late, and otherwise goes on |
| BatchRuns.CleanExitDrained | batch/linux/batch.py:225-230 | With an expected count the client exits without error only with that many ids assigned |
| BatchAgent.ServerProcess.CheckRequest | batch/linux/batch.py:115-126 | The assertions accept exactly the well-formed requests |
| BatchAgent.ServerProcess.ServeOneWay | batch/linux/batch.py:108-164 | The code takes exactly the one-way server's step |
| BatchAgent.ServerProcess.GreetClient | batch/mutual/batch.py:107-137 | The code takes exactly the mutual server's step up to its challenge |
| BatchAgent.ServerProcess.ConcludeClient | batch/mutual/batch.py:138-176 | The code takes exactly the mutual server's step from the client's report on |
| BatchAgent.ServerProcess.Record | batch/linux/batch.py:142-164 | Bookkeeping, manifest file, batch entry and reply, in that order, with each failure point |
| BatchAgent.ClientProcess.StartRound | batch/linux/batch.py:176-186 | A round asks for exactly the observed ids that are not yet assigned |
| BatchAgent.ClientProcess.AnswerChallenge | batch/mutual/batch.py:207-220 | The client answers a challenge for its own number, or stops |
| BatchAgent.ClientProcess.FinishRound | batch/linux/batch.py:196-223 | A reply is checked and verified before anything is assigned |
| BatchAgent.ClientProcess.MayStop | batch/linux/batch.py:224-232 | The client exits, waits or raises as the drain rule says |
| WireIo.PairSendsAllOrPrefix | agents/linux/wire_io.c:58-86 | Success sends every byte, failure a proper prefix, and every call but the last that is not interrupted sends at least one byte |
| WireIo.FailureHasCause | agents/linux/wire_io.c:58-86 | A write fails only because the last call failed or took nothing; an interrupt is never the cause |
| WireIo.EmptyPairFails | agents/linux/wire_io.c:58-86 | An empty pair is reported as a failure |
| WireIo.WritersDifferOnEmpty | agents/linux/wire_io.c:44-56 | The two writers agree under every behaviour of the kernel exactly on non-empty input |
| WireIo.Consume | agents/linux/wire_io.c:76-83 | Stepping over the bytes sent leaves exactly the bytes not sent |
| WireIo.Socket.WritePair | agents/linux/wire_io.c:58-86 | first ++ second is on the wire, whole and in order on success and as the prefix sent otherwise |
| WireIo.Socket.WriteAll | agents/linux/wire_io.c:44-56 | The buffer is on the wire, whole on success and as the prefix sent otherwise |
| WireIo.ReaderMirrorsWriter | agents/linux/wire_io.c:30-42 | The reader succeeds exactly when every byte was taken; with all bytes to come it ends as the writer does on the same answers of the kernel, and with fewer it fails |
| WireIo.Receiver.ReadAll | agents/linux/wire_io.c:30-42 | What was taken and what is left are the stream in order, and success and the number of bytes taken are what the kernel's answers lead to |

## Left out

- Sockets, NFQUEUE, libpcap, netlink, nftables and eBPF calls: their results are inputs of the steps.
- SHA-512, SM2 and the CSV report layout: digests and report verification stay uninterpreted.
- Failures of EVP calls and of memory allocation in key derivation and session creation.
- Concrete table hash functions: the theorems hold for every hash into the table.
- The audit-only client mode, deferred-mode logging, CSV output, profiling, counters that are only printed and option parsing.
- Condition-variable waits: each pass of a wait loop is a step, so nothing is said about fairness or real time; bounds are in scans.
- Clock values wrapping at 2^64.
- The server has no time-to-live for entries, so no theorem speaks of reclaiming them.
- The bytes of control messages: messages travel whole or cut short, in order; their fields are not laid out in bytes.
- The `consumed` field of the Rust finder's result and the encrypted-record detectors.
- Reassembly covers one record over several segments. A hello spread over several records is missed by the Linux finder, or another one found in its place (`TlsEncoding.SplitMessageDisagrees`); no operation of the Linux agents joins records.
- Reassembly.ReportedFromStream: speaks of segments with equal TCP header lengths from a stream shorter than 4 GiB, because by ContiguousExactly the accepted segments are not contiguous otherwise.
- ReassemblyRuns.CutRecordReported: the pieces come one after the other, the first with the record's five header bytes, with equal TCP header lengths, and no later one looks like the start of a record, because the code does not gather a record cut otherwise.
- EndToEnd.AdmittedRecordsAgree: one direction only, since a worker may give up before the gate's admission reaches it.
- BatchRuns.CleanExitDrained: the one-way client only, as the mutual one has no expected count.
- Batch request parsing: a frame is a well-typed request or unreadable; the hexadecimal identifiers are numbered in their sort order.
- The Windows and macOS packet gates, their queues and the batch scripts for those systems: smaller copies of the Linux ones.
- `guardian.c`, `firewall_helper.c` and the macOS provider: process plumbing.
