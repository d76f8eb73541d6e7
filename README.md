# Snooping cache-coherence controllers, verified in Dafny

A model of the four per-block cache-coherence controllers of a
trace-driven multiprocessor cache simulator: MSI, MESI, MOSI and MOESI.
Each controller owns one block in one cache and is a finite-state machine
with two entry points:

- `process_cache_request` handles a LOAD or STORE from the cache's own
  processor;
- `process_snoop_request` handles a GETS, GETM or DATA message seen on the
  shared bus.

Each entry point switches on the controller's state and calls a `do_cache_X`
or `do_snoop_X` handler. The handler switches on the message kind. It may
assign the new state, emit bus or processor actions, bump one of the global
simulator counters, or abort on a pair of state and message that cannot
occur.

Project layout:

- `coherence.dfy` (module `Coherence`) holds the shared vocabulary:
  - messages (`Msg`) and request records (`Request`);
  - the emitted actions (`Effect`), one per bus primitive;
  - a handler's transition (`Transition`: `Go(next, effects, count)` or
    `Fatal`) and the `Outcome` an entry point reports;
  - the simulator-wide counters (`Stats`, a class shared by every
    controller).
- `msi.dfy`, `mesi.dfy`, `mosi.dfy`, `moesi.dfy` hold one protocol each:
  - its `State` datatype;
  - its transition tables `CacheStep` and `SnoopStep`, pure functions whose
    contracts state the protocol's rules in terms of a permission `Level`
    (0 none, 1 read, 2 write), the `Pending` permission of a transient
    state, ownership (`Owner`), and for MOSI/MOESI dirtiness (`Dirty`);
  - lemmas over sequences of snoops (`SnoopRun`);
  - the imperative `Controller` class. Its entry points and handlers update
    `state` and the shared counters in place, and each is proved to perform
    exactly the transition its table prescribes.
- `msi_bus.dfy`, `mesi_bus.dfy`, `mosi_bus.dfy`, `moesi_bus.dfy` compose
  controllers over an idealised atomic bus for one block. They prove
  system-wide invariants:
  - single writer (all protocols);
  - at most one owner and at most one data supplier per request (MOSI,
    MOESI).

  The bus behaviour is *assumed*, and written out in each `Access`
  function. A bus request is snooped by every other cache before anything
  else happens. The originator does not snoop its own request. The shared
  line the originator reads is raised exactly when some snooper raised it.
  Exactly one DATA reply then reaches the originator. None of this comes
  from the controller files. It is the modelling assumption under which the
  invariants hold.

Where a handler calls `fatal_error`, the model returns the `Fatal`
transition and the entry point reports `Violation`, changing nothing.
`get_shared_line()` is an input (`sharedLine`) of the MESI/MOESI snoop entry
point.

Three behaviours of the code differ from the common textbook form of these
protocols; the model follows the code:

- In MESI, a STORE in S goes to the transient SM, as the code has it
  (`protocols/MESI_protocol.cpp:103-110`).
- In MESI and MOESI, a LOAD hit in S raises the shared line itself, not
  only when a GETS is snooped.
- In MOSI, a STORE in O records the request's module and address in two
  module-wide variables, not in a per-transaction context.

## Model

| member | source | states |
|---|---|---|
| MSI.CacheStep | protocols/MSI_protocol.cpp:25-118 | Only I, S, M accept an access, and only LOAD/STORE. A miss happens exactly when the state lacks the permission needed. It emits exactly the matching GETS/GETM and moves to a transient state that waits for that permission. A hit keeps the state and only sends data to the processor. There are no silent upgrades and the shared line is never raised. |
| MSI.SnoopStep | protocols/MSI_protocol.cpp:41-190 | In I every message is ignored. Elsewhere a local access is fatal, and so is DATA in a stable state. A stable state stays stable and, short of DATA, permission never rises. A bus request is answered by the owner's (M's) data and by nothing else, so S stays silent on GETS and goes to I without data on GETM. GETM invalidates S and M; GETS leaves S, and M drops to S. In IS/IM, GETS and GETM are ignored. DATA serves the processor and grants the pending permission. |
| MSI.SnoopEffects | protocols/MSI_protocol.cpp:41-190 | A snoop puts at most one message on the bus; the owner, and only the owner, supplies the requester with data; the shared line is never raised. |
| MSI.SnoopsNeverRaise | protocols/MSI_protocol.cpp:120-190 | Any run of snoops from a stable state stays stable and never raises permission. |
| MSI.OutstandingRequestWaits | protocols/MSI_protocol.cpp:125-172 | While a miss is outstanding, any run of other caches' GETS/GETM is survived and the same permission stays pending. |
| MSI.MissCompletes | protocols/MSI_protocol.cpp:63-172 | A miss, then any interleaved GETS/GETM, then DATA, ends in a stable state where the original access hits. |
| MSI.Controller.constructor | protocols/MSI_protocol.cpp:11-15 | A new controller is in I. |
| MSI.Controller.ProcessCacheRequest | protocols/MSI_protocol.cpp:25-39 | The new state, the reported effects and the miss counter are exactly what `CacheStep` prescribes; a transient state is fatal and changes nothing. |
| MSI.Controller.ProcessSnoopRequest | protocols/MSI_protocol.cpp:41-61 | The new state and reported effects are exactly what `SnoopStep` prescribes. |
| MSI.Controller.DoCacheI | protocols/MSI_protocol.cpp:63-85 | LOAD emits GETS and goes to IS; STORE emits GETM and goes to IM; each counts one miss; anything else is fatal. |
| MSI.Controller.DoCacheS | protocols/MSI_protocol.cpp:87-105 | LOAD hits; STORE emits GETM, goes to IM and counts one miss; anything else is fatal. |
| MSI.Controller.DoCacheM | protocols/MSI_protocol.cpp:107-118 | LOAD and STORE hit; anything else is fatal. |
| MSI.Controller.DoSnoopI | protocols/MSI_protocol.cpp:120-123 | Every snoop is a no-op. |
| MSI.Controller.DoSnoopIS | protocols/MSI_protocol.cpp:125-140 | GETS/GETM are ignored; DATA serves the processor and goes to S; anything else is fatal. |
| MSI.Controller.DoSnoopS | protocols/MSI_protocol.cpp:142-155 | GETS is silent; GETM invalidates without data; anything else is fatal. |
| MSI.Controller.DoSnoopIM | protocols/MSI_protocol.cpp:157-172 | GETS/GETM are ignored; DATA serves the processor and goes to M; anything else is fatal. |
| MSI.Controller.DoSnoopM | protocols/MSI_protocol.cpp:174-190 | GETS supplies data to the requester and drops to S; GETM supplies data and goes to I; anything else is fatal. |
| MSIBus.BusRequest | protocols/MSI_protocol.cpp:63-105 | The request delivered on the bus is the GETS/GETM the missing controller emitted, for the same block, tagged with the requester. |
| MSIBus.SnoopOthers | protocols/MSI_protocol.cpp:41-61 | Broadcasting a bus request leaves the requester untouched. From stable copies it keeps every copy stable and raises no permission, and a GETM invalidates every other copy. |
| MSIBus.Access | protocols/MSI_protocol.cpp:63-190 | From stable copies, a completed access leaves the accessing cache with the permission it needed (read for LOAD, write for STORE), and no other cache gains permission. |
| MSIBus.WriteMissOutcome | protocols/MSI_protocol.cpp:63-105 | A write miss ends with the writer in M and every other copy invalid. |
| MSIBus.ReadMissOutcome | protocols/MSI_protocol.cpp:63-85 | A read miss starts from I; the reader ends in S; every other valid copy ends in S. |
| MSIBus.ReadMissShape | protocols/MSI_protocol.cpp:63-190 | The configuration a read miss produces satisfies the invariant (every copy stable and a cache with write permission the only holder). |
| MSIBus.HitKeepsSingleWriter | protocols/MSI_protocol.cpp:87-118 | A hit keeps the invariant (every copy stable and a cache with write permission the only holder). |
| MSIBus.AccessKeepsSingleWriter | protocols/MSI_protocol.cpp:63-190 | A completed access keeps the invariant (every copy stable and a cache with write permission the only holder). |
| MSIBus.Run | protocols/MSI_protocol.cpp:25-39 | Processor accesses through the cache entry point, each run to completion on the atomic bus assumed for `Access` before the next begins, keep the number of caches; what they preserve is stated by `RunKeepsSingleWriter`. |
| MSIBus.RunKeepsSingleWriter | protocols/MSI_protocol.cpp:63-190 | Every sequence of accesses keeps the invariant. |
| MSIBus.InitiallySingleWriter | protocols/MSI_protocol.cpp:11-15 | All caches in I satisfy the invariant. |
| MESI.CacheStep | protocols/MESI_protocol.cpp:25-146 | Only I, S, E, M accept an access, and only LOAD/STORE. A miss happens exactly when permission is lacking; it emits the matching GETS/GETM and waits for that permission. A write miss from I goes to IM; an upgrade from S keeps its copy while it waits (SM). STORE in E, and nothing else, is a silent upgrade to M. A hit or the silent upgrade emits exactly the reply to the processor, preceded by the shared-line signal for a LOAD in S. |
| MESI.SnoopStep | protocols/MESI_protocol.cpp:44-261 | In I everything is ignored. Elsewhere a local access is fatal, and so is DATA in a stable state. Permission never rises short of DATA. A bus request is answered by exactly the owner's (E's or M's) data, followed on GETS by the shared-line signal of a valid copy (S, E, M, SM); S answers GETM with nothing. GETM invalidates stable copies; GETS leaves S (E and M drop to S). A GETM in SM demotes it to IM. DATA takes IM and SM to M, and ISE to S exactly when the shared line is set, else E. |
| MESI.SnoopEffects | protocols/MESI_protocol.cpp:44-261 | A snoop puts at most one message on the bus; the owner, and only the owner, supplies the requester with data; exactly the valid copies raise the shared line, and only on GETS. |
| MESI.SnoopIMAsWritten | protocols/MESI_protocol.cpp:207-222 | IM as written: GETS/GETM ignored, DATA to M, and every other message silently ignored as well. |
| MESI.SnoopIMAsWrittenIgnoresLocalAccess | protocols/MESI_protocol.cpp:217-220 | As written, a LOAD/STORE snooped in IM is a silent no-op, where the corrected table reports a violation. |
| MESI.SnoopsNeverRaise | protocols/MESI_protocol.cpp:148-205 | Any run of snoops from a stable state stays stable and never raises permission. |
| MESI.OutstandingRequestWaits | protocols/MESI_protocol.cpp:207-261 | While a miss is outstanding, any run of GETS/GETM keeps the same permission pending. |
| MESI.MissCompletes | protocols/MESI_protocol.cpp:72-261 | A miss, then any interleaved GETS/GETM, then DATA (shared line either way), ends where the original access hits. |
| MESI.Controller.constructor | protocols/MESI_protocol.cpp:11-15 | A new controller is in I. |
| MESI.Controller.ProcessCacheRequest | protocols/MESI_protocol.cpp:25-42 | State, effects, miss and silent-upgrade counters are exactly what `CacheStep` prescribes. |
| MESI.Controller.ProcessSnoopRequest | protocols/MESI_protocol.cpp:44-70 | State and effects are exactly what `SnoopStep` prescribes for the given shared-line value. |
| MESI.Controller.DoCacheI | protocols/MESI_protocol.cpp:72-94 | LOAD emits GETS and goes to ISE; STORE emits GETM and goes to IM; one miss each; else fatal. |
| MESI.Controller.DoCacheS | protocols/MESI_protocol.cpp:96-115 | LOAD raises the shared line and hits; STORE emits GETM, goes to SM, one miss; else fatal. |
| MESI.Controller.DoCacheE | protocols/MESI_protocol.cpp:117-133 | LOAD hits; STORE serves, goes to M and counts one silent upgrade, no miss; else fatal. |
| MESI.Controller.DoCacheM | protocols/MESI_protocol.cpp:135-146 | LOAD and STORE hit; else fatal. |
| MESI.Controller.DoSnoopI | protocols/MESI_protocol.cpp:148-151 | Every snoop is a no-op. |
| MESI.Controller.DoSnoopS | protocols/MESI_protocol.cpp:153-167 | GETS raises the shared line; GETM invalidates without data; else fatal. |
| MESI.Controller.DoSnoopE | protocols/MESI_protocol.cpp:169-186 | GETS supplies data, raises the shared line, drops to S; GETM supplies data, goes to I; else fatal. |
| MESI.Controller.DoSnoopM | protocols/MESI_protocol.cpp:188-205 | GETS supplies data, raises the shared line, drops to S; GETM supplies data, goes to I; else fatal. |
| MESI.Controller.DoSnoopIM | protocols/MESI_protocol.cpp:207-222 | GETS/GETM ignored; DATA serves the processor and goes to M; else fatal (the corrected behaviour, see Findings). |
| MESI.Controller.DoSnoopISE | protocols/MESI_protocol.cpp:224-242 | GETS/GETM ignored; DATA serves and goes to S if the shared line is set, else E; else fatal. |
| MESI.Controller.DoSnoopSM | protocols/MESI_protocol.cpp:244-261 | GETS raises the shared line; GETM demotes to IM; DATA serves and goes to M; else fatal. |
| MESI.TwoReadersScenario | protocols/MESI_protocol.cpp:72-242 | Cache A reads alone and ends in E; cache B then reads; A supplies and drops to S; B's DATA arrives with the shared line set. Both end in S after two misses and no silent upgrade. |
| MESIBus.BusRequest | protocols/MESI_protocol.cpp:72-115 | The request delivered on the bus is the GETS/GETM the missing controller emitted, for the same block, tagged with the requester. |
| MESIBus.SharedLineMeansCopy | protocols/MESI_protocol.cpp:153-205 | On a GETS snooped by stable caches, the shared line is raised exactly when another cache holds a copy. |
| MESIBus.SnoopOthers | protocols/MESI_protocol.cpp:44-70 | Broadcasting a bus request leaves the requester untouched. From stable copies it keeps every copy stable and raises no permission, and a GETM invalidates every other copy. |
| MESIBus.Access | protocols/MESI_protocol.cpp:72-261 | From stable copies, a completed access leaves the accessing cache with the permission it needed (read for LOAD, write for STORE), and no other cache gains permission. |
| MESIBus.WriteMissOutcome | protocols/MESI_protocol.cpp:72-115 | A write miss ends with the writer in M and every other copy invalid. |
| MESIBus.ReadMissOutcome | protocols/MESI_protocol.cpp:224-242 | A read miss starts from I; the reader ends in S if another cache held a copy and in E otherwise; every other valid copy ends in S. |
| MESIBus.ReadMissShape | protocols/MESI_protocol.cpp:72-261 | The configuration a read miss produces satisfies the invariant (every copy stable and a cache with write permission the only holder). |
| MESIBus.HitKeepsSingleWriter | protocols/MESI_protocol.cpp:96-146 | A hit or the silent upgrade (E to M) keeps the invariant (every copy stable and a cache with write permission the only holder). |
| MESIBus.AccessKeepsSingleWriter | protocols/MESI_protocol.cpp:72-261 | A completed access keeps the invariant (every copy stable and a cache with write permission the only holder). |
| MESIBus.Run | protocols/MESI_protocol.cpp:25-42 | Processor accesses through the cache entry point, each run to completion on the atomic bus assumed for `Access` before the next begins, keep the number of caches; what they preserve is stated by `RunKeepsSingleWriter`. |
| MESIBus.RunKeepsSingleWriter | protocols/MESI_protocol.cpp:72-261 | Every sequence of accesses keeps the invariant. |
| MESIBus.InitiallySingleWriter | protocols/MESI_protocol.cpp:11-15 | All caches in I satisfy the invariant. |
| MOSI.CacheStep | protocols/MOSI_protocol.cpp:26-149 | Only I, S, O, M accept an access, and only LOAD/STORE. A miss happens exactly when permission is lacking; it emits the matching GETS/GETM and waits for it, and an owner (O) stays owner (OM). There are no silent upgrades and no shared line. A hit keeps the state and only serves the processor. |
| MOSI.SnoopStep | protocols/MOSI_protocol.cpp:45-258 | In I everything is ignored. Elsewhere a local access is fatal, and so is DATA in a stable state. Permission never rises short of DATA. A bus request is answered by the owner's (O's, M's or OM's) data and by nothing else, so S is silent on GETS and goes to I without data on GETM. GETM invalidates stable copies. GETS leaves a dirty copy in O and a clean one in S. In OM, a GETM demotes to IM. DATA takes IS to S, and IM and OM to M. |
| MOSI.SnoopEffects | protocols/MOSI_protocol.cpp:45-258 | A snoop puts at most one message on the bus; the owner, and only the owner, supplies the requester with data; the shared line is never raised. |
| MOSI.SnoopsNeverRaise | protocols/MOSI_protocol.cpp:151-204 | Any run of snoops from a stable state stays stable and never raises permission. |
| MOSI.OutstandingRequestWaits | protocols/MOSI_protocol.cpp:206-258 | While a miss is outstanding, any run of GETS/GETM keeps the same permission pending. |
| MOSI.MissCompletes | protocols/MOSI_protocol.cpp:73-258 | A miss, then any interleaved GETS/GETM, then DATA, ends where the original access hits. |
| MOSI.OmScratch.constructor | protocols/MOSI_protocol.cpp:7-8 | The module-wide requester and address start at zero, as C++ zero-initialises globals. |
| MOSI.Controller.constructor | protocols/MOSI_protocol.cpp:13-16 | A new controller is in I. |
| MOSI.Controller.ProcessCacheRequest | protocols/MOSI_protocol.cpp:26-43 | State, effects and miss counter are exactly what `CacheStep` prescribes. The scratch record is written exactly when the access moves to OM. |
| MOSI.Controller.ProcessSnoopRequest | protocols/MOSI_protocol.cpp:45-71 | State and effects are exactly what `SnoopStep` prescribes. |
| MOSI.Controller.DoCacheI | protocols/MOSI_protocol.cpp:73-95 | LOAD emits GETS and goes to IS; STORE emits GETM and goes to IM; one miss each; else fatal. |
| MOSI.Controller.DoCacheS | protocols/MOSI_protocol.cpp:97-115 | LOAD hits; STORE emits GETM, goes to IM, one miss; else fatal. |
| MOSI.Controller.DoCacheO | protocols/MOSI_protocol.cpp:117-136 | LOAD hits; STORE emits GETM, records the request's module and address, goes to OM, one miss; else fatal. |
| MOSI.Controller.DoCacheM | protocols/MOSI_protocol.cpp:138-149 | LOAD and STORE hit; else fatal. |
| MOSI.Controller.DoSnoopI | protocols/MOSI_protocol.cpp:151-154 | Every snoop is a no-op. |
| MOSI.Controller.DoSnoopS | protocols/MOSI_protocol.cpp:156-169 | GETS is silent; GETM invalidates without data; else fatal. |
| MOSI.Controller.DoSnoopO | protocols/MOSI_protocol.cpp:171-186 | GETS supplies data and stays O; GETM supplies data and goes to I; else fatal. |
| MOSI.Controller.DoSnoopM | protocols/MOSI_protocol.cpp:188-204 | GETS supplies data and goes to O; GETM supplies data and goes to I; else fatal. |
| MOSI.Controller.DoSnoopIM | protocols/MOSI_protocol.cpp:206-220 | GETS/GETM ignored; DATA serves and goes to M; else fatal. |
| MOSI.Controller.DoSnoopIS | protocols/MOSI_protocol.cpp:222-238 | GETS/GETM ignored; DATA serves and goes to S; else fatal. |
| MOSI.Controller.DoSnoopOM | protocols/MOSI_protocol.cpp:240-258 | GETS supplies data and stays OM; GETM supplies data and goes to IM; DATA serves and goes to M; else fatal. |
| MOSI.OwnedReadScenario | protocols/MOSI_protocol.cpp:117-136 | A cache that reached O (write miss, DATA, then a snooped GETS) serves a LOAD with no bus message and no further miss. |
| MOSIBus.BusRequest | protocols/MOSI_protocol.cpp:73-136 | The request delivered on the bus is the GETS/GETM the missing controller emitted, for the same block, tagged with the requester. |
| MOSIBus.AtMostOneSupplier | protocols/MOSI_protocol.cpp:151-204 | In a coherent configuration, at most one cache answers a bus request with data, and one does exactly when another cache holds a dirty copy (O or M). |
| MOSIBus.SnoopOthers | protocols/MOSI_protocol.cpp:45-71 | Broadcasting a bus request leaves the requester untouched. From stable copies it keeps every copy stable and raises no permission, and a GETM invalidates every other copy. |
| MOSIBus.Access | protocols/MOSI_protocol.cpp:73-258 | From stable copies, a completed access leaves the accessing cache with the permission it needed (read for LOAD, write for STORE), and no other cache gains permission. |
| MOSIBus.WriteMissOutcome | protocols/MOSI_protocol.cpp:73-136 | A write miss ends with the writer in M and every other copy invalid. |
| MOSIBus.ReadMissOutcome | protocols/MOSI_protocol.cpp:222-238 | A read miss starts from I; the reader ends in S; every other valid copy keeps read permission only, a dirty one as O. |
| MOSIBus.ReadMissShape | protocols/MOSI_protocol.cpp:73-258 | The configuration a read miss produces satisfies the invariant (all copies stable, a single writer and at most one owner). |
| MOSIBus.HitKeepsCoherent | protocols/MOSI_protocol.cpp:97-149 | A hit keeps the invariant (all copies stable, a single writer and at most one owner). |
| MOSIBus.AccessKeepsCoherent | protocols/MOSI_protocol.cpp:73-258 | A completed access keeps the invariant (all copies stable, a single writer and at most one owner). |
| MOSIBus.Run | protocols/MOSI_protocol.cpp:26-43 | Processor accesses through the cache entry point, each run to completion on the atomic bus assumed for `Access` before the next begins, keep the number of caches; what they preserve is stated by `RunKeepsCoherent`. |
| MOSIBus.RunKeepsCoherent | protocols/MOSI_protocol.cpp:73-258 | Every sequence of accesses keeps the invariant. |
| MOSIBus.InitiallyCoherent | protocols/MOSI_protocol.cpp:13-16 | All caches in I satisfy the invariant. |
| MOESI.CacheStep | protocols/MOESI_protocol.cpp:24-165 | Only I, S, E, O, M accept an access, and only LOAD/STORE. A miss happens exactly when permission is lacking; it emits the matching GETS/GETM and waits for it. A write miss from I goes to IM; an upgrade keeps its copy and its ownership while it waits (S to SM, O to OM). STORE in E, and nothing else, is a silent upgrade to M. A hit or the silent upgrade emits exactly the reply to the processor, preceded by the shared-line signal for a LOAD in S. |
| MOESI.SnoopStep | protocols/MOESI_protocol.cpp:46-306 | In I everything is ignored. Elsewhere a local access is fatal, and so is DATA in a stable state. Permission never rises short of DATA. A bus request is answered by exactly the owner's (E's, O's, M's or OM's) data, followed on GETS by the shared-line signal of a valid copy (S, E, O, M, SM, OM); S answers GETM with nothing. GETM invalidates stable copies. GETS leaves a dirty copy in O and a clean one in S. In SM/OM a GETM demotes to IM. DATA takes IM, SM and OM to M, and ISE to S exactly when the shared line is set, else E. |
| MOESI.SnoopEffects | protocols/MOESI_protocol.cpp:46-306 | A snoop puts at most one message on the bus; the owner, and only the owner, supplies the requester with data; exactly the valid copies raise the shared line, and only on GETS. |
| MOESI.SnoopsNeverRaise | protocols/MOESI_protocol.cpp:167-233 | Any run of snoops from a stable state stays stable and never raises permission. |
| MOESI.OutstandingRequestWaits | protocols/MOESI_protocol.cpp:235-306 | While a miss is outstanding, any run of GETS/GETM keeps the same permission pending. |
| MOESI.MissCompletes | protocols/MOESI_protocol.cpp:80-306 | A miss, then any interleaved GETS/GETM, then DATA (shared line either way), ends where the original access hits. |
| MOESI.Controller.constructor | protocols/MOESI_protocol.cpp:11-14 | A new controller is in I. |
| MOESI.Controller.ProcessCacheRequest | protocols/MOESI_protocol.cpp:24-44 | State, effects, miss and silent-upgrade counters are exactly what `CacheStep` prescribes. |
| MOESI.Controller.ProcessSnoopRequest | protocols/MOESI_protocol.cpp:46-78 | State and effects are exactly what `SnoopStep` prescribes for the given shared-line value. |
| MOESI.Controller.DoCacheI | protocols/MOESI_protocol.cpp:80-98 | LOAD emits GETS and goes to ISE; STORE emits GETM and goes to IM; one miss each; else fatal. |
| MOESI.Controller.DoCacheS | protocols/MOESI_protocol.cpp:100-117 | LOAD raises the shared line and hits; STORE emits GETM, goes to SM, one miss; else fatal. |
| MOESI.Controller.DoCacheE | protocols/MOESI_protocol.cpp:119-135 | LOAD hits; STORE serves, goes to M, one silent upgrade and no miss; else fatal. |
| MOESI.Controller.DoCacheO | protocols/MOESI_protocol.cpp:137-153 | LOAD hits; STORE emits GETM, goes to OM, one miss; else fatal. |
| MOESI.Controller.DoCacheM | protocols/MOESI_protocol.cpp:155-165 | LOAD and STORE hit; else fatal. |
| MOESI.Controller.DoSnoopI | protocols/MOESI_protocol.cpp:167-169 | Every snoop is a no-op. |
| MOESI.Controller.DoSnoopS | protocols/MOESI_protocol.cpp:171-183 | GETS raises the shared line; GETM invalidates without data; else fatal. |
| MOESI.Controller.DoSnoopE | protocols/MOESI_protocol.cpp:185-200 | GETS supplies data, raises the shared line, drops to S; GETM supplies data, goes to I; else fatal. |
| MOESI.Controller.DoSnoopO | protocols/MOESI_protocol.cpp:202-216 | GETS supplies data, raises the shared line, stays O; GETM supplies data, goes to I; else fatal. |
| MOESI.Controller.DoSnoopM | protocols/MOESI_protocol.cpp:218-233 | GETS supplies data, raises the shared line, goes to O; GETM supplies data, goes to I; else fatal. |
| MOESI.Controller.DoSnoopIM | protocols/MOESI_protocol.cpp:235-248 | GETS/GETM ignored; DATA serves and goes to M; else fatal. |
| MOESI.Controller.DoSnoopISE | protocols/MOESI_protocol.cpp:250-268 | GETS/GETM ignored; DATA serves and goes to S if the shared line is set, else E; else fatal. |
| MOESI.Controller.DoSnoopOM | protocols/MOESI_protocol.cpp:270-288 | GETS supplies data and raises the shared line; GETM supplies data and demotes to IM; DATA serves and goes to M; else fatal. |
| MOESI.Controller.DoSnoopSM | protocols/MOESI_protocol.cpp:290-306 | GETS raises the shared line; GETM demotes to IM; DATA serves and goes to M; else fatal. |
| MOESI.ReadersThenWriterScenario | protocols/MOESI_protocol.cpp:80-306 | Two caches read in turn and both end in S after two misses. The second then writes: it misses from S to SM, the first is invalidated, and DATA takes the writer to M. The end is A in I, B in M, three misses. |
| MOESIBus.BusRequest | protocols/MOESI_protocol.cpp:80-153 | The request delivered on the bus is the GETS/GETM the missing controller emitted, for the same block, tagged with the requester. |
| MOESIBus.AtMostOneSupplier | protocols/MOESI_protocol.cpp:171-233 | In a coherent configuration, at most one cache answers a bus request with data, and one does exactly when another cache owns the block (E, O or M). |
| MOESIBus.SharedLineMeansCopy | protocols/MOESI_protocol.cpp:171-233 | On a GETS snooped by stable caches, the shared line is raised exactly when another cache holds a copy. |
| MOESIBus.SnoopOthers | protocols/MOESI_protocol.cpp:46-78 | Broadcasting a bus request leaves the requester untouched. From stable copies it keeps every copy stable and raises no permission, and a GETM invalidates every other copy. |
| MOESIBus.Access | protocols/MOESI_protocol.cpp:80-306 | From stable copies, a completed access leaves the accessing cache with the permission it needed (read for LOAD, write for STORE), and no other cache gains permission. |
| MOESIBus.WriteMissOutcome | protocols/MOESI_protocol.cpp:80-153 | A write miss ends with the writer in M and every other copy invalid. |
| MOESIBus.ReadMissOutcome | protocols/MOESI_protocol.cpp:250-268 | A read miss starts from I; the reader ends in S if another cache held a copy and in E otherwise; every other valid copy keeps read permission only, a dirty one as O. |
| MOESIBus.ReadMissShape | protocols/MOESI_protocol.cpp:80-306 | The configuration a read miss produces satisfies the invariant (all copies stable, a single writer and at most one owner). |
| MOESIBus.HitKeepsCoherent | protocols/MOESI_protocol.cpp:100-165 | A hit or the silent upgrade (E to M) keeps the invariant (all copies stable, a single writer and at most one owner). |
| MOESIBus.AccessKeepsCoherent | protocols/MOESI_protocol.cpp:80-306 | A completed access keeps the invariant (all copies stable, a single writer and at most one owner). |
| MOESIBus.Run | protocols/MOESI_protocol.cpp:24-44 | Processor accesses through the cache entry point, each run to completion on the atomic bus assumed for `Access` before the next begins, keep the number of caches; what they preserve is stated by `RunKeepsCoherent`. |
| MOESIBus.RunKeepsCoherent | protocols/MOESI_protocol.cpp:80-306 | Every sequence of accesses keeps the invariant. |
| MOESIBus.InitiallyCoherent | protocols/MOESI_protocol.cpp:11-14 | All caches in I satisfy the invariant. |

## Left out

- `dump()` in each protocol: diagnostic output to stderr, and its label array has no entry for the transient states.
- The text of `fatal_error` messages and the `print_msg` calls before them: I/O. The model reports an abstract `Violation` and leaves the state unchanged. The source aborts the run.
- The bus primitives (`send_GETS`, `send_GETM`, `send_DATA_on_bus`, `send_DATA_to_proc`, `set_shared_line`, `get_shared_line`) are foreign code. They become `Effect` values, listed in emission order. The shared line read is an input.
- The `Protocol` base class, `Hash_table`/`Hash_entry` and the `Simulator` object are not part of this model. Only the two counters the controllers bump are kept, in `Stats`.
- A state tag outside the enumeration, which the entry points' `default` branches would report as fatal, cannot be represented. `ProcessCacheRequest` still reports every transient state as a violation.
- Message kinds other than LOAD, STORE, GETS, GETM and DATA are not represented. Every handler's `default` branch is modelled for the five kinds it can meet.
- The counters are unbounded naturals; the overflow of the source's integer counters is not modelled.
- The simulation loop, timing, and the order in which the bus delivers messages are not part of the controllers. The bus modules assume an atomic bus, stated in their `Access` functions, rather than modelling one.
- Memory as a data supplier, and the data values themselves, are not modelled: the invariants speak of permissions and ownership, not of values.
- `om_mid`/`om_addr` are recorded but never read by the controllers, so the model only states when they are written.
- The destructor does nothing and is not modelled.

## Findings

| source | as written | input that shows it | evidently intended | confidence | as-written member | corrected member |
|---|---|---|---|---|---|---|
| protocols/MESI_protocol.cpp:217-220 | In `do_snoop_IM`, the `default` case begins with `break`, so the error report and `fatal_error` after it are unreachable. Any message other than GETS, GETM and DATA is silently ignored in IM. | A LOAD or STORE handed to the snoop entry point while the block is in IM: no effect, no error. | Report the unexpected message as a protocol violation, as every other handler does. | medium, not executed | MESI.SnoopIMAsWritten (shown by MESI.SnoopIMAsWrittenIgnoresLocalAccess) | MESI.SnoopStep |
