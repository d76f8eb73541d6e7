/**
  Types shared by the four snooping cache-coherence controllers (MSI, MESI,
  MOSI, MOESI): the messages a controller is handed, the actions it emits on
  the bus or towards its processor, the transition a handler takes, and the
  simulator-wide statistics it bumps.
 */
module Coherence {

  /** A physical block address (the simulator's paddr_t). */
  type Addr = nat

  /** The identity of a cache module on the bus (the simulator's ModuleID). */
  type ModuleId = nat

  /** The kinds of message a controller is handed: two local accesses from its
      processor and three messages observed on the bus. */
  datatype Msg = Load | Store | GetS | GetM | Data {

    /** A processor access, handled by the cache-request entry point. */
    predicate IsLocal() {
      this == Load || this == Store
    }

    /** A read-shared or read-exclusive request of some cache on the bus. */
    predicate IsBusRequest() {
      this == GetS || this == GetM
    }
  }

  /** A request record: its kind, the block address and the cache that
      originated it (used to address a data reply). */
  datatype Request = Request(msg: Msg, addr: Addr, srcMid: ModuleId)

  /** What a handler emits through the bus primitives, in emission order. */
  datatype Effect =
    | SendGetS(addr: Addr)
    | SendGetM(addr: Addr)
    | SendDataOnBus(addr: Addr, dest: ModuleId)
    | SendDataToProc(addr: Addr)
    | SetSharedLine
  {
    /** A message put on the shared bus (as opposed to a reply to the own
        processor or a pulse on the wired-OR shared line). */
    predicate OnBus() {
      SendGetS? || SendGetM? || SendDataOnBus?
    }
  }

  /** At most one message is put on the bus. */
  predicate AtMostOneOnBus(es: seq<Effect>) {
    forall i, j :: 0 <= i < j < |es| && es[i].OnBus() ==> !es[j].OnBus()
  }

  /** Nothing is put on the bus. */
  predicate Quiet(es: seq<Effect>) {
    forall i :: 0 <= i < |es| ==> !es[i].OnBus()
  }

  /** The bus request a miss on local access `r` has to issue: GETS to read,
      GETM to write. */
  function BusRequestFor(r: Request): Effect
    requires r.msg.IsLocal()
  {
    if r.msg == Load then SendGetS(r.addr) else SendGetM(r.addr)
  }

  /** The permission a local access needs: 1 to read, 2 to write. Each
      protocol grades its states on the same scale (its `Level`). */
  function Required(m: Msg): nat
    requires m.IsLocal()
  {
    if m == Load then 1 else 2
  }

  /** Which simulator counter a transition bumps. */
  datatype Counter = NoCount | Miss | SilentUpgrade

  /** The outcome of one handler call in state `S`: either the next state,
      the effects emitted and the counter bumped, or a protocol violation
      (the source's fatal_error), which emits and changes nothing. */
  datatype Transition<S> = Go(next: S, effects: seq<Effect>, count: Counter) | Fatal {

    /** The controller state after the call, starting from `s`. */
    function After(s: S): S {
      if Go? then next else s
    }

    /** The effects emitted; none on a protocol violation. */
    function Emits(): seq<Effect> {
      if Go? then effects else []
    }

    /** What the caller of the entry point observes. */
    function Report(): Outcome {
      if Go? then Done(effects) else Violation
    }

    /** By how much the miss counter grows. */
    function Misses(): nat {
      if Go? && count == Miss then 1 else 0
    }

    /** By how much the silent-upgrade counter grows. */
    function Upgrades(): nat {
      if Go? && count == SilentUpgrade then 1 else 0
    }
  }

  /** The result an entry point returns in place of aborting the run. */
  datatype Outcome = Done(effects: seq<Effect>) | Violation

  /** The simulator-wide statistics (the source's global Sim->cache_misses and
      Sim->silent_upgrades), shared by every controller of every cache. */
  class Stats {
    var cacheMisses: nat
    var silentUpgrades: nat

    constructor ()
      ensures cacheMisses == 0 && silentUpgrades == 0
    {
      cacheMisses := 0;
      silentUpgrades := 0;
    }
  }

  datatype Option<T> = None | Some(value: T)
}
