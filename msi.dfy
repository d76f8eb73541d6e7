/**
  The MSI controller of one cache block: stable states I, S, M and the
  transient states IS and IM, which wait for the data answering the GETS or
  GETM the controller issued.
 */
module MSI {
  import opened Coherence

  datatype State = I | S | M | IS | IM {
    /** A state the block may rest in; the others wait for DATA. */
    predicate Stable() {
      this == I || this == S || this == M
    }
  }

  /** The local accesses a state serves without a bus transaction:
      0 none, 1 LOAD, 2 LOAD and STORE. */
  function Level(s: State): nat {
    match s
    case S => 1
    case M => 2
    case _ => 0
  }

  /** The level the outstanding request of a transient state asked for. */
  function Pending(s: State): nat {
    match s
    case IS => 1
    case IM => 2
    case _ => 0
  }

  /** The state holding the authoritative copy, which answers GETS and GETM
      with data on the bus. */
  predicate Owner(s: State) {
    s == M
  }

  /** The transition table of process_cache_request and its do_cache_*
      handlers. */
  function CacheStep(s: State, r: Request): (t: Transition<State>)
    // only a stable state accepts a processor access, and only LOAD or STORE
    ensures t.Fatal? <==> !s.Stable() || !r.msg.IsLocal()
    ensures t.Go? ==> t.count != SilentUpgrade && AtMostOneOnBus(t.effects) && SetSharedLine !in t.effects
    // a miss is exactly an access the state has no permission for
    ensures t.Go? ==> (t.count == Miss <==> Level(s) < Required(r.msg))
    // a miss issues one bus request and waits for the permission it asked for
    ensures t.Go? && t.count == Miss ==>
      t.effects == [BusRequestFor(r)] && !t.next.Stable() && Pending(t.next) == Required(r.msg)
    // a hit serves the processor and changes nothing
    ensures t.Go? && t.count != Miss ==> t.next == s && t.effects == [SendDataToProc(r.addr)]
  {
    match s
    case I =>
      (match r.msg
       case Load => Go(IS, [SendGetS(r.addr)], Miss)
       case Store => Go(IM, [SendGetM(r.addr)], Miss)
       case _ => Fatal)
    case S =>
      (match r.msg
       case Load => Go(S, [SendDataToProc(r.addr)], NoCount)
       case Store => Go(IM, [SendGetM(r.addr)], Miss)
       case _ => Fatal)
    case M =>
      (match r.msg
       case Load | Store => Go(M, [SendDataToProc(r.addr)], NoCount)
       case _ => Fatal)
    case _ => Fatal
  }

  /** The transition table of process_snoop_request and its do_snoop_*
      handlers. */
  function SnoopStep(s: State, r: Request): (t: Transition<State>)
    // in I everything is ignored; elsewhere a local access, or DATA in a
    // stable state, is fatal
    ensures t.Fatal? <==> s != I && (r.msg.IsLocal() || (s.Stable() && r.msg == Data))
    ensures s == I ==> t == Go(I, [], NoCount)
    ensures t.Go? ==> t.count == NoCount
    // a snoop never takes a stable state to a transient one ...
    ensures t.Go? && s.Stable() ==> t.next.Stable()
    // ... and, short of the awaited DATA, never raises permission
    ensures t.Go? && r.msg != Data ==> Level(t.next) <= Level(s)
    // a bus request is answered by the owner's data and by nothing else
    ensures t.Go? && r.msg.IsBusRequest() ==>
      t.effects == (if Owner(s) then [SendDataOnBus(r.addr, r.srcMid)] else [])
    // GETM invalidates every stable copy; GETS leaves a valid copy read-only
    ensures s.Stable() && r.msg == GetM ==> t.Go? && t.next == I
    ensures s.Stable() && s != I && r.msg == GetS ==> t.Go? && Level(t.next) == 1
    // with a request outstanding, other caches' GETS and GETM are ignored
    ensures !s.Stable() && r.msg.IsBusRequest() ==> t == Go(s, [], NoCount)
    // DATA completes the outstanding request with the permission asked for
    ensures !s.Stable() && r.msg == Data ==>
      t.Go? && t.effects == [SendDataToProc(r.addr)] && t.next.Stable() && Level(t.next) == Pending(s)
  {
    match s
    case I => Go(I, [], NoCount)
    case IS =>
      (match r.msg
       case GetM | GetS => Go(IS, [], NoCount)
       case Data => Go(S, [SendDataToProc(r.addr)], NoCount)
       case _ => Fatal)
    case S =>
      (match r.msg
       case GetM => Go(I, [], NoCount)
       case GetS => Go(S, [], NoCount)
       case _ => Fatal)
    case IM =>
      (match r.msg
       case GetM | GetS => Go(IM, [], NoCount)
       case Data => Go(M, [SendDataToProc(r.addr)], NoCount)
       case _ => Fatal)
    case M =>
      (match r.msg
       case GetM => Go(I, [SendDataOnBus(r.addr, r.srcMid)], NoCount)
       case GetS => Go(S, [SendDataOnBus(r.addr, r.srcMid)], NoCount)
       case _ => Fatal)
  }

  /** What a snoop puts on the bus: at most one message, data from the
      owner and from nobody else. */
  lemma SnoopEffects(s: State, r: Request)
    ensures SnoopStep(s, r).Go? ==> AtMostOneOnBus(SnoopStep(s, r).effects)
    // the owner, and only the owner, supplies the requester with data
    ensures SnoopStep(s, r).Go? && r.msg.IsBusRequest() ==>
      (SendDataOnBus(r.addr, r.srcMid) in SnoopStep(s, r).effects <==> Owner(s))
    // the shared line is never raised
    ensures SnoopStep(s, r).Go? ==> SetSharedLine !in SnoopStep(s, r).effects
  {
  }

  /** The state after snooping `rs` in order from `s`; None once one of them
      is fatal. */
  function SnoopRun(s: State, rs: seq<Request>): Option<State>
    decreases |rs|
  {
    if rs == [] then Some(s)
    else
      match SnoopStep(s, rs[0])
      case Fatal => None
      case Go(next, _, _) => SnoopRun(next, rs[1..])
  }

  /** Whatever a controller resting in a stable state snoops, it stays stable
      and its permission never grows. */
  lemma {:induction false} SnoopsNeverRaise(s: State, rs: seq<Request>)
    requires s.Stable()
    decreases |rs|
    ensures SnoopRun(s, rs).Some? ==>
      SnoopRun(s, rs).value.Stable() && Level(SnoopRun(s, rs).value) <= Level(s)
  {
    if rs != [] {
      var t := SnoopStep(s, rs[0]);
      if t.Go? {
        SnoopsNeverRaise(t.next, rs[1..]);
      }
    }
  }

  /** While its request is outstanding, a controller survives any number of
      other caches' GETS and GETM and keeps waiting for the same permission. */
  lemma {:induction false} OutstandingRequestWaits(s: State, rs: seq<Request>)
    requires !s.Stable()
    requires forall k :: 0 <= k < |rs| ==> rs[k].msg.IsBusRequest()
    ensures SnoopRun(s, rs).Some?
    ensures !SnoopRun(s, rs).value.Stable() && Pending(SnoopRun(s, rs).value) == Pending(s)
    decreases |rs|
  {
    if rs != [] {
      OutstandingRequestWaits(SnoopStep(s, rs[0]).next, rs[1..]);
    }
  }

  /** A miss completes: after the bus request, any interleaving of other
      caches' GETS and GETM and then the DATA reply leave a stable state that
      serves the original access as a hit. */
  lemma {:induction false} MissCompletes(s: State, r: Request, others: seq<Request>, data: Request)
    requires CacheStep(s, r).Go? && CacheStep(s, r).count == Miss
    requires forall k :: 0 <= k < |others| ==> others[k].msg.IsBusRequest()
    requires data.msg == Data
    ensures SnoopRun(CacheStep(s, r).next, others).Some?
    ensures
      var t := SnoopStep(SnoopRun(CacheStep(s, r).next, others).value, data);
      t.Go? && t.next.Stable() && Level(t.next) >= Required(r.msg) &&
      CacheStep(t.next, r).Go? && CacheStep(t.next, r).count == NoCount
  {
    OutstandingRequestWaits(CacheStep(s, r).next, others);
  }

  /** The controller object of one block in one cache. */
  class Controller {
    var state: State
    /** The simulator whose counters every controller bumps. */
    const sim: Stats

    /** A new controller holds no copy. */
    constructor (sim: Stats)
      ensures state == I && this.sim == sim
    {
      this.sim := sim;
      state := I;
    }

    /** The call took transition `t`: the new state, the reported outcome
        and both counters are exactly those `t` prescribes. */
    twostate predicate Performed(t: Transition<State>, out: Outcome)
      reads this, sim
    {
      && state == t.After(old(state))
      && out == t.Report()
      && sim.cacheMisses == old(sim.cacheMisses) + t.Misses()
      && sim.silentUpgrades == old(sim.silentUpgrades) + t.Upgrades()
    }

    method ProcessCacheRequest(r: Request) returns (out: Outcome)
      modifies this, sim
      ensures Performed(CacheStep(old(state), r), out)
    {
      match state
      case I => out := DoCacheI(r);
      case S => out := DoCacheS(r);
      case M => out := DoCacheM(r);
      case _ => out := Violation;
    }

    method ProcessSnoopRequest(r: Request) returns (out: Outcome)
      modifies this
      ensures Performed(SnoopStep(old(state), r), out)
    {
      match state
      case I => out := DoSnoopI(r);
      case S => out := DoSnoopS(r);
      case M => out := DoSnoopM(r);
      case IM => out := DoSnoopIM(r);
      case IS => out := DoSnoopIS(r);
    }

    method DoCacheI(r: Request) returns (out: Outcome)
      requires state == I
      modifies this, sim
      ensures Performed(CacheStep(I, r), out)
    {
      match r.msg
      case Load =>
        out := Done([SendGetS(r.addr)]);
        state := IS;
        sim.cacheMisses := sim.cacheMisses + 1;
      case Store =>
        out := Done([SendGetM(r.addr)]);
        state := IM;
        sim.cacheMisses := sim.cacheMisses + 1;
      case _ =>
        out := Violation;
    }

    method DoCacheS(r: Request) returns (out: Outcome)
      requires state == S
      modifies this, sim
      ensures Performed(CacheStep(S, r), out)
    {
      match r.msg
      case Load =>
        out := Done([SendDataToProc(r.addr)]);
      case Store =>
        out := Done([SendGetM(r.addr)]);
        state := IM;
        sim.cacheMisses := sim.cacheMisses + 1;
      case _ =>
        out := Violation;
    }

    method DoCacheM(r: Request) returns (out: Outcome)
      requires state == M
      modifies this, sim
      ensures Performed(CacheStep(M, r), out)
    {
      match r.msg
      case Load | Store =>
        out := Done([SendDataToProc(r.addr)]);
      case _ =>
        out := Violation;
    }

    method DoSnoopI(r: Request) returns (out: Outcome)
      requires state == I
      modifies this
      ensures Performed(SnoopStep(I, r), out)
    {
      out := Done([]);
    }

    method DoSnoopIS(r: Request) returns (out: Outcome)
      requires state == IS
      modifies this
      ensures Performed(SnoopStep(IS, r), out)
    {
      match r.msg
      case GetM | GetS =>
        out := Done([]);
      case Data =>
        out := Done([SendDataToProc(r.addr)]);
        state := S;
      case _ =>
        out := Violation;
    }

    method DoSnoopS(r: Request) returns (out: Outcome)
      requires state == S
      modifies this
      ensures Performed(SnoopStep(S, r), out)
    {
      match r.msg
      case GetM =>
        out := Done([]);
        state := I;
      case GetS =>
        out := Done([]);
      case _ =>
        out := Violation;
    }

    method DoSnoopIM(r: Request) returns (out: Outcome)
      requires state == IM
      modifies this
      ensures Performed(SnoopStep(IM, r), out)
    {
      match r.msg
      case GetM | GetS =>
        out := Done([]);
      case Data =>
        out := Done([SendDataToProc(r.addr)]);
        state := M;
      case _ =>
        out := Violation;
    }

    method DoSnoopM(r: Request) returns (out: Outcome)
      requires state == M
      modifies this
      ensures Performed(SnoopStep(M, r), out)
    {
      match r.msg
      case GetM =>
        out := Done([SendDataOnBus(r.addr, r.srcMid)]);
        state := I;
      case GetS =>
        out := Done([SendDataOnBus(r.addr, r.srcMid)]);
        state := S;
      case _ =>
        out := Violation;
    }
  }
}
