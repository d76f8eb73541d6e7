/**
  The MOESI controller of one cache block: MESI's exclusive clean state E
  (with its silent upgrade and the shared-line resolution of a read miss)
  together with MOSI's owned dirty state O. Transient states: IM (write miss
  outstanding), ISE (read miss outstanding), SM (upgrade from S outstanding)
  and OM (upgrade from O outstanding).
 */
module MOESI {
  import opened Coherence

  datatype State = I | S | E | O | M | IM | ISE | SM | OM {
    /** A state the block may rest in; the others wait for DATA. */
    predicate Stable() {
      this == I || this == S || this == E || this == O || this == M
    }
  }

  /** The local accesses a state serves without a bus transaction:
      0 none, 1 LOAD, 2 LOAD and STORE (E serves STORE by a silent upgrade). */
  function Level(s: State): nat {
    match s
    case S | O => 1
    case E | M => 2
    case _ => 0
  }

  /** The level the outstanding request of a transient state asked for. */
  function Pending(s: State): nat {
    match s
    case ISE => 1
    case IM | SM | OM => 2
    case _ => 0
  }

  /** The states holding the authoritative copy, which answer GETS and GETM
      with data on the bus. */
  predicate Owner(s: State) {
    s == E || s == O || s == M || s == OM
  }

  /** The states holding a valid copy, which raise the shared line when they
      snoop a GETS. */
  predicate HoldsCopy(s: State) {
    s == S || s == E || s == O || s == M || s == SM || s == OM
  }

  /** The stable states whose copy differs from memory. */
  predicate Dirty(s: State) {
    s == O || s == M
  }

  /** The transition table of process_cache_request and its do_cache_*
      handlers. */
  function CacheStep(s: State, r: Request): (t: Transition<State>)
    // only a stable state accepts a processor access, and only LOAD or STORE
    ensures t.Fatal? <==> !s.Stable() || !r.msg.IsLocal()
    ensures t.Go? ==> AtMostOneOnBus(t.effects)
    // a miss is exactly an access the state has no permission for
    ensures t.Go? ==> (t.count == Miss <==> Level(s) < Required(r.msg))
    // a miss issues one bus request and waits for the permission it asked for
    ensures t.Go? && t.count == Miss ==>
      t.effects == [BusRequestFor(r)] && !t.next.Stable() && Pending(t.next) == Required(r.msg)
    // an owner upgrading keeps its ownership while it waits
    ensures t.Go? && t.count == Miss ==> (Owner(t.next) <==> Owner(s))
    // an upgrade keeps its valid copy while it waits; a miss from I has none
    ensures t.Go? && t.count == Miss ==> (HoldsCopy(t.next) <==> HoldsCopy(s))
    // STORE in E, and nothing else, is a silent upgrade to M
    ensures t.Go? ==> (t.count == SilentUpgrade <==> s == E && r.msg == Store)
    ensures t.Go? && t.count == SilentUpgrade ==> t.next == M
    // every other access is a hit and keeps the state
    ensures t.Go? && t.count == NoCount ==> t.next == s
    // a hit or a silent upgrade serves the processor without bus traffic,
    // a LOAD in S raising the shared line first
    ensures t.Go? && t.count != Miss ==>
      t.effects == (if s == S && r.msg == Load then [SetSharedLine] else []) + [SendDataToProc(r.addr)]
    // the shared line is raised by a LOAD in S and by no other access
    ensures t.Go? ==> (SetSharedLine in t.effects <==> s == S && r.msg == Load)
  {
    match s
    case M =>
      (match r.msg
       case Load | Store => Go(M, [SendDataToProc(r.addr)], NoCount)
       case _ => Fatal)
    case O =>
      (match r.msg
       case Load => Go(O, [SendDataToProc(r.addr)], NoCount)
       case Store => Go(OM, [SendGetM(r.addr)], Miss)
       case _ => Fatal)
    case E =>
      (match r.msg
       case Load => Go(E, [SendDataToProc(r.addr)], NoCount)
       case Store => Go(M, [SendDataToProc(r.addr)], SilentUpgrade)
       case _ => Fatal)
    case S =>
      (match r.msg
       case Load => Go(S, [SetSharedLine, SendDataToProc(r.addr)], NoCount)
       case Store => Go(SM, [SendGetM(r.addr)], Miss)
       case _ => Fatal)
    case I =>
      (match r.msg
       case Load => Go(ISE, [SendGetS(r.addr)], Miss)
       case Store => Go(IM, [SendGetM(r.addr)], Miss)
       case _ => Fatal)
    case _ => Fatal
  }

  /** The transition table of process_snoop_request and its do_snoop_*
      handlers; `sharedLine` is what get_shared_line() returns. */
  function SnoopStep(s: State, r: Request, sharedLine: bool): (t: Transition<State>)
    // in I everything is ignored; elsewhere a local access, or DATA in a
    // stable state, is fatal
    ensures t.Fatal? <==> s != I && (r.msg.IsLocal() || (s.Stable() && r.msg == Data))
    ensures s == I ==> t == Go(I, [], NoCount)
    ensures t.Go? ==> t.count == NoCount
    // a snoop never takes a stable state to a transient one ...
    ensures t.Go? && s.Stable() ==> t.next.Stable()
    // ... and, short of the awaited DATA, never raises permission
    ensures t.Go? && r.msg != Data ==> Level(t.next) <= Level(s)
    // a bus request is answered by exactly these effects: the owner's data,
    // then, on GETS, a valid copy's shared-line signal
    ensures t.Go? && r.msg.IsBusRequest() ==>
      t.effects == (if Owner(s) then [SendDataOnBus(r.addr, r.srcMid)] else []) +
                   (if r.msg == GetS && HoldsCopy(s) then [SetSharedLine] else [])
    // GETM invalidates every stable copy; GETS leaves a valid copy read-only,
    // a dirty one keeping ownership as O
    ensures s.Stable() && r.msg == GetM ==> t.Go? && t.next == I
    ensures s.Stable() && s != I && r.msg == GetS ==> t.Go? && t.next == (if Dirty(s) then O else S)
    // with a request outstanding, other caches' GETS and GETM leave it
    // waiting for the same permission; a GETM beating an upgrade from S or O
    // turns it into a write miss
    ensures !s.Stable() && r.msg.IsBusRequest() ==>
      t.Go? && !t.next.Stable() && Pending(t.next) == Pending(s) &&
      t.next == (if (s == SM || s == OM) && r.msg == GetM then IM else s)
    // DATA completes the outstanding request with the permission asked for
    ensures !s.Stable() && r.msg == Data ==>
      t.Go? && t.effects == [SendDataToProc(r.addr)] && t.next.Stable() && Level(t.next) >= Pending(s)
    // every write miss or upgrade completes in M
    ensures !s.Stable() && s != ISE && r.msg == Data ==> t.Go? && t.next == M
    // a read miss ends in E exactly when no other cache raised the shared line
    ensures s == ISE && r.msg == Data ==> t.Go? && t.next == (if sharedLine then S else E)
  {
    match s
    case M =>
      (match r.msg
       case GetS => Go(O, [SendDataOnBus(r.addr, r.srcMid), SetSharedLine], NoCount)
       case GetM => Go(I, [SendDataOnBus(r.addr, r.srcMid)], NoCount)
       case _ => Fatal)
    case O =>
      (match r.msg
       case GetS => Go(O, [SendDataOnBus(r.addr, r.srcMid), SetSharedLine], NoCount)
       case GetM => Go(I, [SendDataOnBus(r.addr, r.srcMid)], NoCount)
       case _ => Fatal)
    case E =>
      (match r.msg
       case GetS => Go(S, [SendDataOnBus(r.addr, r.srcMid), SetSharedLine], NoCount)
       case GetM => Go(I, [SendDataOnBus(r.addr, r.srcMid)], NoCount)
       case _ => Fatal)
    case S =>
      (match r.msg
       case GetS => Go(S, [SetSharedLine], NoCount)
       case GetM => Go(I, [], NoCount)
       case _ => Fatal)
    case I => Go(I, [], NoCount)
    case IM =>
      (match r.msg
       case GetS | GetM => Go(IM, [], NoCount)
       case Data => Go(M, [SendDataToProc(r.addr)], NoCount)
       case _ => Fatal)
    case ISE =>
      (match r.msg
       case GetS | GetM => Go(ISE, [], NoCount)
       case Data => Go(if sharedLine then S else E, [SendDataToProc(r.addr)], NoCount)
       case _ => Fatal)
    case OM =>
      (match r.msg
       case GetS => Go(OM, [SendDataOnBus(r.addr, r.srcMid), SetSharedLine], NoCount)
       case GetM => Go(IM, [SendDataOnBus(r.addr, r.srcMid)], NoCount)
       case Data => Go(M, [SendDataToProc(r.addr)], NoCount)
       case _ => Fatal)
    case SM =>
      (match r.msg
       case GetS => Go(SM, [SetSharedLine], NoCount)
       case GetM => Go(IM, [], NoCount)
       case Data => Go(M, [SendDataToProc(r.addr)], NoCount)
       case _ => Fatal)
  }

  /** What a snoop puts on the bus: at most one message, data from the
      owner and from nobody else. */
  lemma SnoopEffects(s: State, r: Request, sharedLine: bool)
    ensures SnoopStep(s, r, sharedLine).Go? ==> AtMostOneOnBus(SnoopStep(s, r, sharedLine).effects)
    // the owner, and only the owner, supplies the requester with data
    ensures SnoopStep(s, r, sharedLine).Go? && r.msg.IsBusRequest() ==>
      (SendDataOnBus(r.addr, r.srcMid) in SnoopStep(s, r, sharedLine).effects <==> Owner(s))
    // exactly the valid copies answer a GETS by raising the shared line
    ensures SnoopStep(s, r, sharedLine).Go? ==>
      (SetSharedLine in SnoopStep(s, r, sharedLine).effects <==> r.msg == GetS && HoldsCopy(s))
  {
  }

  /** The state after snooping `rs` in order from `s`, each request with the
      shared-line value beside it; None once one of them is fatal. */
  function SnoopRun(s: State, rs: seq<(Request, bool)>): Option<State>
    decreases |rs|
  {
    if rs == [] then Some(s)
    else
      match SnoopStep(s, rs[0].0, rs[0].1)
      case Fatal => None
      case Go(next, _, _) => SnoopRun(next, rs[1..])
  }

  /** Whatever a controller resting in a stable state snoops, it stays stable
      and its permission never grows. */
  lemma {:induction false} SnoopsNeverRaise(s: State, rs: seq<(Request, bool)>)
    requires s.Stable()
    ensures SnoopRun(s, rs).Some? ==>
      SnoopRun(s, rs).value.Stable() && Level(SnoopRun(s, rs).value) <= Level(s)
    decreases |rs|
  {
    if rs != [] {
      var t := SnoopStep(s, rs[0].0, rs[0].1);
      if t.Go? {
        SnoopsNeverRaise(t.next, rs[1..]);
      }
    }
  }

  /** While its request is outstanding, a controller survives any number of
      other caches' GETS and GETM and keeps waiting for the same permission. */
  lemma {:induction false} OutstandingRequestWaits(s: State, rs: seq<(Request, bool)>)
    requires !s.Stable()
    requires forall k :: 0 <= k < |rs| ==> rs[k].0.msg.IsBusRequest()
    ensures SnoopRun(s, rs).Some?
    ensures !SnoopRun(s, rs).value.Stable() && Pending(SnoopRun(s, rs).value) == Pending(s)
    decreases |rs|
  {
    if rs != [] {
      OutstandingRequestWaits(SnoopStep(s, rs[0].0, rs[0].1).next, rs[1..]);
    }
  }

  /** A miss completes: after the bus request, any interleaving of other
      caches' GETS and GETM and then the DATA reply leave a stable state that
      serves the original access without a miss. */
  lemma {:induction false} MissCompletes(s: State, r: Request, others: seq<(Request, bool)>, data: Request, sharedLine: bool)
    requires CacheStep(s, r).Go? && CacheStep(s, r).count == Miss
    requires forall k :: 0 <= k < |others| ==> others[k].0.msg.IsBusRequest()
    requires data.msg == Data
    ensures SnoopRun(CacheStep(s, r).next, others).Some?
    ensures
      var t := SnoopStep(SnoopRun(CacheStep(s, r).next, others).value, data, sharedLine);
      t.Go? && t.next.Stable() && Level(t.next) >= Required(r.msg) &&
      CacheStep(t.next, r).Go? && CacheStep(t.next, r).count != Miss
  {
    OutstandingRequestWaits(CacheStep(s, r).next, others);
  }

  /** The controller object of one block in one cache. */
  class Controller {
    var state: State
    /** The simulator whose counters every controller bumps. */
    const sim: Stats

    /** A new controller holds no copy. */
    constructor (sim: Stats)
      ensures state == I && this.sim == sim
    {
      this.sim := sim;
      state := I;
    }

    /** The call took transition `t`: the new state, the reported outcome
        and both counters are exactly those `t` prescribes. */
    twostate predicate Performed(t: Transition<State>, out: Outcome)
      reads this, sim
    {
      && state == t.After(old(state))
      && out == t.Report()
      && sim.cacheMisses == old(sim.cacheMisses) + t.Misses()
      && sim.silentUpgrades == old(sim.silentUpgrades) + t.Upgrades()
    }

    method ProcessCacheRequest(r: Request) returns (out: Outcome)
      modifies this, sim
      ensures Performed(CacheStep(old(state), r), out)
    {
      match state
      case M => out := DoCacheM(r);
      case O => out := DoCacheO(r);
      case E => out := DoCacheE(r);
      case S => out := DoCacheS(r);
      case I => out := DoCacheI(r);
      case _ => out := Violation;
    }

    method ProcessSnoopRequest(r: Request, sharedLine: bool) returns (out: Outcome)
      modifies this
      ensures Performed(SnoopStep(old(state), r, sharedLine), out)
    {
      match state
      case M => out := DoSnoopM(r);
      case O => out := DoSnoopO(r);
      case E => out := DoSnoopE(r);
      case S => out := DoSnoopS(r);
      case I => out := DoSnoopI(r);
      case IM => out := DoSnoopIM(r);
      case ISE => out := DoSnoopISE(r, sharedLine);
      case OM => out := DoSnoopOM(r);
      case SM => out := DoSnoopSM(r);
    }

    method DoCacheI(r: Request) returns (out: Outcome)
      requires state == I
      modifies this, sim
      ensures Performed(CacheStep(I, r), out)
    {
      match r.msg
      case Load =>
        out := Done([SendGetS(r.addr)]);
        state := ISE;
        sim.cacheMisses := sim.cacheMisses + 1;
      case Store =>
        out := Done([SendGetM(r.addr)]);
        state := IM;
        sim.cacheMisses := sim.cacheMisses + 1;
      case _ =>
        out := Violation;
    }

    method DoCacheS(r: Request) returns (out: Outcome)
      requires state == S
      modifies this, sim
      ensures Performed(CacheStep(S, r), out)
    {
      match r.msg
      case Load =>
        out := Done([SetSharedLine, SendDataToProc(r.addr)]);
      case Store =>
        out := Done([SendGetM(r.addr)]);
        state := SM;
        sim.cacheMisses := sim.cacheMisses + 1;
      case _ =>
        out := Violation;
    }

    method DoCacheE(r: Request) returns (out: Outcome)
      requires state == E
      modifies this, sim
      ensures Performed(CacheStep(E, r), out)
    {
      match r.msg
      case Load =>
        out := Done([SendDataToProc(r.addr)]);
      case Store =>
        out := Done([SendDataToProc(r.addr)]);
        state := M;
        sim.silentUpgrades := sim.silentUpgrades + 1;
      case _ =>
        out := Violation;
    }

    method DoCacheO(r: Request) returns (out: Outcome)
      requires state == O
      modifies this, sim
      ensures Performed(CacheStep(O, r), out)
    {
      match r.msg
      case Load =>
        out := Done([SendDataToProc(r.addr)]);
      case Store =>
        out := Done([SendGetM(r.addr)]);
        state := OM;
        sim.cacheMisses := sim.cacheMisses + 1;
      case _ =>
        out := Violation;
    }

    method DoCacheM(r: Request) returns (out: Outcome)
      requires state == M
      modifies this, sim
      ensures Performed(CacheStep(M, r), out)
    {
      match r.msg
      case Load | Store =>
        out := Done([SendDataToProc(r.addr)]);
      case _ =>
        out := Violation;
    }

    method DoSnoopI(r: Request) returns (out: Outcome)
      requires state == I
      modifies this
      ensures Performed(SnoopStep(I, r, false), out)
    {
      out := Done([]);
    }

    method DoSnoopS(r: Request) returns (out: Outcome)
      requires state == S
      modifies this
      ensures Performed(SnoopStep(S, r, false), out)
    {
      match r.msg
      case GetS =>
        out := Done([SetSharedLine]);
      case GetM =>
        out := Done([]);
        state := I;
      case _ =>
        out := Violation;
    }

    method DoSnoopE(r: Request) returns (out: Outcome)
      requires state == E
      modifies this
      ensures Performed(SnoopStep(E, r, false), out)
    {
      match r.msg
      case GetS =>
        out := Done([SendDataOnBus(r.addr, r.srcMid), SetSharedLine]);
        state := S;
      case GetM =>
        out := Done([SendDataOnBus(r.addr, r.srcMid)]);
        state := I;
      case _ =>
        out := Violation;
    }

    method DoSnoopO(r: Request) returns (out: Outcome)
      requires state == O
      modifies this
      ensures Performed(SnoopStep(O, r, false), out)
    {
      match r.msg
      case GetS =>
        out := Done([SendDataOnBus(r.addr, r.srcMid), SetSharedLine]);
      case GetM =>
        out := Done([SendDataOnBus(r.addr, r.srcMid)]);
        state := I;
      case _ =>
        out := Violation;
    }

    method DoSnoopM(r: Request) returns (out: Outcome)
      requires state == M
      modifies this
      ensures Performed(SnoopStep(M, r, false), out)
    {
      match r.msg
      case GetS =>
        out := Done([SendDataOnBus(r.addr, r.srcMid), SetSharedLine]);
        state := O;
      case GetM =>
        out := Done([SendDataOnBus(r.addr, r.srcMid)]);
        state := I;
      case _ =>
        out := Violation;
    }

    method DoSnoopIM(r: Request) returns (out: Outcome)
      requires state == IM
      modifies this
      ensures Performed(SnoopStep(IM, r, false), out)
    {
      match r.msg
      case GetS | GetM =>
        out := Done([]);
      case Data =>
        out := Done([SendDataToProc(r.addr)]);
        state := M;
      case _ =>
        out := Violation;
    }

    method DoSnoopISE(r: Request, sharedLine: bool) returns (out: Outcome)
      requires state == ISE
      modifies this
      ensures Performed(SnoopStep(ISE, r, sharedLine), out)
    {
      match r.msg
      case GetS | GetM =>
        out := Done([]);
      case Data =>
        out := Done([SendDataToProc(r.addr)]);
        if sharedLine {
          state := S;
        } else {
          state := E;
        }
      case _ =>
        out := Violation;
    }

    method DoSnoopOM(r: Request) returns (out: Outcome)
      requires state == OM
      modifies this
      ensures Performed(SnoopStep(OM, r, false), out)
    {
      match r.msg
      case GetS =>
        out := Done([SendDataOnBus(r.addr, r.srcMid), SetSharedLine]);
      case GetM =>
        out := Done([SendDataOnBus(r.addr, r.srcMid)]);
        state := IM;
      case Data =>
        out := Done([SendDataToProc(r.addr)]);
        state := M;
      case _ =>
        out := Violation;
    }

    method DoSnoopSM(r: Request) returns (out: Outcome)
      requires state == SM
      modifies this
      ensures Performed(SnoopStep(SM, r, false), out)
    {
      match r.msg
      case GetS =>
        out := Done([SetSharedLine]);
      case GetM =>
        out := Done([]);
        state := IM;
      case Data =>
        out := Done([SendDataToProc(r.addr)]);
        state := M;
      case _ =>
        out := Violation;
    }
  }

  /** Two caches A (module 0) and B (module 1) read block `x` in turn, which
      leaves both in S after two misses (A first takes E, then supplies B and
      drops to S); then B writes: it misses from S, A's copy is invalidated
      and B ends in M after three misses in all. */
  method ReadersThenWriterScenario(x: Addr) returns (a: Controller, b: Controller, sim: Stats)
    ensures a.state == I && b.state == M
    ensures sim.cacheMisses == 3 && sim.silentUpgrades == 0
  {
    sim := new Stats();
    a := new Controller(sim);
    b := new Controller(sim);
    var out := a.ProcessCacheRequest(Request(Load, x, 0));
    out := b.ProcessSnoopRequest(Request(GetS, x, 0), false);
    out := a.ProcessSnoopRequest(Request(Data, x, 0), false);
    assert a.state == E;
    out := b.ProcessCacheRequest(Request(Load, x, 1));
    out := a.ProcessSnoopRequest(Request(GetS, x, 1), false);
    assert out == Done([SendDataOnBus(x, 1), SetSharedLine]) && a.state == S;
    out := b.ProcessSnoopRequest(Request(Data, x, 1), true);
    assert b.state == S && sim.cacheMisses == 2;
    out := b.ProcessCacheRequest(Request(Store, x, 1));
    assert out == Done([SendGetM(x)]) && b.state == SM;
    out := a.ProcessSnoopRequest(Request(GetM, x, 1), false);
    assert out == Done([]) && a.state == I;
    out := b.ProcessSnoopRequest(Request(Data, x, 1), false);
  }
}
