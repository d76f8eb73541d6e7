/**
  MESI controllers composed over an atomic snooping bus, for one block.

  The bus is not part of the controllers; what this module assumes of it is
  written out in `Access`: a bus request reaches the snoop entry point of
  every other cache, all in one step before any other request; the
  originator does not snoop its own request; the shared line it then reads
  is raised exactly when some other cache raised it while snooping; then
  exactly one DATA reply reaches the originator. Under those assumptions
  the controllers keep a single writer, and a cache in E (which may write
  without telling anyone) really is the only holder of the block.
 */
module MESIBus {
  import opened Coherence
  import opened MESI

  /** Every cache's copy of the block rests in a stable state. */
  predicate AllStable(cs: seq<State>) {
    forall i :: 0 <= i < |cs| ==> cs[i].Stable()
  }

  /** A cache with write permission (E or M) is the only one holding a copy. */
  predicate SingleWriter(cs: seq<State>) {
    forall i, j :: 0 <= i < |cs| && 0 <= j < |cs| && i != j && Level(cs[i]) == 2 ==> cs[j] == I
  }

  /** The bus request a missed access `r` of cache `i` puts on the bus. */
  function BusRequest(i: nat, r: Request): (req: Request)
    requires r.msg.IsLocal()
    ensures req.msg.IsBusRequest() && req.addr == r.addr && req.srcMid == i
    // the request the bus delivers is the one the controller's miss emitted
    ensures BusRequestFor(r) == (if req.msg == GetS then SendGetS(r.addr) else SendGetM(r.addr))
  {
    Request(if r.msg == Load then GetS else GetM, r.addr, i)
  }

  /** Whether some cache other than `i` raises the shared line when it snoops
      `req`. */
  predicate SharedAsserted(cs: seq<State>, i: nat, req: Request) {
    exists j :: 0 <= j < |cs| && j != i && SetSharedLine in SnoopStep(cs[j], req, false).Emits()
  }

  /** The shared line is raised on a GETS exactly when another cache holds a
      copy. */
  lemma SharedLineMeansCopy(cs: seq<State>, i: nat, req: Request)
    requires AllStable(cs) && req.msg == GetS
    ensures SharedAsserted(cs, i, req) <==> exists j :: 0 <= j < |cs| && j != i && cs[j] != I
  {
    forall j | 0 <= j < |cs|
      ensures SetSharedLine in SnoopStep(cs[j], req, false).Emits() <==> cs[j] != I
    {
      SnoopEffects(cs[j], req, false);
    }
  }

  /** The states after every cache other than `i` snoops `req`. */
  function SnoopOthers(cs: seq<State>, i: nat, req: Request): (cs': seq<State>)
    ensures |cs'| == |cs|
    // the requester does not snoop its own request
    ensures i < |cs| ==> cs'[i] == cs[i]
    // from stable copies, a bus request leaves every copy stable and raises
    // no permission; a GETM invalidates every other copy
    ensures req.msg.IsBusRequest() && AllStable(cs) ==>
      AllStable(cs') && forall j :: 0 <= j < |cs| ==> Level(cs'[j]) <= Level(cs[j])
    ensures req.msg == GetM && AllStable(cs) ==> forall j :: 0 <= j < |cs| && j != i ==> cs'[j] == I
  {
    seq(|cs|, j requires 0 <= j < |cs| => if j == i then cs[j] else SnoopStep(cs[j], req, false).After(cs[j]))
  }

  /** Processor access `r` of cache `i`, with the bus transaction it may start
      run to completion. */
  function Access(cs: seq<State>, i: nat, r: Request): (cs': seq<State>)
    requires i < |cs| && r.msg.IsLocal()
    ensures |cs'| == |cs|
    // from stable copies, the accessing cache ends with the permission it
    // needed and no other cache gains any
    ensures AllStable(cs) ==> Level(cs'[i]) >= Required(r.msg)
    ensures AllStable(cs) ==> forall j :: 0 <= j < |cs| && j != i ==> Level(cs'[j]) <= Level(cs[j])
  {
    var t := CacheStep(cs[i], r);
    if t.Misses() == 0 then cs[i := t.After(cs[i])]
    else
      var req := BusRequest(i, r);
      var shared := SharedAsserted(cs, i, req);
      var others := SnoopOthers(cs, i, req);
      others[i := SnoopStep(t.After(cs[i]), Request(Data, r.addr, i), shared).After(t.After(cs[i]))]
  }

  /** A write miss leaves the writer in M and every other copy invalid. */
  lemma WriteMissOutcome(cs: seq<State>, i: nat, r: Request)
    requires i < |cs| && r.msg == Store && AllStable(cs)
    requires CacheStep(cs[i], r).Misses() != 0
    ensures Access(cs, i, r)[i] == M
    ensures forall j :: 0 <= j < |cs| && j != i ==> Access(cs, i, r)[j] == I
  {
    var t := CacheStep(cs[i], r);
    assert !t.next.Stable() && Pending(t.next) == 2;
  }

  /** What a read miss of cache `i` makes of the configuration: the reader ends in S if another cache holds a copy and in E otherwise;
      every other valid copy ends in S. */
  lemma ReadMissOutcome(cs: seq<State>, i: nat, r: Request)
    requires i < |cs| && r.msg == Load && AllStable(cs)
    requires CacheStep(cs[i], r).Misses() != 0
    ensures cs[i] == I
    ensures Access(cs, i, r)[i] == if exists j :: 0 <= j < |cs| && j != i && cs[j] != I then S else E
    ensures forall j :: 0 <= j < |cs| && j != i ==>
      Access(cs, i, r)[j] == (if cs[j] == I then I else S)
  {
    SharedLineMeansCopy(cs, i, BusRequest(i, r));
  }

  /** The configuration a read miss of cache `i` produces, as
      `ReadMissOutcome` describes it, satisfies the invariant again. */
  lemma ReadMissShape(cs: seq<State>, cs': seq<State>, i: nat)
    requires i < |cs| && |cs'| == |cs| && AllStable(cs) && SingleWriter(cs) && cs[i] == I
    requires cs'[i] == if exists j :: 0 <= j < |cs| && j != i && cs[j] != I then S else E
    requires forall j :: 0 <= j < |cs| && j != i ==> cs'[j] == (if cs[j] == I then I else S)
    ensures AllStable(cs') && SingleWriter(cs')
  {
    if cs'[i] == E {
      assert forall j :: 0 <= j < |cs| && j != i ==> cs'[j] == I;
    }
  }

  /** A hit, or a silent upgrade, changes only the accessing cache, which
      already had the permission or the exclusivity it needs. */
  lemma HitKeepsSingleWriter(cs: seq<State>, i: nat, r: Request)
    requires i < |cs| && r.msg.IsLocal() && CacheStep(cs[i], r).Misses() == 0
    requires AllStable(cs) && SingleWriter(cs)
    ensures AllStable(Access(cs, i, r)) && SingleWriter(Access(cs, i, r))
  {
    var t := CacheStep(cs[i], r);
    var cs' := Access(cs, i, r);
    assert cs' == cs[i := t.After(cs[i])];
    if cs'[i] != cs[i] {
      // the silent upgrade: E was already the only copy
      assert cs[i] == E && cs'[i] == M;
    }
  }

  /** One completed access keeps every copy stable and a single writer. */
  lemma AccessKeepsSingleWriter(cs: seq<State>, i: nat, r: Request)
    requires i < |cs| && r.msg.IsLocal()
    requires AllStable(cs) && SingleWriter(cs)
    ensures AllStable(Access(cs, i, r)) && SingleWriter(Access(cs, i, r))
  {
    if CacheStep(cs[i], r).Misses() == 0 {
      HitKeepsSingleWriter(cs, i, r);
    } else if r.msg == Store {
      WriteMissOutcome(cs, i, r);
    } else {
      ReadMissOutcome(cs, i, r);
      ReadMissShape(cs, Access(cs, i, r), i);
    }
  }

  /** The processor accesses `acc` (cache, request) performed one after the
      other, each run to completion. */
  function Run(cs: seq<State>, acc: seq<(nat, Request)>): (cs': seq<State>)
    requires forall k :: 0 <= k < |acc| ==> acc[k].0 < |cs| && acc[k].1.msg.IsLocal()
    ensures |cs'| == |cs|
    decreases |acc|
  {
    if acc == [] then cs else Run(Access(cs, acc[0].0, acc[0].1), acc[1..])
  }

  /** From a configuration of stable copies with a single writer (such as the
      initial one), every sequence of accesses keeps both. */
  lemma {:induction false} RunKeepsSingleWriter(cs: seq<State>, acc: seq<(nat, Request)>)
    requires forall k :: 0 <= k < |acc| ==> acc[k].0 < |cs| && acc[k].1.msg.IsLocal()
    requires AllStable(cs) && SingleWriter(cs)
    ensures AllStable(Run(cs, acc)) && SingleWriter(Run(cs, acc))
    decreases |acc|
  {
    if acc != [] {
      AccessKeepsSingleWriter(cs, acc[0].0, acc[0].1);
      RunKeepsSingleWriter(Access(cs, acc[0].0, acc[0].1), acc[1..]);
    }
  }

  /** Every cache starts without a copy, which satisfies both invariants. */
  lemma InitiallySingleWriter(n: nat)
    ensures AllStable(seq(n, _ => I)) && SingleWriter(seq(n, _ => I))
  {
  }
}
