/**
  The transfer-cache slots over whole runs: none appears, one is lost only where a cache has grown to its
  maximum in the meantime; evictions are forced only when an unforced one has failed; and, with nobody
  in the way, a full cache does grow at another's cost, and what is put in comes out again.
  */
module CentralSlots {
  import opened Options
  import opened Seqs
  import opened CentralModel
  import opened CentralInvariant
  import opened CentralSystem
  import opened CentralTheorems

  // ---------------------------------------------------------------- no slot appears, and which are lost

  /** Slots of all caches, and those on their way from one to another. */
  function AllSlots(s: Sys): int {
    SlotsOf(s.lists) + SlotsInFlight(s.pcs)
  }

  /** MakeCacheSpace has won a slot, and finds its cache at the maximum. */
  ghost predicate Loses(c: Config, s: Sys, t: nat)
    requires c.Good()
  {
    && t < |s.pcs| && s.pcs[t].ReturnHeld? && s.pcs[t].won
    && s.pcs[t].cl < |s.lists| && s.pcs[t].cl < |c.size|
    && s.lists[s.pcs[t].cl].cacheSize >= MaxCacheSize(c, s.pcs[t].cl)
  }

  lemma OneListMoves(s: Sys, s': Sys, t: nat, k: nat)
    requires t < |s.pcs| == |s'.pcs| && s'.pcs == s.pcs[t := s'.pcs[t]]
    requires k < |s.lists| == |s'.lists| && s'.lists == s.lists[k := s'.lists[k]]
    ensures AllSlots(s') - AllSlots(s)
         == s'.lists[k].cacheSize - s.lists[k].cacheSize + InFlight(s'.pcs[t]) - InFlight(s.pcs[t])
  {
    InFlightUpdate(s.pcs, t, s'.pcs[t]);
    SlotsOfUpdate(s.lists, k, s'.lists[k]);
  }

  /** Only thread `t` and list `k` move, and the slots of that list and of the thread change by `d` in all. */
  ghost predicate Moves(s: Sys, s': Sys, t: nat, k: nat, d: int) {
    && t < |s.pcs| == |s'.pcs| && s'.pcs == s.pcs[t := s'.pcs[t]]
    && k < |s.lists| == |s'.lists| && s'.lists == s.lists[k := s'.lists[k]]
    && s'.lists[k].cacheSize - s.lists[k].cacheSize + InFlight(s'.pcs[t]) - InFlight(s.pcs[t]) == d
  }

  lemma InsertMoves(c: Config, s: Sys, t: nat, cl: nat, chain: seq<Obj>)
    requires Shape(c, s) && t < |s.pcs| && s.pcs[t] == InsertHeld(cl, chain) && cl < |c.size|
    ensures Moves(s, Insert(c, s, t, cl, chain), t, cl, 0)
  {
    hide MaxCacheSize;
  }

  lemma EvictMoves(s: Sys, t: nat, cl: nat, chain: seq<Obj>, force: bool, ch: Choice)
    requires t < |s.pcs| && s.pcs[t] == EvictHeld(cl, chain, force) && cl < |s.lists| && cl < |s.locks|
    requires Evict(s, t, cl, chain, force, ch).Some?
    ensures Moves(s, Evict(s, t, cl, chain, force, ch).value, t, cl, 0)
  {}

  lemma ShrinkMoves(s: Sys, t: nat, cl: nat, chain: seq<Obj>, force: bool, v: nat)
    requires t < |s.pcs| && s.pcs[t] == ShrinkHeld(cl, chain, force, v) && v < |s.lists| && v < |s.locks|
    ensures Moves(s, Shrink(s, t, cl, chain, force, v), t, v, 0)
  {}

  lemma ReturnedMoves(c: Config, s: Sys, t: nat, cl: nat, chain: seq<Obj>, force: bool, won: bool)
    requires Shape(c, s) && t < |s.pcs| && s.pcs[t] == ReturnHeld(cl, chain, force, won) && cl < |c.size|
    ensures Moves(s, Returned(c, s, t, cl, chain, force, won), t, cl, if Loses(c, s, t) then -1 else 0)
  {
    hide MaxCacheSize;
  }

  lemma LockMoves(s: Sys, t: nat, cl: nat, pc: Pc, k: nat)
    requires t < |s.pcs| && k < |s.lists| && Lock(s, t, cl, pc).Some? && InFlight(pc) == InFlight(s.pcs[t])
    ensures Moves(s, Lock(s, t, cl, pc).value, t, k, 0)
  {}

  lemma InsertingSlots(c: Config, s: Sys, t: nat, ch: Choice)
    requires Shape(c, s) && t < c.threads && ClassesInRange(c, s.pcs[t]) && Inserting(s.pcs[t]) && Step(c, s, t, ch).Some?
    ensures AllSlots(Step(c, s, t, ch).value) == AllSlots(s) - if Loses(c, s, t) then 1 else 0
  {
    var s' := Step(c, s, t, ch).value;
    hide MaxCacheSize, AllSlots, Insert, Evict, Shrink, Returned, Lock;
    match s.pcs[t] {
      case ShrinkHeld(cl, chain, force, v) =>
        ShrinkMoves(s, t, cl, chain, force, v);
        OneListMoves(s, s', t, v);
      case InsertWait(cl, chain) =>
        LockMoves(s, t, cl, InsertHeld(cl, chain), cl);
        OneListMoves(s, s', t, cl);
      case InsertHeld(cl, chain) =>
        InsertMoves(c, s, t, cl, chain);
        OneListMoves(s, s', t, cl);
      case EvictHeld(cl, chain, force) =>
        EvictMoves(s, t, cl, chain, force, ch);
        OneListMoves(s, s', t, cl);
      case ShrinkWait(cl, chain, force, v) =>
        LockMoves(s, t, v, ShrinkHeld(cl, chain, force, v), cl);
        OneListMoves(s, s', t, cl);
      case ReturnWait(cl, chain, force, won) =>
        LockMoves(s, t, cl, ReturnHeld(cl, chain, force, won), cl);
        OneListMoves(s, s', t, cl);
      case ReturnHeld(cl, chain, force, won) =>
        ReturnedMoves(c, s, t, cl, chain, force, won);
        OneListMoves(s, s', t, cl);
    }
  }

  lemma ReleasingSlots(c: Config, s: Sys, t: nat, ch: Choice)
    requires Shape(c, s) && t < c.threads && ClassesInRange(c, s.pcs[t]) && Releasing(s.pcs[t]) && Step(c, s, t, ch).Some?
    ensures AllSlots(Step(c, s, t, ch).value) == AllSlots(s)
  {
    var s' := Step(c, s, t, ch).value;
    hide AllSlots, Without;
    OneListMoves(s, s', t, s.pcs[t].at);
  }

  lemma OtherSlots(c: Config, s: Sys, t: nat, ch: Choice)
    requires Shape(c, s) && t < c.threads && ClassesInRange(c, s.pcs[t]) && Step(c, s, t, ch).Some?
    requires !Inserting(s.pcs[t]) && !Releasing(s.pcs[t])
    ensures AllSlots(Step(c, s, t, ch).value) == AllSlots(s)
  {
    var s' := Step(c, s, t, ch).value;
    hide AllSlots, Call, Lock, LockHeap, Remove, FetchStep, Populate, LinkStep;
    match s.pcs[t] {
      case Idle =>
        CallMoves(c, s, t, ch);
        OneListMoves(s, s', t, 0);
      case RemoveWait(cl, n) =>
        LockMoves(s, t, cl, RemoveHeld(cl, n), cl);
        OneListMoves(s, s', t, cl);
      case PopulateWait(cl, n) =>
        HeapMoves(s, t, PopulateHeld(cl, n), cl);
        OneListMoves(s, s', t, cl);
      case LinkWait(cl, n, id, carved) =>
        LockMoves(s, t, cl, LinkHeld(cl, n, id, carved), cl);
        OneListMoves(s, s', t, cl);
      case RemoveHeld(cl, n) =>
        RemoveMoves(c, s, t, cl, n);
        OneListMoves(s, s', t, cl);
      case FetchHeld(cl, n, got, heap) =>
        FetchMoves(s, t, cl, n, got, heap);
        OneListMoves(s, s', t, cl);
      case PopulateHeld(cl, n) =>
        PopulateMoves(c, s, t, cl, n, ch);
        OneListMoves(s, s', t, cl);
      case LinkHeld(cl, n, id, carved) =>
        LinkMoves(s, t, cl, n, id, carved);
        OneListMoves(s, s', t, cl);
    }
  }

  lemma CallMoves(c: Config, s: Sys, t: nat, ch: Choice)
    requires Shape(c, s) && t < |s.pcs| && s.pcs[t] == Idle && Call(c, s, t, ch).Some?
    ensures Moves(s, Call(c, s, t, ch).value, t, 0, 0)
  {
    hide MayCall;
  }

  lemma HeapMoves(s: Sys, t: nat, pc: Pc, k: nat)
    requires t < |s.pcs| && k < |s.lists| && LockHeap(s, t, pc).Some? && InFlight(pc) == InFlight(s.pcs[t])
    ensures Moves(s, LockHeap(s, t, pc).value, t, k, 0)
  {}

  lemma RemoveMoves(c: Config, s: Sys, t: nat, cl: nat, n: nat)
    requires Shape(c, s) && t < |s.pcs| && s.pcs[t] == RemoveHeld(cl, n) && cl < |c.size|
    ensures Moves(s, Remove(c, s, t, cl, n), t, cl, 0)
  {}

  lemma FetchMoves(s: Sys, t: nat, cl: nat, n: nat, got: seq<Obj>, heap: HeapAnswer)
    requires t < |s.pcs| && s.pcs[t] == FetchHeld(cl, n, got, heap) && cl < |s.lists| && cl < |s.locks|
    requires FetchStep(s, t, cl, n, got, heap).Some?
    ensures Moves(s, FetchStep(s, t, cl, n, got, heap).value, t, cl, 0)
  {}

  lemma PopulateMoves(c: Config, s: Sys, t: nat, cl: nat, n: nat, ch: Choice)
    requires Shape(c, s) && t < |s.pcs| && s.pcs[t] == PopulateHeld(cl, n) && 1 <= cl < |c.size|
    requires Populate(c, s, t, cl, n, ch).Some?
    ensures Moves(s, Populate(c, s, t, cl, n, ch).value, t, cl, 0)
  {}

  lemma LinkMoves(s: Sys, t: nat, cl: nat, n: nat, id: SpanId, carved: Option<Span>)
    requires t < |s.pcs| && s.pcs[t] == LinkHeld(cl, n, id, carved) && cl < |s.lists|
    ensures Moves(s, LinkStep(s, t, cl, n, id, carved), t, cl, 0)
  {}

  lemma StepSlots(c: Config, s: Sys, t: nat, ch: Choice)
    requires Shape(c, s) && t < c.threads && ClassesInRange(c, s.pcs[t]) && Step(c, s, t, ch).Some?
    ensures AllSlots(Step(c, s, t, ch).value) == AllSlots(s) - if Loses(c, s, t) then 1 else 0
  {
    hide Step, AllSlots, MaxCacheSize;
    if Inserting(s.pcs[t]) {
      InsertingSlots(c, s, t, ch);
    } else if Releasing(s.pcs[t]) {
      ReleasingSlots(c, s, t, ch);
    } else {
      OtherSlots(c, s, t, ch);
    }
  }

  /** The slots lost on the way. */
  ghost function Lost(c: Config, schedule: seq<(nat, Choice)>): nat
    requires c.Good()
  {
    if schedule == [] then 0
    else
      var s, move := Run(c, schedule[..|schedule| - 1]), schedule[|schedule| - 1];
      Lost(c, schedule[..|schedule| - 1]) + if Next(c, s, move) != s && Loses(c, s, move.0) then 1 else 0
  }

  /** In every run: what Init gave out is what the caches have, what is on its way, and what was lost because
      a cache had grown to its maximum while one of its threads was out for a slot. */
  lemma {:induction false} SlotsConserved(c: Config, schedule: seq<(nat, Choice)>)
    requires c.Good()
    ensures AllSlots(Run(c, schedule)) + Lost(c, schedule) == InitialSlots(c, |c.size|)
  {
    if schedule == [] {
      StartSlots(c);
    } else {
      var s, move := Run(c, schedule[..|schedule| - 1]), schedule[|schedule| - 1];
      SlotsConserved(c, schedule[..|schedule| - 1]);
      NextSlots(c, s, move);
    }
  }

  lemma NextSlots(c: Config, s: Sys, move: (nat, Choice))
    requires c.Good()
    ensures AllSlots(Next(c, s, move)) == AllSlots(s) - if Next(c, s, move) != s && Loses(c, s, move.0) then 1 else 0
  {
    hide Step, AllSlots, MaxCacheSize;
    if Shape(c, s) && move.0 < c.threads && ClassesInRange(c, s.pcs[move.0]) && Step(c, s, move.0, move.1).Some? {
      StepSlots(c, s, move.0, move.1);
    }
  }

  lemma StartSlots(c: Config)
    requires c.Good()
    ensures AllSlots(Start(c)) == InitialSlots(c, |c.size|)
  {
    SlotsOfStart(c, |c.size|);
    assert Start(c).lists[..|c.size|] == Start(c).lists;
    NoneInFlight(Start(c).pcs);
  }

  // ---------------------------------------------------------------- force is the second try

  /** A try to get a slot from another class: for which class and chain, and whether by force. */
  datatype Try = Try(cl: nat, chain: seq<Obj>, force: bool)

  /** The try thread at this point is in. */
  function Trying(pc: Pc): Option<Try> {
    match pc
    case EvictHeld(cl, chain, force) => Some(Try(cl, chain, force))
    case ShrinkWait(cl, chain, force, _) => Some(Try(cl, chain, force))
    case ShrinkHeld(cl, chain, force, _) => Some(Try(cl, chain, force))
    case ReturnWait(cl, chain, force, _) => Some(Try(cl, chain, force))
    case ReturnHeld(cl, chain, force, _) => Some(Try(cl, chain, force))
    case ReleaseHeld(_, _, BackTo(cl, chain)) => Some(Try(cl, chain, true))
    case DeleteWait(_, _, BackTo(cl, chain), _, _) => Some(Try(cl, chain, true))
    case DeleteHeld(_, _, BackTo(cl, chain), _, _) => Some(Try(cl, chain, true))
    case ReleaseWait(_, _, BackTo(cl, chain)) => Some(Try(cl, chain, true))
    case _ => None
  }

  /** A try goes on, or begins: a forced one where an unforced one was, that one with InsertRange. */
  ghost predicate TryFollows(pc: Pc, pc': Pc) {
    match Trying(pc')
    case None => true
    case Some(Try(cl, chain, force)) =>
      || Trying(pc) == Trying(pc')
      || (if force then Trying(pc) == Some(Try(cl, chain, false)) else pc == InsertHeld(cl, chain))
  }

  lemma StepTries(c: Config, s: Sys, t: nat, ch: Choice)
    requires Shape(c, s) && t < c.threads && ClassesInRange(c, s.pcs[t]) && Step(c, s, t, ch).Some?
    ensures var s' := Step(c, s, t, ch).value;
            |s'.pcs| == |s.pcs| && s'.pcs == s.pcs[t := s'.pcs[t]] && TryFollows(s.pcs[t], s'.pcs[t])
  {
    if Inserting(s.pcs[t]) {
      InsertingTries(c, s, t, ch);
    } else if Releasing(s.pcs[t]) {
      ReleasingTries(c, s, t, ch);
    } else {
      OtherTries(c, s, t, ch);
    }
  }

  lemma InsertingTries(c: Config, s: Sys, t: nat, ch: Choice)
    requires Shape(c, s) && t < c.threads && ClassesInRange(c, s.pcs[t]) && Inserting(s.pcs[t]) && Step(c, s, t, ch).Some?
    ensures var s' := Step(c, s, t, ch).value;
            |s'.pcs| == |s.pcs| && s'.pcs == s.pcs[t := s'.pcs[t]] && TryFollows(s.pcs[t], s'.pcs[t])
  {
    hide MaxCacheSize, Populate, FetchStep, Remove, LinkStep, Call, ReleaseStep, Delete;
  }

  lemma ReleasingTries(c: Config, s: Sys, t: nat, ch: Choice)
    requires Shape(c, s) && t < c.threads && ClassesInRange(c, s.pcs[t]) && Releasing(s.pcs[t]) && Step(c, s, t, ch).Some?
    ensures var s' := Step(c, s, t, ch).value;
            |s'.pcs| == |s.pcs| && s'.pcs == s.pcs[t := s'.pcs[t]] && TryFollows(s.pcs[t], s'.pcs[t])
  {
    hide MaxCacheSize, Populate, FetchStep, Remove, LinkStep, Call, Insert, Evict, Shrink, Returned, Release;
  }

  lemma OtherTries(c: Config, s: Sys, t: nat, ch: Choice)
    requires Shape(c, s) && t < c.threads && ClassesInRange(c, s.pcs[t]) && Step(c, s, t, ch).Some?
    requires !Inserting(s.pcs[t]) && !Releasing(s.pcs[t])
    ensures var s' := Step(c, s, t, ch).value;
            |s'.pcs| == |s.pcs| && s'.pcs == s.pcs[t := s'.pcs[t]] && TryFollows(s.pcs[t], s'.pcs[t])
  {
    hide FetchStep, Populate, Call;
    match s.pcs[t] {
      case Idle => CallTries(c, s, t, ch);
      case FetchHeld(cl, n, got, heap) => FetchTries(s, t, cl, n, got, heap);
      case PopulateHeld(cl, n) => PopulateTries(c, s, t, cl, n, ch);
      case _ =>
    }
  }

  lemma CallTries(c: Config, s: Sys, t: nat, ch: Choice)
    requires t < |s.pcs| && Call(c, s, t, ch).Some?
    ensures var s' := Call(c, s, t, ch).value;
            |s'.pcs| == |s.pcs| && s'.pcs == s.pcs[t := s'.pcs[t]] && Trying(s'.pcs[t]) == None
  {
    hide MayCall;
  }

  lemma FetchTries(s: Sys, t: nat, cl: nat, n: nat, got: seq<Obj>, heap: HeapAnswer)
    requires t < |s.pcs| && cl < |s.lists| && cl < |s.locks| && FetchStep(s, t, cl, n, got, heap).Some?
    ensures var s' := FetchStep(s, t, cl, n, got, heap).value;
            |s'.pcs| == |s.pcs| && s'.pcs == s.pcs[t := s'.pcs[t]] && Trying(s'.pcs[t]) == None
  {
    hide Fetch;
  }

  lemma PopulateTries(c: Config, s: Sys, t: nat, cl: nat, n: nat, ch: Choice)
    requires c.Good() && t < |s.pcs| && 1 <= cl < |c.size| && Populate(c, s, t, cl, n, ch).Some?
    ensures var s' := Populate(c, s, t, cl, n, ch).value;
            |s'.pcs| == |s.pcs| && s'.pcs == s.pcs[t := s'.pcs[t]] && Trying(s'.pcs[t]) == None
  {
    hide Carve;
  }

  /** From moment `j` of the run on the thread has been in the same InsertRange, and its try was unforced then. */
  ghost predicate TriedBefore(c: Config, schedule: seq<(nat, Choice)>, t: nat, cl: nat, chain: seq<Obj>, j: nat)
    requires c.Good() && j <= |schedule|
  {
    && t < |Run(c, schedule[..j]).pcs| && Trying(Run(c, schedule[..j]).pcs[t]) == Some(Try(cl, chain, false))
    && forall i :: j <= i <= |schedule| ==>
         && t < |Run(c, schedule[..i]).pcs| && Trying(Run(c, schedule[..i]).pcs[t]).Some?
         && Trying(Run(c, schedule[..i]).pcs[t]).value.cl == cl && Trying(Run(c, schedule[..i]).pcs[t]).value.chain == chain
  }

  /** In every run: where a thread is trying to evict by force, and where it gives back the chain it evicted so, it
      has tried without force before, in the same InsertRange. */
  lemma {:induction false} ForcedIsSecond(c: Config, schedule: seq<(nat, Choice)>, t: nat, cl: nat, chain: seq<Obj>)
    requires c.Good() && t < |Run(c, schedule).pcs| && Trying(Run(c, schedule).pcs[t]) == Some(Try(cl, chain, true))
    ensures exists j :: 0 <= j <= |schedule| && TriedBefore(c, schedule, t, cl, chain, j)
  {
    hide Run, Next, Trying, TriedBefore;
    RunNext(c, schedule);
    if schedule == [] {
      NobodyTries(c, t);
    } else {
      var before, move := schedule[..|schedule| - 1], schedule[|schedule| - 1];
      NextTries(c, Run(c, before), move, t, cl, chain);
      if Trying(Run(c, before).pcs[t]) == Some(Try(cl, chain, true)) {
        ForcedIsSecond(c, before, t, cl, chain);
        var j :| 0 <= j <= |before| && TriedBefore(c, before, t, cl, chain, j);
        LongerRun(c, schedule, t, cl, chain, j);
      } else {
        TriedNow(c, before, t, cl, chain);
        LongerRun(c, schedule, t, cl, chain, |before|);
      }
    }
  }

  lemma RunNext(c: Config, schedule: seq<(nat, Choice)>)
    requires c.Good()
    ensures schedule != [] ==> Run(c, schedule) == Next(c, Run(c, schedule[..|schedule| - 1]), schedule[|schedule| - 1])
  {
    hide Next;
  }

  lemma NobodyTries(c: Config, t: nat)
    requires c.Good() && t < |Run(c, []).pcs|
    ensures Trying(Run(c, []).pcs[t]) == None
  {}

  lemma TriedNow(c: Config, schedule: seq<(nat, Choice)>, t: nat, cl: nat, chain: seq<Obj>)
    requires c.Good() && t < |Run(c, schedule).pcs| && Trying(Run(c, schedule).pcs[t]) == Some(Try(cl, chain, false))
    ensures TriedBefore(c, schedule, t, cl, chain, |schedule|)
  {
    hide Run, Trying;
    assert schedule[..|schedule|] == schedule;
  }

  lemma NextTries(c: Config, s: Sys, move: (nat, Choice), t: nat, cl: nat, chain: seq<Obj>)
    requires c.Good() && t < |Next(c, s, move).pcs| && Trying(Next(c, s, move).pcs[t]) == Some(Try(cl, chain, true))
    ensures t < |s.pcs| && (Trying(s.pcs[t]) == Some(Try(cl, chain, true)) || Trying(s.pcs[t]) == Some(Try(cl, chain, false)))
  {
    hide Step, Trying;
    if Shape(c, s) && move.0 < c.threads && ClassesInRange(c, s.pcs[move.0]) && Step(c, s, move.0, move.1).Some? {
      StepTries(c, s, move.0, move.1);
    }
  }

  lemma LongerRun(c: Config, schedule: seq<(nat, Choice)>, t: nat, cl: nat, chain: seq<Obj>, j: nat)
    requires c.Good() && schedule != [] && j < |schedule| && TriedBefore(c, schedule[..|schedule| - 1], t, cl, chain, j)
    requires t < |Run(c, schedule).pcs| && Trying(Run(c, schedule).pcs[t]) == Some(Try(cl, chain, true))
    ensures TriedBefore(c, schedule, t, cl, chain, j)
  {
    hide Run, Trying;
    var before := schedule[..|schedule| - 1];
    assert schedule[..|schedule|] == schedule;
    forall i | 0 <= i <= |before|
      ensures before[..i] == schedule[..i]
    {}
  }

  // ---------------------------------------------------------------- one thread alone

  /** Thread `t` takes these transitions, one after the other. */
  ghost function Steps(c: Config, s: Sys, t: nat, choices: seq<Choice>): Option<Sys>
    decreases |choices|
  {
    if choices == [] then Some(s)
    else if !(Shape(c, s) && t < c.threads && ClassesInRange(c, s.pcs[t])) then None
    else match Step(c, s, t, choices[0]) case None => None case Some(s') => Steps(c, s', t, choices[1..])
  }

  lemma OneStep(c: Config, s: Sys, t: nat, choices: seq<Choice>, s': Sys)
    requires choices != [] && Shape(c, s) && t < c.threads && ClassesInRange(c, s.pcs[t])
    requires Step(c, s, t, choices[0]) == Some(s')
    ensures Steps(c, s, t, choices) == Steps(c, s', t, choices[1..])
  {}

  lemma NoStep(c: Config, s: Sys, t: nat)
    ensures Steps(c, s, t, []) == Some(s)
  {}

  /** A full cache below its maximum grows at the cost of a class with an unused slot, and takes the chain. */
  lemma StealWorks(c: Config, s: Sys, t: nat, cl: nat, chain: seq<Obj>, v: nat)
    requires Shape(c, s) && t < c.threads && 1 <= cl < |c.size| && v < |c.size| && v != cl
    requires s.pcs[t] == InsertHeld(cl, chain) && |chain| == c.batch[cl] && s.locks[cl] == Some(t) && s.locks[v] == None
    requires |s.lists[cl].slots| == s.lists[cl].cacheSize < MaxCacheSize(c, cl)
    requires |s.lists[v].slots| < s.lists[v].cacheSize
    ensures var l, victim := s.lists[cl], s.lists[v];
            Steps(c, s, t, [Go, Victim(v, true), Go, Go, Go, Go]) == Some(s.(
              lists := s.lists[v := victim.(cacheSize := victim.cacheSize - 1)]
                              [cl := l.(slots := l.slots + [chain], cacheSize := l.cacheSize + 1)],
              locks := s.locks[cl := None], pcs := s.pcs[t := Idle]))
  {
    hide MaxCacheSize, Steps, Step;
    var choices := [Go, Victim(v, true), Go, Go, Go, Go];
    var victim := s.lists[v];
    var s4 := s.(lists := s.lists[v := victim.(cacheSize := victim.cacheSize - 1)],
                 locks := s.locks[cl := None][v := None], pcs := s.pcs[t := ReturnWait(cl, chain, false, true)]);
    SlotGoes(c, s, t, cl, chain, v, [Go, Go]);
    assert choices == [Go, Victim(v, true), Go, Go] + [Go, Go];
    SameShape(c, s, s4);
    WonGoes(c, s4, t, cl, chain);
    assert s4.locks[cl := None] == s.locks[cl := None];
    assert s4.pcs[t := Idle] == s.pcs[t := Idle];
  }

  lemma SameShape(c: Config, s: Sys, s': Sys)
    requires Shape(c, s) && |s'.lists| == |s.lists| && |s'.locks| == |s.locks| && |s'.pcs| == |s.pcs|
    ensures Shape(c, s')
  {}

  /** The first half: another class has given its slot up. */
  lemma SlotGoes(c: Config, s: Sys, t: nat, cl: nat, chain: seq<Obj>, v: nat, rest: seq<Choice>)
    requires Shape(c, s) && t < c.threads && 1 <= cl < |c.size| && v < |c.size| && v != cl
    requires s.pcs[t] == InsertHeld(cl, chain) && |chain| == c.batch[cl] && s.locks[cl] == Some(t) && s.locks[v] == None
    requires |s.lists[cl].slots| == s.lists[cl].cacheSize < MaxCacheSize(c, cl)
    requires |s.lists[v].slots| < s.lists[v].cacheSize
    ensures var victim := s.lists[v];
            Steps(c, s, t, [Go, Victim(v, true), Go, Go] + rest)
            == Steps(c, s.(lists := s.lists[v := victim.(cacheSize := victim.cacheSize - 1)],
                           locks := s.locks[cl := None][v := None],
                           pcs := s.pcs[t := ReturnWait(cl, chain, false, true)]), t, rest)
  {
    hide MaxCacheSize, Steps, Step;
    var choices := [Go, Victim(v, true), Go, Go] + rest;
    var s1 := SetPc(s, t, EvictHeld(cl, chain, false));
    FullGoes(c, s, t, cl, chain);
    OneStep(c, s, t, choices, s1);
    var s2 := Unlock(s1, t, cl, ShrinkWait(cl, chain, false, v));
    EvictGoes(c, s1, t, cl, chain, false, v);
    OneStep(c, s1, t, choices[1..], s2);
    var s3 := SetPc(s2, t, ShrinkHeld(cl, chain, false, v)).(locks := s2.locks[v := Some(t)]);
    LockGoes(c, s2, t, v);
    OneStep(c, s2, t, choices[1..][1..], s3);
    var victim := s.lists[v];
    var s4 := Unlock(s3, t, v, ReturnWait(cl, chain, false, true))
              .(lists := s3.lists[v := victim.(cacheSize := victim.cacheSize - 1)]);
    ShrinkGoes(c, s3, t, cl, chain, v);
    OneStep(c, s3, t, choices[1..][1..][1..], s4);
    assert choices[1..][1..][1..][1..] == rest;
    assert s4.locks == s.locks[cl := None][v := None];
    assert s4.pcs == s.pcs[t := ReturnWait(cl, chain, false, true)];
  }

  /** The second half: the slot won goes to the cache that asked for it, and the chain into it. */
  lemma WonGoes(c: Config, s: Sys, t: nat, cl: nat, chain: seq<Obj>)
    requires Shape(c, s) && t < c.threads && 1 <= cl < |c.size|
    requires s.pcs[t] == ReturnWait(cl, chain, false, true) && s.locks[cl] == None
    requires s.lists[cl].cacheSize < MaxCacheSize(c, cl)
    ensures var l := s.lists[cl];
            Steps(c, s, t, [Go, Go]) == Some(s.(
              lists := s.lists[cl := l.(slots := l.slots + [chain], cacheSize := l.cacheSize + 1)],
              locks := s.locks[cl := None], pcs := s.pcs[t := Idle]))
  {
    hide MaxCacheSize, Steps, Step;
    var choices := [Go, Go];
    var s1 := SetPc(s, t, ReturnHeld(cl, chain, false, true)).(locks := s.locks[cl := Some(t)]);
    LockGoes(c, s, t, cl);
    OneStep(c, s, t, choices, s1);
    var l := s.lists[cl];
    var s2 := Unlock(s1, t, cl, Idle).(lists := s1.lists[cl := l.(slots := l.slots + [chain], cacheSize := l.cacheSize + 1)]);
    ReturnGoes(c, s1, t, cl, chain);
    OneStep(c, s1, t, choices[1..], s2);
    NoStep(c, s2, t);
    assert s2.locks == s.locks[cl := None];
    assert s2.pcs == s.pcs[t := Idle];
  }

  lemma FullGoes(c: Config, s: Sys, t: nat, cl: nat, chain: seq<Obj>)
    requires Shape(c, s) && t < c.threads && 1 <= cl < |c.size| && s.pcs[t] == InsertHeld(cl, chain)
    requires |chain| == c.batch[cl] && |s.lists[cl].slots| == s.lists[cl].cacheSize < MaxCacheSize(c, cl)
    ensures Step(c, s, t, Go) == Some(SetPc(s, t, EvictHeld(cl, chain, false)))
  {
    hide MaxCacheSize;
  }

  lemma EvictGoes(c: Config, s: Sys, t: nat, cl: nat, chain: seq<Obj>, force: bool, v: nat)
    requires Shape(c, s) && t < c.threads && 1 <= cl < |c.size| && v < |c.size| && v != cl
    requires s.pcs[t] == EvictHeld(cl, chain, force)
    ensures Step(c, s, t, Victim(v, true)) == Some(Unlock(s, t, cl, ShrinkWait(cl, chain, force, v)))
    ensures !force ==> Step(c, s, t, Victim(v, false)) == Some(SetPc(s, t, EvictHeld(cl, chain, true)))
  {}

  lemma LockGoes(c: Config, s: Sys, t: nat, k: nat)
    requires Shape(c, s) && t < c.threads && k < |c.size| && s.locks[k] == None && ClassesInRange(c, s.pcs[t])
    requires match s.pcs[t] case ShrinkWait(_, _, _, v) => v == k case ReturnWait(cl, _, _, _) => cl == k case _ => false
    ensures match s.pcs[t]
            case ShrinkWait(cl, chain, force, v) =>
              Step(c, s, t, Go) == Some(SetPc(s, t, ShrinkHeld(cl, chain, force, v)).(locks := s.locks[k := Some(t)]))
            case ReturnWait(cl, chain, force, won) =>
              Step(c, s, t, Go) == Some(SetPc(s, t, ReturnHeld(cl, chain, force, won)).(locks := s.locks[k := Some(t)]))
            case _ => true
  {}

  lemma ShrinkGoes(c: Config, s: Sys, t: nat, cl: nat, chain: seq<Obj>, v: nat)
    requires Shape(c, s) && t < c.threads && 1 <= cl < |c.size| && v < |c.size|
    requires s.pcs[t] == ShrinkHeld(cl, chain, false, v) && |s.lists[v].slots| < s.lists[v].cacheSize
    ensures Step(c, s, t, Go) == Some(Unlock(s, t, v, ReturnWait(cl, chain, false, true))
                                      .(lists := s.lists[v := s.lists[v].(cacheSize := s.lists[v].cacheSize - 1)]))
  {}

  lemma ForceGoes(c: Config, s: Sys, t: nat, cl: nat, chain: seq<Obj>, v: nat)
    requires Shape(c, s) && t < c.threads && 1 <= cl < |c.size| && v < |c.size|
    requires s.pcs[t] == ShrinkHeld(cl, chain, true, v) && |s.lists[v].slots| == s.lists[v].cacheSize > 0
    ensures var l, last := s.lists[v], |s.lists[v].slots| - 1;
            Step(c, s, t, Go) == Some(SetPc(s, t, ReleaseHeld(v, l.slots[last], BackTo(cl, chain)))
                                      .(lists := s.lists[v := l.(slots := l.slots[..last], cacheSize := l.cacheSize - 1)]))
  {}

  lemma ReturnGoes(c: Config, s: Sys, t: nat, cl: nat, chain: seq<Obj>)
    requires Shape(c, s) && t < c.threads && 1 <= cl < |c.size|
    requires s.pcs[t] == ReturnHeld(cl, chain, false, true) && s.lists[cl].cacheSize < MaxCacheSize(c, cl)
    ensures var l := s.lists[cl];
            Step(c, s, t, Go) == Some(Unlock(s, t, cl, Idle)
                                      .(lists := s.lists[cl := l.(slots := l.slots + [chain], cacheSize := l.cacheSize + 1)]))
  {
    hide MaxCacheSize;
    var l := s.lists[cl];
    var grown := s.lists[cl := l.(cacheSize := l.cacheSize + 1)];
    var stored := l.(slots := l.slots + [chain], cacheSize := l.cacheSize + 1);
    assert grown[cl := stored] == s.lists[cl := stored];
  }

  /** With no unused slot anywhere, the last entry of another class is taken out for it by force. */
  lemma ForceWorks(c: Config, s: Sys, t: nat, cl: nat, chain: seq<Obj>, v: nat)
    requires Shape(c, s) && t < c.threads && 1 <= cl < |c.size| && v < |c.size| && v != cl
    requires s.pcs[t] == InsertHeld(cl, chain) && |chain| == c.batch[cl] && s.locks[cl] == Some(t) && s.locks[v] == None
    requires |s.lists[cl].slots| == s.lists[cl].cacheSize < MaxCacheSize(c, cl)
    requires |s.lists[v].slots| == s.lists[v].cacheSize > 0
    ensures var victim := s.lists[v];
            Steps(c, s, t, [Go, Victim(v, false), Victim(v, true), Go, Go]) == Some(s.(
              lists := s.lists[v := victim.(slots := victim.slots[..|victim.slots| - 1], cacheSize := victim.cacheSize - 1)],
              locks := s.locks[cl := None][v := Some(t)],
              pcs := s.pcs[t := ReleaseHeld(v, victim.slots[|victim.slots| - 1], BackTo(cl, chain))]))
  {
    hide MaxCacheSize, Steps, Step, Insert, Evict, Shrink, Returned;
    var choices := [Go, Victim(v, false), Victim(v, true), Go, Go];
    var s1 := SetPc(s, t, EvictHeld(cl, chain, false));
    FullGoes(c, s, t, cl, chain);
    OneStep(c, s, t, choices, s1);
    var s2 := SetPc(s1, t, EvictHeld(cl, chain, true));
    EvictGoes(c, s1, t, cl, chain, false, v);
    OneStep(c, s1, t, choices[1..], s2);
    var s3 := Unlock(s2, t, cl, ShrinkWait(cl, chain, true, v));
    EvictGoes(c, s2, t, cl, chain, true, v);
    OneStep(c, s2, t, choices[1..][1..], s3);
    var s4 := SetPc(s3, t, ShrinkHeld(cl, chain, true, v)).(locks := s3.locks[v := Some(t)]);
    LockGoes(c, s3, t, v);
    OneStep(c, s3, t, choices[1..][1..][1..], s4);
    var l, last := s.lists[v], |s.lists[v].slots| - 1;
    var s5 := SetPc(s4, t, ReleaseHeld(v, l.slots[last], BackTo(cl, chain)))
              .(lists := s.lists[v := l.(slots := l.slots[..last], cacheSize := l.cacheSize - 1)]);
    ForceGoes(c, s4, t, cl, chain, v);
    OneStep(c, s4, t, choices[1..][1..][1..][1..], s5);
    NoStep(c, s5, t);
    assert s5.pcs == s.pcs[t := s5.pcs[t]];
  }

  /** RemoveRange is the opposite operation: a full transfer that is put into an unused slot is what the next
      RemoveRange of as many objects takes out, and everything is as before. */
  lemma StoredAndTaken(c: Config, s: Sys, t: nat, cl: nat, chain: seq<Obj>)
    requires Shape(c, s) && t < c.threads && s.pcs[t] == Idle && 1 <= cl < |c.size| && s.locks[cl] == None
    requires MayCall(c, s, CallInsert(cl, chain)) && |chain| == c.batch[cl]
    requires |s.lists[cl].slots| < s.lists[cl].cacheSize
    ensures Steps(c, s, t, [CallInsert(cl, chain), Go, Go, CallRemove(cl, |chain|), Go, Go]) == Some(s)
  {
    hide MaxCacheSize, Steps, MayCall;
    var choices := [CallInsert(cl, chain), Go, Go, CallRemove(cl, |chain|), Go, Go];
    var l := s.lists[cl];
    var s1 := SetPc(s, t, InsertWait(cl, chain)).(out := s.out - Elems(chain));
    OneStep(c, s, t, choices, s1);
    var s2 := Lock(s1, t, cl, InsertHeld(cl, chain)).value;
    OneStep(c, s1, t, choices[1..], s2);
    var s3 := Insert(c, s2, t, cl, chain);
    OneStep(c, s2, t, choices[1..][1..], s3);
    var s4 := SetPc(s3, t, RemoveWait(cl, |chain|));
    RemoveMayCall(c, s3, cl, |chain|);
    OneStep(c, s3, t, choices[1..][1..][1..], s4);
    var s5 := Lock(s4, t, cl, RemoveHeld(cl, |chain|)).value;
    OneStep(c, s4, t, choices[1..][1..][1..][1..], s5);
    var s6 := Remove(c, s5, t, cl, |chain|);
    OneStep(c, s5, t, choices[1..][1..][1..][1..][1..], s6);
    NoStep(c, s6, t);
    OutAgain(c, s, cl, chain);
    assert (l.slots + [chain])[..|l.slots|] == l.slots;
    assert s6.lists == s.lists && s6.locks == s.locks && s6.pcs == s.pcs && s6.out == s.out;
  }

  lemma RemoveMayCall(c: Config, s: Sys, cl: nat, n: nat)
    requires 1 <= cl < |c.size| && n > 0
    ensures MayCall(c, s, CallRemove(cl, n))
  {}

  lemma OutAgain(c: Config, s: Sys, cl: nat, chain: seq<Obj>)
    requires MayCall(c, s, CallInsert(cl, chain))
    ensures s.out - Elems(chain) + Elems(chain) == s.out && chain != []
  {}
}
