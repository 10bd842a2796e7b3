/** The concurrency limiter as an interleaving of requests (src/transport/limit.rs).

    A step is one semaphore operation, one acquisition of the map mutex, the inspection of
    one map entry by the sweep, or the clone of a handle. Permits are released in the order
    the guards are dropped: the identity permit first, then the global one. A request can
    be dropped while it waits for the mutex or while its handler runs. */
module Limiter {
  import opened Common

  /** Identities are only ever compared for equality. */
  type Sub = nat
  type Tid = nat
  type SemId = nat

  /** `held` are the requests holding one of the semaphore's permits. */
  datatype Sem = Sem(owner: Sub, held: set<Tid>)

  /** `limited` says whether the request was turned away at its identity's cap. In
      `Sweeping`, `todo` are the entries not yet inspected and `base` the semaphores some
      request had a handle to when the sweep began. */
  datatype Phase =
    | Arrived
    | Waiting
    | Sweeping(todo: set<Sub>, base: set<SemId>)
    | Inside(swept: bool)
    | HasHandle(sem: SemId)
    | Serving(permit: Option<SemId>)
    | Leaving(limited: bool)
    | Overloaded
    | Done(limited: bool)
  {
    predicate HasGlobal() { !Arrived? && !Overloaded? && !Done? }
    predicate HasMutex() { Sweeping? || Inside? }
    function SemOf(): Option<SemId> {
      if HasHandle? then Some(sem) else if Serving? then permit else None
    }
  }

  /** `sub` is `None` when no identity is attached. */
  datatype Request = Request(sub: Option<Sub>, phase: Phase)

  datatype Limits = Limits(global: nat, perIdentity: nat, maxTracked: nat)

  /** `stranded` collects the requests that held a semaphore's handle, and no permit yet, at
      the moment a sweep dropped it from the map. */
  datatype State = State(limits: Limits, global: set<Tid>, tracked: map<Sub, SemId>, sems: seq<Sem>,
                         mutex: Option<Tid>, requests: map<Tid, Request>, stranded: set<Tid>)

  datatype Action = Begin(t: Tid, sub: Option<Sub>) | Advance(t: Tid) | Inspect(t: Tid, k: Sub) | Disconnect(t: Tid)

  function SetPhase(s: State, t: Tid, p: Phase): State
    requires t in s.requests
  {
    s.(requests := s.requests[t := s.requests[t].(phase := p)])
  }

  function SetHeld(s: State, sem: SemId, held: set<Tid>): State
    requires sem < |s.sems|
  {
    s.(sems := s.sems[sem := s.sems[sem].(held := held)])
  }

  function Free(s: State, sem: SemId): int
    requires sem < |s.sems|
  {
    s.limits.perIdentity - |s.sems[sem].held|
  }

  /** The semaphores some request has a handle to or a permit of. */
  function InUse(s: State): set<SemId> {
    set t | t in s.requests && s.requests[t].phase.SemOf().Some? :: s.requests[t].phase.SemOf().value
  }

  /** The requests with a handle to the semaphore and no permit. */
  function Holders(s: State, sem: SemId): set<Tid> {
    set t | t in s.requests && s.requests[t].phase == HasHandle(sem)
  }

  function AdvanceRequest(s: State, t: Tid): Option<State>
    requires t in s.requests
  {
    var r := s.requests[t];
    match r.phase
    case Arrived =>
      if |s.global| < s.limits.global
      then Some(SetPhase(s, t, if r.sub.None? then Serving(None) else Waiting).(global := s.global + {t}))
      else Some(SetPhase(s, t, Overloaded))
    case Waiting =>
      if s.mutex.Some? || r.sub.None? then None
      else if r.sub.value !in s.tracked && |s.tracked| >= s.limits.maxTracked
      then Some(SetPhase(s, t, Sweeping(s.tracked.Keys, InUse(s))).(mutex := Some(t)))
      else Some(SetPhase(s, t, Inside(false)).(mutex := Some(t)))
    case Sweeping(todo, _) => if todo == {} then Some(SetPhase(s, t, Inside(true))) else None
    case Inside(_) =>
      if r.sub.None? then None
      else if r.sub.value in s.tracked then Some(SetPhase(s, t, HasHandle(s.tracked[r.sub.value])).(mutex := None))
      else
        Some(SetPhase(s, t, HasHandle(|s.sems|)).(mutex := None, tracked := s.tracked[r.sub.value := |s.sems|],
                                                  sems := s.sems + [Sem(r.sub.value, {})]))
    case HasHandle(sem) =>
      if |s.sems| <= sem then None
      else if Free(s, sem) > 0 then Some(SetHeld(SetPhase(s, t, Serving(Some(sem))), sem, s.sems[sem].held + {t}))
      else Some(SetPhase(s, t, Leaving(true)))
    case Serving(permit) => FinishServing(s, t, permit)
    case Leaving(limited) => Some(SetPhase(s, t, Done(limited)).(global := s.global - {t}))
    case Overloaded => None
    case Done(_) => None
  }

  /** The handler is over: the identity permit goes back. */
  function FinishServing(s: State, t: Tid, permit: Option<SemId>): Option<State>
    requires t in s.requests
  {
    match permit
    case None => Some(SetPhase(s, t, Leaving(false)))
    case Some(sem) =>
      if |s.sems| <= sem then None
      else Some(SetHeld(SetPhase(s, t, Leaving(false)), sem, s.sems[sem].held - {t}))
  }

  function Apply(s: State, a: Action): Option<State> {
    match a
    case Begin(t, sub) => if t in s.requests then None else Some(s.(requests := s.requests[t := Request(sub, Arrived)]))
    case Advance(t) => if t in s.requests then AdvanceRequest(s, t) else None
    case Inspect(t, k) =>
      if t in s.requests && s.requests[t].phase.Sweeping? && k in s.requests[t].phase.todo && k in s.tracked
          && s.tracked[k] < |s.sems| then
        var p := s.requests[t].phase;
        var s1 := SetPhase(s, t, p.(todo := p.todo - {k}));
        if Free(s, s.tracked[k]) < s.limits.perIdentity then Some(s1)
        else Some(s1.(tracked := s.tracked - {k}, stranded := s.stranded + Holders(s, s.tracked[k])))
      else None
    case Disconnect(t) =>
      if t in s.requests && s.requests[t].phase.Waiting? then Some(SetPhase(s, t, Leaving(false)))
      else if t in s.requests && s.requests[t].phase.Serving? then FinishServing(s, t, s.requests[t].phase.permit)
      else None
  }

  function Run(s: State, schedule: seq<Action>): Option<State> {
    if schedule == [] then Some(s)
    else
      match Run(s, schedule[..|schedule| - 1])
      case None => None
      case Some(m) => Apply(m, schedule[|schedule| - 1])
  }

  function Start(limits: Limits): State {
    State(limits, {}, map[], [], None, map[], {})
  }

  ghost predicate Reachable(s: State) {
    exists schedule :: Run(Start(s.limits), schedule) == Some(s)
  }

  // ---------------------------------------------------------------- invariant

  ghost predicate RequestInv(s: State, t: Tid, r: Request) {
    && (r.phase.HasGlobal() <==> t in s.global)
    && (r.phase.HasMutex() <==> s.mutex == Some(t))
    && (r.phase.SemOf().Some? ==>
          r.phase.SemOf().value < |s.sems| && r.sub == Some(s.sems[r.phase.SemOf().value].owner))
    && (r.phase.HasMutex() || r.phase.Waiting? ==> r.sub.Some?)
    && (r.phase == Serving(None) ==> r.sub.None?)
    && (r.phase.Sweeping? ==> SweepInv(s, t, r))
    && (r.phase.Inside? && r.sub.value !in s.tracked ==>
          if r.phase.swept then |s.tracked| < s.limits.global else |s.tracked| < s.limits.maxTracked)
  }

  /** While the mutex is held no request gets a new handle, so what the sweep keeps was
      in use when it began. */
  ghost predicate SweepInv(s: State, t: Tid, r: Request) {
    && r.phase.Sweeping?
    && r.phase.todo <= s.tracked.Keys
    && |r.phase.base| < s.limits.global
    && InUse(s) <= r.phase.base
    && (forall k :: k in s.tracked && k !in r.phase.todo ==> s.tracked[k] in r.phase.base)
  }

  ghost predicate SemInv(s: State, sem: SemId)
    requires sem < |s.sems|
  {
    && |s.sems[sem].held| <= s.limits.perIdentity
    && (forall t :: t in s.sems[sem].held <==> t in s.requests && s.requests[t].phase == Serving(Some(sem)))
  }

  /** Whoever was not stranded is on the semaphore the map has for its identity. */
  ghost predicate OneSem(s: State, t: Tid, r: Request) {
    r.phase.SemOf().Some? && r.sub.Some? && t !in s.stranded ==>
      r.sub.value in s.tracked && s.tracked[r.sub.value] == r.phase.SemOf().value
  }

  ghost predicate MapInv(s: State) {
    && (forall k :: k in s.tracked ==> s.tracked[k] < |s.sems| && s.sems[s.tracked[k]].owner == k)
    && |s.tracked| <= Max(s.limits.maxTracked, s.limits.global)
  }

  ghost predicate Inv(s: State) {
    && |s.global| <= s.limits.global
    && s.global <= s.requests.Keys
    && (s.mutex.Some? ==> s.mutex.value in s.requests)
    && MapInv(s)
    && (forall t :: t in s.requests ==> RequestInv(s, t, s.requests[t]))
    && (forall t :: t in s.requests ==> OneSem(s, t, s.requests[t]))
    && (forall sem: nat :: sem < |s.sems| ==> SemInv(s, sem))
  }

  // ---------------------------------------------------------------- frames

  /** `s'` differs from `s` in request `t` and what belongs to it. */
  ghost predicate OnlyRequest(s: State, s': State, t: Tid) {
    && t in s'.requests && s'.requests == s.requests[t := s'.requests[t]] && s'.limits == s.limits
    && s'.global - {t} == s.global - {t}
    && |s.sems| <= |s'.sems| && (forall i :: 0 <= i < |s.sems| ==> s'.sems[i].owner == s.sems[i].owner)
    && (forall x :: x != t ==> (s'.mutex == Some(x) <==> s.mutex == Some(x)))
  }

  ghost predicate NoNewHandle(s: State, s': State, t: Tid) {
    t in s'.requests && (s'.requests[t].phase.SemOf().None?
        || (t in s.requests && s'.requests[t].phase.SemOf() == s.requests[t].phase.SemOf()))
  }

  lemma InUseShrinks(s: State, s': State, t: Tid)
    requires OnlyRequest(s, s', t) && NoNewHandle(s, s', t)
    ensures InUse(s') <= InUse(s)
  {
    forall sem | sem in InUse(s') ensures sem in InUse(s) {
      var x :| x in s'.requests && s'.requests[x].phase.SemOf() == Some(sem);
      assert x in s.requests && s.requests[x].phase.SemOf() == Some(sem);
    }
  }

  lemma OthersKept(s: State, s': State, t: Tid)
    requires Inv(s) && OnlyRequest(s, s', t)
    requires s.mutex != Some(t) && s.mutex.Some? ==> s'.tracked == s.tracked && NoNewHandle(s, s', t)
    ensures forall x :: x in s'.requests && x != t ==> RequestInv(s', x, s'.requests[x])
  {
    forall x | x in s'.requests && x != t ensures RequestInv(s', x, s'.requests[x]) {
      assert RequestInv(s, x, s.requests[x]);
      assert x in s'.global <==> x in s'.global - {t};
      assert x in s.global <==> x in s.global - {t};
      if s.requests[x].phase.Sweeping? {
        InUseShrinks(s, s', t);
        assert SweepInv(s, x, s.requests[x]);
      }
    }
  }

  /** A step that leaves the pools and the map alone. */
  lemma PlainStep(s: State, s': State, t: Tid)
    requires Inv(s) && OnlyRequest(s, s', t)
    requires s' == s.(requests := s'.requests, global := s'.global, mutex := s'.mutex)
    requires |s'.global| <= s.limits.global && s'.global <= s'.requests.Keys
    requires s'.mutex.Some? ==> s'.mutex.value in s'.requests
    requires s'.requests[t].phase.SemOf().None?
    requires (t in s.requests ==> !s.requests[t].phase.Serving? || s.requests[t].phase == Serving(None))
    requires RequestInv(s', t, s'.requests[t])
    ensures Inv(s')
  {
    OthersKept(s, s', t);
    forall sem: nat | sem < |s'.sems| ensures SemInv(s', sem) {
      assert SemInv(s, sem);
    }
    forall x | x in s'.requests ensures OneSem(s', x, s'.requests[x]) {
      if x != t { assert OneSem(s, x, s.requests[x]); }
    }
  }

  // ---------------------------------------------------------------- counting

  lemma {:induction false} Injection<A, B>(xs: set<A>, ys: set<B>, f: A -> B)
    requires forall x :: x in xs ==> f(x) in ys
    requires forall x, y :: x in xs && y in xs && f(x) == f(y) ==> x == y
    ensures |xs| <= |ys|
  {
    if xs == {} {
    } else {
      var x :| x in xs;
      Injection(xs - {x}, ys - {f(x)}, f);
    }
  }

  lemma {:induction false} Surjection<A, B>(xs: set<A>, ys: set<B>, f: A -> B)
    requires forall y :: y in ys ==> exists x :: x in xs && f(x) == y
    ensures |ys| <= |xs|
  {
    if ys == {} {
    } else {
      var y :| y in ys;
      var x :| x in xs && f(x) == y;
      forall z | z in ys - {y} ensures exists w :: w in xs - {x} && f(w) == z {
        var w :| w in xs && f(w) == z;
        assert w in xs - {x};
      }
      Surjection(xs - {x}, ys - {y}, f);
    }
  }

  ghost function Users(s: State): set<Tid> {
    set x | x in s.requests && s.requests[x].phase.SemOf().Some?
  }

  lemma InUseImage(s: State)
    ensures |InUse(s)| <= |Users(s)|
  {
    var f := (x: Tid) =>
      if x in s.requests && s.requests[x].phase.SemOf().Some? then s.requests[x].phase.SemOf().value else 0;
    forall sem | sem in InUse(s) ensures exists x :: x in Users(s) && f(x) == sem {
      var x :| x in s.requests && s.requests[x].phase.SemOf() == Some(sem);
      assert x in Users(s) && f(x) == sem;
    }
    Surjection(Users(s), InUse(s), f);
  }

  /** Handles belong to requests with a global permit, and `t` has none. */
  lemma InUseBound(s: State, t: Tid)
    requires Inv(s) && t in s.global && s.requests[t].phase.SemOf().None?
    ensures |InUse(s)| < s.limits.global
  {
    InUseImage(s);
    forall x | x in Users(s) ensures x in s.global - {t} {
      assert RequestInv(s, x, s.requests[x]);
    }
    Injection(Users(s), s.global - {t}, (x: Tid) => x);
  }

  /** Once every entry is inspected, what is left fits under the global cap. */
  lemma KeptFit(s: State, t: Tid)
    requires Inv(s) && t in s.requests && s.requests[t].phase.Sweeping? && s.requests[t].phase.todo == {}
    ensures |s.tracked| < s.limits.global
  {
    var base := s.requests[t].phase.base;
    assert RequestInv(s, t, s.requests[t]);
    var f := (k: Sub) => if k in s.tracked then s.tracked[k] else 0;
    Injection(s.tracked.Keys, base, f);
    assert |s.tracked| == |s.tracked.Keys|;
  }

  // ---------------------------------------------------------------- every step

  lemma BeginKeeps(s: State, t: Tid, sub: Option<Sub>)
    requires Inv(s) && Apply(s, Begin(t, sub)).Some?
    ensures Inv(Apply(s, Begin(t, sub)).value)
  {
    PlainStep(s, Apply(s, Begin(t, sub)).value, t);
  }

  lemma SweptKeeps(s: State, t: Tid)
    requires Inv(s) && t in s.requests && AdvanceRequest(s, t).Some? && s.requests[t].phase.Sweeping?
    ensures Inv(AdvanceRequest(s, t).value)
  {
    var s' := AdvanceRequest(s, t).value;
    assert RequestInv(s, t, s.requests[t]);
    KeptFit(s, t);
    PlainStep(s, s', t);
  }

  lemma AdmitFrame(s: State, t: Tid)
    requires t in s.requests && s.requests[t].phase.Arrived? && RequestInv(s, t, s.requests[t])
    requires |s.global| < s.limits.global
    ensures var s' := AdvanceRequest(s, t).value;
            && OnlyRequest(s, s', t) && RequestInv(s', t, s'.requests[t]) && |s'.global| <= s.limits.global
            && s' == s.(requests := s'.requests, global := s.global + {t}) && !s'.requests[t].phase.SemOf().Some?
  {
    var s' := AdvanceRequest(s, t).value;
    assert |s'.global| == |s.global| + 1 && s'.global - {t} == s.global - {t};
  }

  lemma AdmitKeeps(s: State, t: Tid)
    requires Inv(s) && t in s.requests && s.requests[t].phase.Arrived? && |s.global| < s.limits.global
    ensures Inv(AdvanceRequest(s, t).value)
  {
    assert RequestInv(s, t, s.requests[t]);
    AdmitFrame(s, t);
    PlainStep(s, AdvanceRequest(s, t).value, t);
  }

  lemma ShedKeeps(s: State, t: Tid)
    requires Inv(s) && t in s.requests && s.requests[t].phase.Arrived?
    ensures Inv(SetPhase(s, t, Overloaded))
  {
    assert RequestInv(s, t, s.requests[t]);
    PlainStep(s, SetPhase(s, t, Overloaded), t);
  }

  lemma LeaveFrame(s: State, t: Tid)
    requires t in s.requests && s.requests[t].phase.Leaving? && RequestInv(s, t, s.requests[t])
    ensures var s' := AdvanceRequest(s, t).value;
            && OnlyRequest(s, s', t) && RequestInv(s', t, s'.requests[t]) && |s'.global| <= |s.global|
            && s' == s.(requests := s'.requests, global := s.global - {t}) && !s'.requests[t].phase.SemOf().Some?
  {
    var s' := AdvanceRequest(s, t).value;
    assert |s'.global| <= |s.global| && s'.global - {t} == s.global - {t};
  }

  lemma LeaveKeeps(s: State, t: Tid)
    requires Inv(s) && t in s.requests && s.requests[t].phase.Leaving?
    ensures Inv(AdvanceRequest(s, t).value)
  {
    assert RequestInv(s, t, s.requests[t]);
    LeaveFrame(s, t);
    PlainStep(s, AdvanceRequest(s, t).value, t);
  }

  /** A request without an identity permit gives up waiting or is done. */
  lemma GiveUpKeeps(s: State, t: Tid, limited: bool)
    requires Inv(s) && t in s.requests
    requires var p := s.requests[t].phase; p.Waiting? || p.HasHandle? || p == Serving(None)
    ensures Inv(SetPhase(s, t, Leaving(limited)))
  {
    assert RequestInv(s, t, s.requests[t]);
    PlainStep(s, SetPhase(s, t, Leaving(limited)), t);
  }

  lemma LockKeeps(s: State, t: Tid)
    requires Inv(s) && t in s.requests && AdvanceRequest(s, t).Some? && s.requests[t].phase.Waiting?
    ensures Inv(AdvanceRequest(s, t).value)
  {
    var s' := AdvanceRequest(s, t).value;
    assert RequestInv(s, t, s.requests[t]);
    InUseBound(s, t);
    InUseShrinks(s, s', t);
    PlainStep(s, s', t);
  }

  lemma CloneSems(s: State, t: Tid)
    requires Inv(s) && t in s.requests && AdvanceRequest(s, t).Some? && s.requests[t].phase.Inside?
    ensures forall sem: nat :: sem < |AdvanceRequest(s, t).value.sems| ==> SemInv(AdvanceRequest(s, t).value, sem)
  {
    var s' := AdvanceRequest(s, t).value;
    forall sem: nat | sem < |s'.sems| ensures SemInv(s', sem) {
      if sem < |s.sems| {
        assert SemInv(s, sem);
      } else {
        forall x | x in s'.requests ensures s'.requests[x].phase != Serving(Some(sem)) {
          if x != t { assert RequestInv(s, x, s.requests[x]); }
        }
      }
    }
  }

  lemma CloneOneSem(s: State, t: Tid)
    requires Inv(s) && t in s.requests && AdvanceRequest(s, t).Some? && s.requests[t].phase.Inside?
    ensures forall x :: x in s.requests ==>
            OneSem(AdvanceRequest(s, t).value, x, AdvanceRequest(s, t).value.requests[x])
  {
    var s' := AdvanceRequest(s, t).value;
    forall x | x in s'.requests ensures OneSem(s', x, s'.requests[x]) {
      if x != t { assert OneSem(s, x, s.requests[x]); }
    }
  }

  lemma CloneOwn(s: State, t: Tid)
    requires Inv(s) && t in s.requests && AdvanceRequest(s, t).Some? && s.requests[t].phase.Inside?
    ensures RequestInv(AdvanceRequest(s, t).value, t, AdvanceRequest(s, t).value.requests[t])
    ensures OnlyRequest(s, AdvanceRequest(s, t).value, t) && s.mutex == Some(t)
  {
    assert RequestInv(s, t, s.requests[t]);
  }

  lemma CloneMap(s: State, t: Tid)
    requires Inv(s) && t in s.requests && AdvanceRequest(s, t).Some? && s.requests[t].phase.Inside?
    ensures MapInv(AdvanceRequest(s, t).value)
  {
    var s' := AdvanceRequest(s, t).value;
    assert RequestInv(s, t, s.requests[t]);
    assert s'.tracked.Keys == s.tracked.Keys + {s.requests[t].sub.value};
  }

  lemma CloneKeeps(s: State, t: Tid)
    requires Inv(s) && t in s.requests && AdvanceRequest(s, t).Some? && s.requests[t].phase.Inside?
    ensures Inv(AdvanceRequest(s, t).value)
  {
    var s' := AdvanceRequest(s, t).value;
    CloneSems(s, t);
    CloneOneSem(s, t);
    CloneOwn(s, t);
    CloneMap(s, t);
    OthersKept(s, s', t);
    assert s'.requests.Keys == s.requests.Keys;
  }

  /** Moving one permit: the pools are right again, and everything else is as it was. */
  lemma PermitStep(s: State, s': State, t: Tid, sem: SemId)
    requires Inv(s) && OnlyRequest(s, s', t) && t in s.requests && sem < |s.sems|
    requires s' == s.(requests := s'.requests, sems := s.sems[sem := Sem(s.sems[sem].owner, s'.sems[sem].held)])
    requires s'.requests[t].sub == s.requests[t].sub && NoNewHandle(s, s', t)
    requires RequestInv(s', t, s'.requests[t])
    requires forall i: nat :: i < |s'.sems| ==> SemInv(s', i)
    ensures Inv(s')
  {
    OthersKept(s, s', t);
    forall x | x in s'.requests ensures OneSem(s', x, s'.requests[x]) {
      assert OneSem(s, x, s.requests[x]);
    }
  }

  lemma TakeSems(s: State, t: Tid, sem: SemId, i: SemId)
    requires Inv(s) && t in s.requests && s.requests[t].phase == HasHandle(sem) && sem < |s.sems| && Free(s, sem) > 0
    requires i < |s.sems|
    ensures SemInv(AdvanceRequest(s, t).value, i)
  {
    var s' := AdvanceRequest(s, t).value;
    assert SemInv(s, i);
    if i == sem {
      assert |s'.sems[sem].held| <= |s.sems[sem].held| + 1;
    }
  }

  lemma TakeKeeps(s: State, t: Tid)
    requires Inv(s) && t in s.requests && s.requests[t].phase.HasHandle? && AdvanceRequest(s, t).Some?
    requires AdvanceRequest(s, t).value.requests[t].phase.Serving?
    ensures Inv(AdvanceRequest(s, t).value)
  {
    var s' := AdvanceRequest(s, t).value;
    var sem := s.requests[t].phase.sem;
    assert RequestInv(s, t, s.requests[t]);
    forall i: nat | i < |s'.sems| ensures SemInv(s', i) {
      TakeSems(s, t, sem, i);
    }
    PermitStep(s, s', t, sem);
  }

  lemma GiveKeeps(s: State, t: Tid, sem: SemId)
    requires Inv(s) && t in s.requests && s.requests[t].phase == Serving(Some(sem))
    requires FinishServing(s, t, Some(sem)).Some?
    ensures Inv(FinishServing(s, t, Some(sem)).value)
  {
    var s' := FinishServing(s, t, Some(sem)).value;
    assert RequestInv(s, t, s.requests[t]) && SemInv(s, sem);
    assert |s'.sems[sem].held| <= |s.sems[sem].held|;
    forall i: nat | i < |s'.sems| ensures SemInv(s', i) {
      assert SemInv(s, i);
    }
    PermitStep(s, s', t, sem);
  }

  /** The sweep drops a semaphore only at a moment when none of its permits is out. */
  lemma SweepDropsIdleOnly(s: State, t: Tid, k: Sub)
    requires Inv(s) && Apply(s, Inspect(t, k)).Some? && k !in Apply(s, Inspect(t, k)).value.tracked
    ensures k in s.tracked && s.sems[s.tracked[k]].held == {}
    ensures forall x :: x in s.requests ==> s.requests[x].phase != Serving(Some(s.tracked[k]))
  {
    assert SemInv(s, s.tracked[k]);
  }

  lemma InspectRequest(s: State, t: Tid, k: Sub)
    requires Inv(s) && Apply(s, Inspect(t, k)).Some?
    ensures RequestInv(Apply(s, Inspect(t, k)).value, t, Apply(s, Inspect(t, k)).value.requests[t])
  {
    var s' := Apply(s, Inspect(t, k)).value;
    assert RequestInv(s, t, s.requests[t]) && SweepInv(s, t, s.requests[t]);
    InUseShrinks(s, s', t);
    if k in s'.tracked {
      var sem := s.tracked[k];
      assert SemInv(s, sem) && s.sems[sem].held != {};
      var x :| x in s.sems[sem].held;
      assert x in s.requests && s.requests[x].phase.SemOf() == Some(sem);
      assert sem in InUse(s);
    }
    assert SweepInv(s', t, s'.requests[t]);
  }

  lemma InspectOneSem(s: State, t: Tid, k: Sub)
    requires Inv(s) && Apply(s, Inspect(t, k)).Some?
    ensures forall x :: x in s.requests ==>
            OneSem(Apply(s, Inspect(t, k)).value, x, Apply(s, Inspect(t, k)).value.requests[x])
  {
    var s' := Apply(s, Inspect(t, k)).value;
    if k !in s'.tracked { SweepDropsIdleOnly(s, t, k); }
    forall x | x in s'.requests ensures OneSem(s', x, s'.requests[x]) {
      assert OneSem(s, x, s.requests[x]);
      if x != t && s.requests[x].sub == Some(k) && s.requests[x].phase == HasHandle(s.tracked[k]) {
        assert x in Holders(s, s.tracked[k]);
      }
    }
  }

  lemma InspectMap(s: State, t: Tid, k: Sub)
    requires Inv(s) && Apply(s, Inspect(t, k)).Some?
    ensures MapInv(Apply(s, Inspect(t, k)).value)
    ensures forall i: nat :: i < |s.sems| ==> SemInv(Apply(s, Inspect(t, k)).value, i)
  {
    var s' := Apply(s, Inspect(t, k)).value;
    assert s'.tracked == s.tracked || s'.tracked.Keys == s.tracked.Keys - {k};
    forall i: nat | i < |s.sems| ensures SemInv(s', i) {
      assert SemInv(s, i);
    }
  }

  lemma InspectKeeps(s: State, t: Tid, k: Sub)
    requires Inv(s) && Apply(s, Inspect(t, k)).Some?
    ensures Inv(Apply(s, Inspect(t, k)).value)
  {
    var s' := Apply(s, Inspect(t, k)).value;
    assert RequestInv(s, t, s.requests[t]);
    InspectRequest(s, t, k);
    InspectOneSem(s, t, k);
    InspectMap(s, t, k);
    OthersKept(s, s', t);
  }

  lemma StepKeeps(s: State, a: Action)
    requires Inv(s) && Apply(s, a).Some?
    ensures Inv(Apply(s, a).value)
  {
    match a
    case Begin(t, sub) => BeginKeeps(s, t, sub);
    case Inspect(t, k) => InspectKeeps(s, t, k);
    case Disconnect(t) =>
      if s.requests[t].phase.Serving? && s.requests[t].phase.permit.Some? {
        GiveKeeps(s, t, s.requests[t].phase.permit.value);
      } else {
        GiveUpKeeps(s, t, false);
      }
    case Advance(t) => AdvanceKeeps(s, t);
  }

  lemma AdvanceKeeps(s: State, t: Tid)
    requires Inv(s) && t in s.requests && AdvanceRequest(s, t).Some?
    ensures Inv(AdvanceRequest(s, t).value)
  {
    match s.requests[t].phase
    case Arrived => if |s.global| < s.limits.global { AdmitKeeps(s, t); } else { ShedKeeps(s, t); }
    case Waiting => LockKeeps(s, t);
    case Sweeping(_, _) => SweptKeeps(s, t);
    case Inside(_) => CloneKeeps(s, t);
    case HasHandle(_) =>
      if AdvanceRequest(s, t).value.requests[t].phase.Serving? { TakeKeeps(s, t); } else { GiveUpKeeps(s, t, true); }
    case Serving(Some(sem)) => GiveKeeps(s, t, sem);
    case Serving(None) => GiveUpKeeps(s, t, false);
    case Leaving(_) => LeaveKeeps(s, t);
    case _ =>
  }

  lemma {:induction false} RunKeeps(s: State, schedule: seq<Action>)
    requires Inv(s) && Run(s, schedule).Some?
    ensures Inv(Run(s, schedule).value)
  {
    if schedule == [] {
    } else {
      RunKeeps(s, schedule[..|schedule| - 1]);
      StepKeeps(Run(s, schedule[..|schedule| - 1]).value, schedule[|schedule| - 1]);
    }
  }

  lemma ReachableInv(s: State)
    requires Reachable(s)
    ensures Inv(s)
  {
    var schedule :| Run(Start(s.limits), schedule) == Some(s);
    RunKeeps(Start(s.limits), schedule);
  }

  // ---------------------------------------------------------------- what every interleaving keeps

  /** Outstanding global permits never exceed the global cap, and the map never exceeds
      its soft ceiling or the global cap, whichever is larger. */
  lemma GlobalAndMapCaps(s: State)
    requires Reachable(s)
    ensures |s.global| <= s.limits.global
    ensures |s.tracked| <= Max(s.limits.maxTracked, s.limits.global)
  {
    ReachableInv(s);
  }

  /** No pool hands out more than its limit, every permit is held by a request of the
      pool's own identity, and that request holds a global permit too. */
  lemma PoolCap(s: State, sem: SemId)
    requires Reachable(s) && sem < |s.sems|
    ensures |s.sems[sem].held| <= s.limits.perIdentity
    ensures forall t :: t in s.sems[sem].held ==>
              t in s.global && t in s.requests && s.requests[t] == Request(Some(s.sems[sem].owner), Serving(Some(sem)))
  {
    ReachableInv(s);
    assert SemInv(s, sem);
    forall t | t in s.sems[sem].held
      ensures t in s.global && t in s.requests && s.requests[t] == Request(Some(s.sems[sem].owner), Serving(Some(sem)))
    {
      assert RequestInv(s, t, s.requests[t]);
    }
  }

  /** The requests of one identity whose handler runs. */
  ghost function InFlight(s: State, k: Sub): set<Tid> {
    set t | t in s.requests && s.requests[t].sub == Some(k) && s.requests[t].phase.Serving?
  }

  lemma RegularCap(s: State, k: Sub)
    requires Inv(s)
    ensures |InFlight(s, k) - s.stranded| <= s.limits.perIdentity
  {
    var regular := InFlight(s, k) - s.stranded;
    if regular != {} {
      var t0 :| t0 in regular;
      assert RequestInv(s, t0, s.requests[t0]) && OneSem(s, t0, s.requests[t0]);
      var sem := s.tracked[k];
      assert SemInv(s, sem);
      forall t | t in regular ensures t in s.sems[sem].held {
        assert RequestInv(s, t, s.requests[t]) && OneSem(s, t, s.requests[t]);
      }
      Injection(regular, s.sems[sem].held, (x: Tid) => x);
    }
  }

  lemma SplitSize(xs: set<Tid>, ys: set<Tid>)
    ensures |xs| == |xs - ys| + |xs * ys|
  {
    assert xs == (xs - ys) + xs * ys;
  }

  /** One identity exceeds its cap at most by the requests a sweep stranded between their
      clone and their acquire; without such a request in flight it stays within it. */
  lemma IdentityCapPlusStranded(s: State, k: Sub)
    requires Reachable(s)
    ensures |InFlight(s, k)| <= s.limits.perIdentity + |InFlight(s, k) * s.stranded|
    ensures InFlight(s, k) * s.stranded == {} ==> |InFlight(s, k)| <= s.limits.perIdentity
  {
    ReachableInv(s);
    RegularCap(s, k);
    SplitSize(InFlight(s, k), s.stranded);
  }

  /** And in any run at all when the global cap is no larger. */
  lemma IdentityCapByGlobal(s: State, k: Sub)
    requires Reachable(s)
    ensures |InFlight(s, k)| <= s.limits.global
    ensures s.limits.perIdentity == 0 ==> InFlight(s, k) == {}
  {
    ReachableInv(s);
    forall t | t in InFlight(s, k) ensures t in s.global && s.limits.perIdentity != 0 {
      assert RequestInv(s, t, s.requests[t]);
      var sem := s.requests[t].phase.permit.value;
      assert SemInv(s, sem) && t in s.sems[sem].held;
    }
    Injection(InFlight(s, k), s.global, (x: Tid) => x);
  }

  // ---------------------------------------------------------------- who gets in

  /** A request is turned away as overload exactly when every global permit is out, and at its
      identity's cap exactly when every permit of its semaphore is out; otherwise it gets the
      permit. */
  lemma TurnedAwayIff(s: State, t: Tid)
    requires Reachable(s) && t in s.requests && Apply(s, Advance(t)).Some?
    ensures var before, s' := s.requests[t].phase, Apply(s, Advance(t)).value;
            var after := s'.requests[t].phase;
            && (before.Arrived? ==> (after.Overloaded? <==> |s.global| == s.limits.global)
                                    && (!after.Overloaded? ==> t in s'.global))
            && (before.HasHandle? ==> before.sem < |s.sems|
                                      && (after == Leaving(true) <==> |s.sems[before.sem].held| == s.limits.perIdentity)
                                      && (after != Leaving(true) ==> after == Serving(Some(before.sem))
                                                                     && t in s'.sems[before.sem].held))
            && (after.Overloaded? ==> before.Arrived?)
            && (after == Leaving(true) ==> before.HasHandle?)
            && (before.Leaving? ==> after == Done(before.limited))
  {
    ReachableInv(s);
    assert RequestInv(s, t, s.requests[t]);
    if s.requests[t].phase.HasHandle? {
      assert SemInv(s, s.requests[t].phase.sem);
    }
  }

  /** A request sweeps exactly when its identity is unknown to a full map. */
  lemma SweepsIff(s: State, t: Tid)
    requires Reachable(s) && t in s.requests && s.requests[t].phase.Waiting? && Apply(s, Advance(t)).Some?
    ensures Apply(s, Advance(t)).value.requests[t].phase.Sweeping? <==>
              s.requests[t].sub.Some? && s.requests[t].sub.value !in s.tracked && s.limits.maxTracked <= |s.tracked|
  {
  }

  /** A finished request holds nothing. */
  lemma FinishedHoldsNothing(s: State, t: Tid, sem: SemId)
    requires Reachable(s) && t in s.requests && (s.requests[t].phase.Done? || s.requests[t].phase.Overloaded?)
    ensures t !in s.global && s.mutex != Some(t) && (sem < |s.sems| ==> t !in s.sems[sem].held)
  {
    ReachableInv(s);
    assert RequestInv(s, t, s.requests[t]);
    if sem < |s.sems| {
      assert SemInv(s, sem);
    }
  }

  /** No deadlock: an unfinished request can step, or whoever holds the map's mutex can. */
  lemma SomeoneCanStep(s: State, t: Tid)
    requires Reachable(s) && t in s.requests && !s.requests[t].phase.Done? && !s.requests[t].phase.Overloaded?
    ensures || Apply(s, Advance(t)).Some?
            || (exists x :: s.mutex == Some(x) && Apply(s, Advance(x)).Some?)
            || (exists x, k :: s.mutex == Some(x) && Apply(s, Inspect(x, k)).Some?)
  {
    ReachableInv(s);
    assert RequestInv(s, t, s.requests[t]);
    if s.requests[t].phase.Waiting? && s.mutex.Some? {
      HolderSteps(s, s.mutex.value);
    } else if s.requests[t].phase.Sweeping? {
      HolderSteps(s, t);
    }
  }

  lemma HolderSteps(s: State, x: Tid)
    requires Inv(s) && s.mutex == Some(x)
    ensures Apply(s, Advance(x)).Some? || exists k :: Apply(s, Inspect(x, k)).Some?
  {
    var r := s.requests[x];
    assert RequestInv(s, x, r);
    if r.phase.Sweeping? && r.phase.todo != {} {
      var k :| k in r.phase.todo;
      assert Apply(s, Inspect(x, k)).Some?;
    }
  }

  // ---------------------------------------------------------------- exceeding the cap

  lemma Go(s: State, a: Action) returns (s': State)
    requires Reachable(s) && Apply(s, a).Some?
    ensures s' == Apply(s, a).value && Reachable(s')
  {
    s' := Apply(s, a).value;
    var schedule :| Run(Start(s.limits), schedule) == Some(s);
    var longer := schedule + [a];
    assert longer[..|longer| - 1] == schedule;
    StepLimits(s, a);
    assert Run(Start(s'.limits), longer) == Some(s');
  }

  lemma StepLimits(s: State, a: Action)
    requires Apply(s, a).Some?
    ensures Apply(s, a).value.limits == s.limits
  {
  }

  /** No request has a number of `n` or more, and nobody is inside the map. */
  ghost predicate Calm(s: State, n: nat) {
    Reachable(s) && s.mutex == None && forall t :: t in s.requests ==> t < n
  }

  ghost predicate AllIdle(s: State) {
    forall k :: k in s.tracked ==> s.tracked[k] < |s.sems| && s.sems[s.tracked[k]].held == {}
  }

  /** The next request, for identity `k`, has taken its handle. */
  ghost predicate Entered(s: State, s': State, n: nat, k: Sub) {
    && k in s'.tracked && s'.limits == s.limits && s'.global == s.global + {n}
    && s'.requests == s.requests[n := Request(Some(k), HasHandle(s'.tracked[k]))]
    && (if k in s.tracked then s'.tracked[k] == s.tracked[k] && s'.sems == s.sems
        else s'.tracked[k] == |s.sems| && s'.sems == s.sems + [Sem(k, {})])
  }

  lemma Queue(s: State, n: nat, k: Sub) returns (s': State)
    requires Calm(s, n) && |s.global| < s.limits.global
    ensures Reachable(s') && s' == s.(requests := s.requests[n := Request(Some(k), Waiting)], global := s.global + {n})
  {
    var s1 := Go(s, Begin(n, Some(k)));
    s' := Go(s1, Advance(n));
    assert s'.requests == s.requests[n := Request(Some(k), Waiting)];
  }

  /** Arriving when there is room, or when already tracked. */
  lemma Enter(s: State, n: nat, k: Sub) returns (s': State)
    requires Calm(s, n) && |s.global| < s.limits.global && (k in s.tracked || |s.tracked| < s.limits.maxTracked)
    ensures Calm(s', n + 1) && Entered(s, s', n, k)
    ensures s'.tracked == s.tracked[k := s'.tracked[k]]
  {
    var s1 := Queue(s, n, k);
    var s2 := Go(s1, Advance(n));
    assert s2 == s1.(mutex := Some(n), requests := s2.requests)
           && s2.requests == s.requests[n := Request(Some(k), Inside(false))];
    s' := Go(s2, Advance(n));
    assert s'.requests == s.requests[n := Request(Some(k), HasHandle(s'.tracked[k]))];
  }

  /** A sweep over idle entries drops them all, handles out or not. */
  lemma {:induction false} SweepAll(s: State, t: Tid) returns (s': State)
    requires Reachable(s) && AllIdle(s) && t in s.requests && s.requests[t].phase.Sweeping?
    requires s.requests[t].phase.todo <= s.tracked.Keys
    ensures Reachable(s')
    ensures s'.requests == s.requests[t := s.requests[t].(phase := s.requests[t].phase.(todo := {}))]
    ensures s' == s.(requests := s'.requests, tracked := s.tracked - s.requests[t].phase.todo, stranded := s'.stranded)
    decreases |s.requests[t].phase.todo|
  {
    var p := s.requests[t].phase;
    if p.todo == {} {
      s' := s;
      assert s.requests == s.requests[t := s.requests[t].(phase := p.(todo := {}))];
      assert s.tracked == s.tracked - {};
    } else {
      var k :| k in p.todo;
      var s1 := Go(s, Inspect(t, k));
      assert s1.requests[t].phase == p.(todo := p.todo - {k}) && s1.tracked == s.tracked - {k};
      s' := SweepAll(s1, t);
      assert s.tracked - p.todo == s1.tracked - (p.todo - {k});
    }
  }

  /** A queued request whose identity is new starts to sweep a full map. */
  lemma StartSweep(s: State, n: nat, k: Sub) returns (s': State)
    requires Calm(s, n) && |s.global| < s.limits.global && k !in s.tracked && s.limits.maxTracked <= |s.tracked|
    ensures Reachable(s') && n in s'.requests && s'.requests[n].phase.Sweeping?
            && s'.requests[n].phase.todo == s.tracked.Keys
    ensures s' == s.(mutex := Some(n), requests := s.requests[n := Request(Some(k), s'.requests[n].phase)],
            global := s.global + {n})
  {
    var s1 := Queue(s, n, k);
    s' := Go(s1, Advance(n));
    assert s'.requests == s.requests[n := Request(Some(k), s'.requests[n].phase)];
  }

  /** After the sweep the request inserts its own entry. */
  lemma EndSweep(s: State, n: nat, k: Sub) returns (s': State)
    requires Reachable(s) && s.tracked == map[] && n in s.requests && s.requests[n].sub == Some(k)
    requires s.requests[n].phase.Sweeping? && s.requests[n].phase.todo == {}
    ensures Reachable(s') && s'.requests == s.requests[n := Request(Some(k), HasHandle(|s.sems|))]
    ensures s' == s.(mutex := None, requests := s'.requests, tracked := map[k := |s.sems|],
                     sems := s.sems + [Sem(k, {})])
  {
    var s1 := Go(s, Advance(n));
    s' := Go(s1, Advance(n));
    assert s'.requests == s.requests[n := Request(Some(k), HasHandle(|s.sems|))];
  }

  lemma UpdateTwice<K, V>(m: map<K, V>, k: K, a: V, b: V)
    ensures m[k := a][k := b] == m[k := b]
  {
  }

  /** Arriving at a full map of idle entries: everything else is gone afterwards. */
  lemma EnterSweeping(s: State, n: nat, k: Sub) returns (s': State)
    requires Calm(s, n) && AllIdle(s) && |s.global| < s.limits.global && k !in s.tracked
    requires s.limits.maxTracked <= |s.tracked|
    ensures Calm(s', n + 1) && Entered(s, s', n, k)
    ensures s'.tracked == map[k := |s.sems|]
  {
    var s1 := StartSweep(s, n, k);
    assert s1.tracked == s.tracked && AllIdle(s1);
    var s2 := SweepAll(s1, n);
    UpdateTwice(s.requests, n, s1.requests[n], s2.requests[n]);
    assert s2.tracked == map[];
    s' := EndSweep(s2, n, k);
    UpdateTwice(s.requests, n, s2.requests[n], s'.requests[n]);
  }

  /** A request with a handle and room takes its permit. */
  lemma Serve(s: State, t: Tid, sem: SemId) returns (s': State)
    requires Reachable(s) && t in s.requests && s.requests[t].phase == HasHandle(sem) && sem < |s.sems|
    requires Free(s, sem) > 0
    ensures Reachable(s')
    ensures s' == SetHeld(SetPhase(s, t, Serving(Some(sem))), sem, s.sems[sem].held + {t})
  {
    s' := Go(s, Advance(t));
  }

  /** A request with a handle to an idle semaphore is served and leaves. */
  lemma ComeAndGo(s: State, n: nat, t: Tid, sem: SemId) returns (s': State)
    requires Calm(s, n) && t in s.requests && s.requests[t].phase == HasHandle(sem) && sem < |s.sems|
    requires s.sems[sem].held == {} && 0 < s.limits.perIdentity
    ensures Calm(s', n)
            && s' == s.(requests := s.requests[t := s.requests[t].(phase := Done(false))], global := s.global - {t})
  {
    var s1 := Serve(s, t, sem);
    var s2 := Go(s1, Advance(t));
    assert s2.sems == s.sems;
    s' := Go(s2, Advance(t));
    assert s'.requests == s.requests[t := s.requests[t].(phase := Done(false))];
  }

  /** `m` identities have come and gone; the map remembers them all. */
  lemma {:induction false} Fill(limits: Limits, m: nat) returns (s: State)
    requires 0 < limits.perIdentity && 0 < limits.global && m <= limits.maxTracked
    ensures Calm(s, m) && AllIdle(s) && s.limits == limits && s.global == {} && |s.tracked| == m
    ensures forall k :: k in s.tracked ==> k < m
  {
    if m == 0 {
      s := Start(limits);
      assert Run(Start(limits), []) == Some(s);
    } else {
      var s1 := Fill(limits, m - 1);
      var s2 := Enter(s1, m - 1, m - 1);
      assert s2.tracked.Keys == s1.tracked.Keys + {m - 1};
      s := ComeAndGo(s2, m, m - 1, s2.tracked[m - 1]);
    }
  }

  /** Request `n` arrives for a new identity, sweeping if the map is full. */
  lemma EnterNew(s: State, n: nat, k: Sub) returns (s': State)
    requires Calm(s, n) && AllIdle(s) && |s.global| < s.limits.global && k !in s.tracked
    ensures Calm(s', n + 1) && Entered(s, s', n, k) && AllIdle(s')
    ensures s'.tracked.Keys <= s.tracked.Keys + {k}
    ensures |s'.tracked| == if s.limits.maxTracked <= |s.tracked| then 1 else |s.tracked| + 1
  {
    if s.limits.maxTracked <= |s.tracked| {
      s' := EnterSweeping(s, n, k);
    } else {
      s' := Enter(s, n, k);
      assert s'.tracked.Keys == s.tracked.Keys + {k};
    }
  }

  /** Request `t1` still has its handle to the dropped `lost`, while the identity's new
      semaphore already serves `j` requests. */
  ghost predicate Split(s: State, n: nat, k: Sub, t1: Tid, lost: SemId, j: nat) {
    && Calm(s, n) && k in s.tracked && s.tracked[k] < |s.sems| && lost < |s.sems| && lost != s.tracked[k]
    && t1 in s.requests && s.requests[t1] == Request(Some(k), HasHandle(lost)) && s.sems[lost].held == {}
    && |s.sems[s.tracked[k]].held| == j && t1 !in s.sems[s.tracked[k]].held
       && s.global == {t1} + s.sems[s.tracked[k]].held
  }

  /** Request `t1` is alone, with a handle to a semaphore the map no longer knows. */
  ghost predicate Lost(s: State, n: nat, k: Sub, t1: Tid, lost: SemId) {
    && Calm(s, n) && AllIdle(s) && k !in s.tracked && lost < |s.sems| && s.sems[lost].held == {} && s.global == {t1}
    && t1 in s.requests && s.requests[t1] == Request(Some(k), HasHandle(lost))
  }

  /** Another identity arrives at a full map right after a clone. */
  lemma SweepHandle(s: State, n: nat, k: Sub, t1: Tid, other: Sub) returns (s': State)
    requires Calm(s, n) && AllIdle(s) && k in s.tracked && other !in s.tracked && s.global == {t1} && t1 in s.requests
    requires s.requests[t1] == Request(Some(k), HasHandle(s.tracked[k]))
    requires s.limits.maxTracked <= |s.tracked| && 1 <= s.limits.perIdentity < s.limits.global
    ensures s'.limits == s.limits && Lost(s', n + 1, k, t1, s.tracked[k])
  {
    var s2 := EnterSweeping(s, n, other);
    assert s2.requests[t1] == s.requests[t1];
    s' := ComeAndGo(s2, n + 1, n, s2.tracked[other]);
    assert s'.requests[t1] == s.requests[t1];
    assert s'.global == {t1};
  }

  /** A handle is cloned and a sweep by another identity drops its semaphore. */
  lemma ReachLost(limits: Limits) returns (s: State, n: nat, k: Sub, t1: Tid, lost: SemId)
    requires 1 <= limits.perIdentity < limits.global
    ensures s.limits == limits && Lost(s, n, k, t1, lost)
  {
    var m := if limits.maxTracked == 0 then 0 else limits.maxTracked - 1;
    var s0 := Fill(limits, m);
    k, t1 := m, m;
    var s1 := EnterNew(s0, m, k);
    lost := s1.tracked[k];
    n := m + 2;
    assert s1.global == {t1};
    s := SweepHandle(s1, m + 1, k, t1, m + 1);
  }

  /** The same identity comes back to a new semaphore. */
  lemma ReachSplit(limits: Limits) returns (s: State, n: nat, k: Sub, t1: Tid, lost: SemId)
    requires 1 <= limits.perIdentity < limits.global
    ensures s.limits == limits && Split(s, n, k, t1, lost, 1)
  {
    var s3, n3, k3, t3, lost3 := ReachLost(limits);
    var s4 := EnterNew(s3, n3, k3);
    n, k, t1, lost := n3 + 1, k3, t3, lost3;
    s := Serve(s4, n3, s4.tracked[k]);
    assert s.sems[s.tracked[k]].held == {n3};
    assert s.global == {t1} + s.sems[s.tracked[k]].held;
  }

  lemma {:induction false} FillSplit(s: State, n: nat, k: Sub, t1: Tid, lost: SemId, j: nat)
    returns (s': State, n': nat)
    requires 1 <= j <= s.limits.perIdentity < s.limits.global && Split(s, n, k, t1, lost, j)
    ensures s'.limits == s.limits && Split(s', n', k, t1, lost, s.limits.perIdentity)
    decreases s.limits.perIdentity - j
  {
    if j == s.limits.perIdentity {
      s', n' := s, n;
    } else {
      assert |s.global| == 1 + j;
      var s1 := Enter(s, n, k);
      assert n !in s.sems[s.tracked[k]].held by { Bounded(s, n, s.tracked[k]); }
      var s2 := Serve(s1, n, s1.tracked[k]);
      assert s2.global == {t1} + s2.sems[s2.tracked[k]].held;
      s', n' := FillSplit(s2, n + 1, k, t1, lost, j + 1);
    }
  }

  lemma Bounded(s: State, n: nat, sem: SemId)
    requires Calm(s, n) && sem < |s.sems|
    ensures n !in s.sems[sem].held
  {
    ReachableInv(s);
    assert SemInv(s, sem);
  }

  /** The identity cap is guaranteed exactly when it is zero or no smaller than the
      global cap; otherwise some run serves one request too many. */
  lemma IdentityCapGuaranteedIff(limits: Limits)
    ensures (limits.perIdentity == 0 || limits.global <= limits.perIdentity) <==>
              forall s, k :: Reachable(s) && s.limits == limits ==> |InFlight(s, k)| <= limits.perIdentity
  {
    if limits.perIdentity == 0 || limits.global <= limits.perIdentity {
      forall s, k | Reachable(s) && s.limits == limits ensures |InFlight(s, k)| <= limits.perIdentity {
        IdentityCapByGlobal(s, k);
      }
    } else {
      var s, k := ExceedCap(limits);
    }
  }

  lemma ExceedCap(limits: Limits) returns (s: State, k: Sub)
    requires 1 <= limits.perIdentity < limits.global
    ensures Reachable(s) && s.limits == limits && |InFlight(s, k)| > limits.perIdentity
  {
    var s1, n, k1, t1, lost := ReachSplit(limits);
    k := k1;
    var s2, n' := FillSplit(s1, n, k, t1, lost, 1);
    s := Serve(s2, t1, lost);
    var sem := s2.tracked[k];
    ReachableInv(s2);
    assert s2.sems[sem].owner == k;
    forall t | t in {t1} + s2.sems[sem].held ensures t in InFlight(s, k) {
      if t != t1 {
        HeldInFlight(s2, sem, t);
        assert s.requests[t] == s2.requests[t];
      }
    }
    Injection({t1} + s2.sems[sem].held, InFlight(s, k), (x: Tid) => x);
  }

  lemma HeldInFlight(s: State, sem: SemId, t: Tid)
    requires Reachable(s) && sem < |s.sems| && t in s.sems[sem].held
    ensures t in InFlight(s, s.sems[sem].owner)
  {
    PoolCap(s, sem);
  }
}
