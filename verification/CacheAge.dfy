/** How old the grants of the per-user cache (src/authz/cache.rs) can get when writes reach
    the store without being announced: a process that dies between its commit and its
    invalidation, or a batch tool that changes the tables directly. The TTL is all that is
    left then. */
module CacheAge {
  import opened Common
  import opened Loader
  import opened PermissionsCache

  /** `Bypass` replaces the whole store and tells nobody. */
  datatype Event = Ordinary(action: Action) | Bypass(db: Db)

  function WildStep(s: State, e: Event, dt: nat): Option<State> {
    match e
    case Ordinary(a) => Step(s, a, dt)
    case Bypass(db) => Some(s.(db := db, now := s.now + 1 + dt))
  }

  function WildRun(s: State, schedule: seq<(Event, nat)>): Option<State> {
    if schedule == [] then Some(s)
    else
      var n := |schedule| - 1;
      match WildRun(s, schedule[..n])
      case None => None
      case Some(m) => WildStep(m, schedule[n].0, schedule[n].1)
  }

  ghost predicate WildReachable(s: State) {
    exists s0, schedule :: Initial(s0) && WildRun(s0, schedule) == Some(s)
  }

  // ---------------------------------------------------------------- invariant

  /** Each read behind an entry is at most `span` older than the entry. */
  ghost predicate EntryAge(span: nat, e: Entry) {
    e.readAt != [] && forall r :: r in e.readAt ==> e.loadedAt <= r + span
  }

  ghost predicate AgeInv(s: State) {
    && (forall t :: t in s.calls ==> CallOrder(s.now, s.calls[t]))
    && (forall u :: u in s.inner ==> EntryAge(s.span, s.inner[u]))
  }

  lemma AdvanceEntryAge(s: State, t: Tid, u: Sub)
    requires t in s.calls && AdvanceCall(s, t).Some? && CallOrder(s.now, s.calls[t])
    requires u in s.inner ==> EntryAge(s.span, s.inner[u])
    ensures var s' := AdvanceCall(s, t).value; s.span <= s'.span && (u in s'.inner ==> EntryAge(s'.span, s'.inner[u]))
  {
    match s.calls[t].phase
    case Current(_, _) =>
    case _ => assert AdvanceCall(s, t).value.inner == s.inner && AdvanceCall(s, t).value.span == s.span;
  }

  lemma AdvanceAge(s: State, t: Tid, dt: nat)
    requires AgeInv(s) && Step(s, Advance(t), dt).Some?
    ensures AgeInv(Step(s, Advance(t), dt).value)
  {
    var s' := Step(s, Advance(t), dt).value;
    AdvanceFrame(s, t);
    AdvanceOrder(s, t, s'.now);
    forall x | x in s'.calls ensures CallOrder(s'.now, s'.calls[x]) {
      assert CallOrder(s.now, s.calls[x]);
    }
    forall u | u in s'.inner ensures EntryAge(s'.span, s'.inner[u]) {
      AdvanceEntryAge(s, t, u);
    }
  }

  /** A call that begins, fails or is dropped has no reads to account for. */
  lemma CallAge(s: State, a: Action, dt: nat)
    requires AgeInv(s) && Step(s, a, dt).Some? && (a.Begin? || a.ReadFails? || a.Drop?)
    ensures AgeInv(Step(s, a, dt).value)
  {
    var s' := Step(s, a, dt).value;
    assert s' == s.(now := s'.now, calls := s'.calls) && s'.calls == s.calls[a.t := s'.calls[a.t]];
    forall x | x in s'.calls ensures CallOrder(s'.now, s'.calls[x]) {
      if x in s.calls {
        assert CallOrder(s.now, s.calls[x]);
      }
    }
  }

  /** Commits, invalidations and bypassing writes leave the calls alone and at most drop entries. */
  lemma StoreFrame(s: State, e: Event, dt: nat)
    requires WildStep(s, e, dt).Some? && (e.Bypass? || e.action.Admin? || e.action.Invalidate?)
    ensures var s' := WildStep(s, e, dt).value;
            && s'.calls == s.calls && s'.span == s.span && s.now < s'.now
            && s'.inner.Keys <= s.inner.Keys && forall u :: u in s'.inner ==> s'.inner[u] == s.inner[u]
  {
  }

  lemma StoreAge(s: State, e: Event, dt: nat)
    requires AgeInv(s) && WildStep(s, e, dt).Some? && (e.Bypass? || e.action.Admin? || e.action.Invalidate?)
    ensures AgeInv(WildStep(s, e, dt).value)
  {
    var s' := WildStep(s, e, dt).value;
    StoreFrame(s, e, dt);
    forall x | x in s'.calls ensures CallOrder(s'.now, s'.calls[x]) {
      assert CallOrder(s.now, s.calls[x]);
    }
    forall u | u in s'.inner ensures EntryAge(s'.span, s'.inner[u]) {
      assert EntryAge(s.span, s.inner[u]);
    }
  }

  lemma StepAge(s: State, e: Event, dt: nat)
    requires AgeInv(s) && WildStep(s, e, dt).Some?
    ensures AgeInv(WildStep(s, e, dt).value)
  {
    match e
    case Bypass(_) => StoreAge(s, e, dt);
    case Ordinary(Admin(_, _)) => StoreAge(s, e, dt);
    case Ordinary(Invalidate(_)) => StoreAge(s, e, dt);
    case Ordinary(Advance(t)) => AdvanceAge(s, t, dt);
    case Ordinary(a) => CallAge(s, a, dt);
  }

  lemma {:induction false} RunAge(s: State, schedule: seq<(Event, nat)>)
    requires AgeInv(s) && WildRun(s, schedule).Some?
    ensures AgeInv(WildRun(s, schedule).value)
  {
    if schedule == [] {
    } else {
      var n := |schedule| - 1;
      RunAge(s, schedule[..n]);
      StepAge(WildRun(s, schedule[..n]).value, schedule[n].0, schedule[n].1);
    }
  }

  // ---------------------------------------------------------------- the bound

  /** Whatever changes the store and whoever is told, the grants a call returns rest on reads
      younger than the TTL plus the longest load: once that much time has passed since any
      instant, a call that returns has read everything after it. */
  lemma ReturnsAreYoung(s: State, t: Tid, dt: nat, instant: nat)
    requires WildReachable(s) && Step(s, Advance(t), dt).Some?
    requires Step(s, Advance(t), dt).value.calls[t].phase.Returned?
    ensures var s' := Step(s, Advance(t), dt).value;
            && s'.calls[t].readAt != []
            && (forall r :: r in s'.calls[t].readAt ==> s.now < r + s.ttl + s'.span)
            && (instant + s.ttl + s'.span <= s.now ==> After(s'.calls[t].readAt, instant))
  {
    var s0, schedule :| Initial(s0) && WildRun(s0, schedule) == Some(s);
    RunAge(s0, schedule);
    ReturnsFrom(s, t);
    var c := s.calls[t];
    assert CallOrder(s.now, c);
    if c.phase.Reading? {
      assert EntryAge(s.span, s.inner[c.sub]);
    }
  }
}
