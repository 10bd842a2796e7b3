/** The lazy adapter registry as an interleaving of `get_or_open` calls
    (src/exec/mod.rs).

    A step is one acquisition of the map lock, one map access under it, or one access to a
    slot's once-cell. Opening a database takes arbitrarily long. A call can be dropped at
    any of its `.await` points; dropping the opener empties the cell again. */
module AdapterRegistry {
  import opened Common
  import opened Grants

  type Key = (string, string)
  type Tid = nat
  type SlotId = nat
  type AdapterId = nat

  datatype Content = Empty | Opening(opener: Tid) | Full(adapter: AdapterId)

  /** One lazily opened slot; `installs` counts the adapters ever put into it. */
  datatype Cell = Cell(key: Key, content: Content, installs: nat)

  datatype Phase =
    | AskRead
    | Reading
    | AskWrite
    | Writing
    | HasSlot(slot: SlotId)
    | Connecting(slot: SlotId)
    | Returned(adapter: AdapterId)
    | Failed
    | Dropped
  {
    predicate Finished() { Returned? || Failed? || Dropped? }
    function SlotOf(): Option<SlotId> { if HasSlot? || Connecting? then Some(slot) else None }
  }

  datatype Task = Task(key: Key, kind: ServerKind, phase: Phase)

  datatype State = State(slots: map<Key, SlotId>, cells: seq<Cell>, made: nat,
                         readers: set<Tid>, writer: Option<Tid>, tasks: map<Tid, Task>)

  datatype Action =
    | Begin(t: Tid, key: Key, kind: ServerKind)
    | Advance(t: Tid)
    | OpenSucceeds(t: Tid)
    | OpenFails(t: Tid)
    | Drop(t: Tid)

  function SetPhase(s: State, t: Tid, p: Phase): State
    requires t in s.tasks
  {
    s.(tasks := s.tasks[t := s.tasks[t].(phase := p)])
  }

  function SetContent(s: State, slot: SlotId, c: Content): State
    requires slot < |s.cells|
  {
    s.(cells := s.cells[slot := s.cells[slot].(content := c)])
  }

  function AdvanceTask(s: State, t: Tid): Option<State>
    requires t in s.tasks
  {
    var task := s.tasks[t];
    match task.phase
    case AskRead => if s.writer.Some? then None else Some(SetPhase(s, t, Reading).(readers := s.readers + {t}))
    case Reading =>
      var next := if task.key in s.slots then HasSlot(s.slots[task.key]) else AskWrite;
      Some(SetPhase(s, t, next).(readers := s.readers - {t}))
    case AskWrite =>
      if s.writer.Some? || s.readers != {} then None else Some(SetPhase(s, t, Writing).(writer := Some(t)))
    case Writing =>
      if task.key in s.slots then Some(SetPhase(s, t, HasSlot(s.slots[task.key])).(writer := None))
      else Some(SetPhase(s, t, HasSlot(|s.cells|)).(writer := None, slots := s.slots[task.key := |s.cells|],
                                                     cells := s.cells + [Cell(task.key, Empty, 0)]))
    case HasSlot(slot) =>
      if |s.cells| <= slot then None
      else
        (match s.cells[slot].content
         case Full(adapter) => Some(SetPhase(s, t, Returned(adapter)))
         case Empty => Some(SetContent(SetPhase(s, t, Connecting(slot)), slot, Opening(t)))
         case Opening(_) => None)
    case _ => None
  }

  function Apply(s: State, a: Action): Option<State> {
    match a
    case Begin(t, key, kind) => if t in s.tasks then None else Some(s.(tasks := s.tasks[t := Task(key, kind, AskRead)]))
    case Advance(t) => if t in s.tasks then AdvanceTask(s, t) else None
    case OpenSucceeds(t) =>
      if t in s.tasks && s.tasks[t].phase.Connecting? && s.tasks[t].phase.slot < |s.cells|
          && HasAdapter(s.tasks[t].kind) then
        var slot := s.tasks[t].phase.slot;
        var cell := s.cells[slot];
        Some(SetPhase(s, t, Returned(s.made)).(
               made := s.made + 1, cells := s.cells[slot := Cell(cell.key, Full(s.made), cell.installs + 1)]))
      else None
    case OpenFails(t) =>
      if t in s.tasks && s.tasks[t].phase.Connecting? && s.tasks[t].phase.slot < |s.cells|
      then Some(SetContent(SetPhase(s, t, Failed), s.tasks[t].phase.slot, Empty)) else None
    case Drop(t) =>
      if t in s.tasks && s.tasks[t].phase.Connecting? && s.tasks[t].phase.slot < |s.cells|
      then Some(SetContent(SetPhase(s, t, Dropped), s.tasks[t].phase.slot, Empty))
      else if t in s.tasks && (s.tasks[t].phase.AskRead? || s.tasks[t].phase.AskWrite? || s.tasks[t].phase.HasSlot?)
      then Some(SetPhase(s, t, Dropped)) else None
  }

  function Run(s: State, schedule: seq<Action>): Option<State> {
    if schedule == [] then Some(s)
    else
      match Run(s, schedule[..|schedule| - 1])
      case None => None
      case Some(m) => Apply(m, schedule[|schedule| - 1])
  }

  const START := State(map[], [], 0, {}, None, map[])

  ghost predicate Reachable(s: State) {
    exists schedule :: Run(START, schedule) == Some(s)
  }

  // ---------------------------------------------------------------- invariant

  ghost predicate TaskInv(s: State, t: Tid, task: Task) {
    && (task.phase.Reading? <==> t in s.readers)
    && (task.phase.Writing? <==> s.writer == Some(t))
    && (task.phase.SlotOf().Some? ==> task.key in s.slots && s.slots[task.key] == task.phase.SlotOf().value)
    && (task.phase.Connecting? ==> task.phase.slot < |s.cells| && s.cells[task.phase.slot].content == Opening(t))
    && (task.phase.Returned? ==> task.key in s.slots && s.slots[task.key] < |s.cells|
                                 && s.cells[s.slots[task.key]].content == Full(task.phase.adapter))
  }

  ghost predicate CellInv(s: State, i: SlotId)
    requires i < |s.cells|
  {
    var c := s.cells[i];
    && c.key in s.slots && s.slots[c.key] == i
    && c.installs == (if c.content.Full? then 1 else 0)
    && (c.content.Opening? ==> c.content.opener in s.tasks && s.tasks[c.content.opener].phase == Connecting(i))
  }

  ghost predicate MapInv(s: State) {
    && (s.writer.Some? ==> s.readers == {} && s.writer.value in s.tasks) && s.readers <= s.tasks.Keys
    && (forall k :: k in s.slots ==> s.slots[k] < |s.cells| && s.cells[s.slots[k]].key == k)
  }

  ghost predicate Inv(s: State) {
    && MapInv(s)
    && (forall t :: t in s.tasks ==> TaskInv(s, t, s.tasks[t]))
    && (forall i: nat :: i < |s.cells| ==> CellInv(s, i))
  }

  /** Every adapter was opened once, for one slot. */
  ghost predicate Distinct(s: State) {
    && (forall i :: 0 <= i < |s.cells| && s.cells[i].content.Full? ==> s.cells[i].content.adapter < s.made)
    && (forall i, j :: 0 <= i < j < |s.cells| && s.cells[i].content.Full? && s.cells[j].content.Full? ==>
          s.cells[i].content.adapter != s.cells[j].content.adapter)
  }

  /** What never changes back: slots stay where they are and a full cell stays full. */
  ghost predicate Extends(s: State, s': State) {
    && (forall k :: k in s.slots ==> k in s'.slots && s'.slots[k] == s.slots[k])
    && |s.cells| <= |s'.cells|
    && (forall i :: 0 <= i < |s.cells| && s.cells[i].content.Full? ==> s'.cells[i] == s.cells[i])
  }

  lemma AdvanceOwn(s: State, t: Tid)
    requires Inv(s) && t in s.tasks && AdvanceTask(s, t).Some?
    ensures TaskInv(AdvanceTask(s, t).value, t, AdvanceTask(s, t).value.tasks[t])
  {
    assert TaskInv(s, t, s.tasks[t]);
  }

  lemma AdvanceOther(s: State, t: Tid, x: Tid)
    requires Inv(s) && t in s.tasks && AdvanceTask(s, t).Some? && x in s.tasks && x != t
    ensures TaskInv(AdvanceTask(s, t).value, x, AdvanceTask(s, t).value.tasks[x])
  {
    var s' := AdvanceTask(s, t).value;
    assert TaskInv(s, t, s.tasks[t]) && TaskInv(s, x, s.tasks[x]);
    assert s'.tasks[x] == s.tasks[x] && (x in s'.readers <==> x in s.readers)
           && (s'.writer == Some(x) <==> s.writer == Some(x));
    assert forall k :: k in s.slots ==> k in s'.slots && s'.slots[k] == s.slots[k];
    assert forall i :: 0 <= i < |s.cells| && !s.cells[i].content.Empty? ==> s'.cells[i].content == s.cells[i].content;
  }

  lemma AdvanceCells(s: State, t: Tid)
    requires Inv(s) && t in s.tasks && AdvanceTask(s, t).Some?
    ensures forall i: nat :: i < |AdvanceTask(s, t).value.cells| ==> CellInv(AdvanceTask(s, t).value, i)
  {
    var s' := AdvanceTask(s, t).value;
    assert TaskInv(s, t, s.tasks[t]);
    forall i: nat | i < |s'.cells| ensures CellInv(s', i) {
      if i < |s.cells| { assert CellInv(s, i); }
    }
  }

  lemma AdvanceMap(s: State, t: Tid)
    requires Inv(s) && t in s.tasks && AdvanceTask(s, t).Some?
    ensures MapInv(AdvanceTask(s, t).value)
  {
    assert TaskInv(s, t, s.tasks[t]);
  }

  lemma AdvanceExtends(s: State, t: Tid)
    requires Inv(s) && t in s.tasks && AdvanceTask(s, t).Some?
    ensures Extends(s, AdvanceTask(s, t).value)
  {
  }

  lemma AdvanceKeeps(s: State, t: Tid)
    requires Inv(s) && t in s.tasks && AdvanceTask(s, t).Some?
    ensures Inv(AdvanceTask(s, t).value) && Extends(s, AdvanceTask(s, t).value)
  {
    var s' := AdvanceTask(s, t).value;
    AdvanceMap(s, t);
    AdvanceExtends(s, t);
    AdvanceCells(s, t);
    forall x | x in s'.tasks ensures TaskInv(s', x, s'.tasks[x]) {
      if x == t { AdvanceOwn(s, t); } else { AdvanceOther(s, t, x); }
    }
  }

  lemma BeginKeeps(s: State, a: Action)
    requires Inv(s) && a.Begin? && Apply(s, a).Some?
    ensures Inv(Apply(s, a).value) && Extends(s, Apply(s, a).value)
  {
    var s' := Apply(s, a).value;
    forall x | x in s'.tasks ensures TaskInv(s', x, s'.tasks[x]) {
      if x in s.tasks { assert TaskInv(s, x, s.tasks[x]); }
    }
    forall i: nat | i < |s'.cells| ensures CellInv(s', i) {
      assert CellInv(s, i);
    }
  }

  /** The opener's cell belongs to the opener alone. */
  lemma OpenerKeeps(s: State, a: Action)
    requires Inv(s) && Apply(s, a).Some? && a.t in s.tasks && s.tasks[a.t].phase.Connecting?
    ensures Inv(Apply(s, a).value) && Extends(s, Apply(s, a).value)
  {
    var s' := Apply(s, a).value;
    assert TaskInv(s, a.t, s.tasks[a.t]);
    assert !a.Begin? && !a.Advance?;
    forall x | x in s'.tasks ensures TaskInv(s', x, s'.tasks[x]) {
      assert TaskInv(s, x, s.tasks[x]);
    }
    forall i: nat | i < |s'.cells| ensures CellInv(s', i) {
      assert CellInv(s, i);
    }
  }

  lemma WaiterDrops(s: State, a: Action)
    requires Inv(s) && a.Drop? && Apply(s, a).Some? && !s.tasks[a.t].phase.Connecting?
    ensures Inv(Apply(s, a).value) && Extends(s, Apply(s, a).value)
  {
    var s' := Apply(s, a).value;
    forall x | x in s'.tasks ensures TaskInv(s', x, s'.tasks[x]) {
      assert TaskInv(s, x, s.tasks[x]);
    }
    forall i: nat | i < |s'.cells| ensures CellInv(s', i) {
      assert CellInv(s, i);
    }
  }

  lemma StepKeeps(s: State, a: Action)
    requires Inv(s) && Apply(s, a).Some?
    ensures Inv(Apply(s, a).value) && Extends(s, Apply(s, a).value)
  {
    if a.Advance? {
      AdvanceKeeps(s, a.t);
    } else if a.Begin? {
      BeginKeeps(s, a);
    } else if s.tasks[a.t].phase.Connecting? {
      OpenerKeeps(s, a);
    } else {
      WaiterDrops(s, a);
    }
  }

  /** A step changes at most one cell, and fills it only with an adapter nobody has. */
  lemma CellsAfter(s: State, a: Action, i: nat)
    requires Apply(s, a).Some? && i < |Apply(s, a).value.cells| && Apply(s, a).value.cells[i].content.Full?
    ensures var s' := Apply(s, a).value;
            && s.made <= s'.made
            && ((i < |s.cells| && s'.cells[i].content == s.cells[i].content)
                || (a.OpenSucceeds? && s.tasks[a.t].phase.slot == i
                    && s'.cells[i].content == Full(s.made) && s'.made == s.made + 1))
  {
  }

  lemma StepDistinct(s: State, a: Action)
    requires Distinct(s) && Apply(s, a).Some?
    ensures Distinct(Apply(s, a).value)
  {
    var s' := Apply(s, a).value;
    forall i | 0 <= i < |s'.cells| && s'.cells[i].content.Full? ensures s'.cells[i].content.adapter < s'.made {
      CellsAfter(s, a, i);
    }
    forall i, j | 0 <= i < j < |s'.cells| && s'.cells[i].content.Full? && s'.cells[j].content.Full?
      ensures s'.cells[i].content.adapter != s'.cells[j].content.adapter
    {
      CellsAfter(s, a, i);
      CellsAfter(s, a, j);
    }
  }

  lemma {:induction false} RunKeeps(schedule: seq<Action>)
    requires Run(START, schedule).Some?
    ensures Inv(Run(START, schedule).value) && Distinct(Run(START, schedule).value)
  {
    if schedule == [] {
    } else {
      RunKeeps(schedule[..|schedule| - 1]);
      StepKeeps(Run(START, schedule[..|schedule| - 1]).value, schedule[|schedule| - 1]);
      StepDistinct(Run(START, schedule[..|schedule| - 1]).value, schedule[|schedule| - 1]);
    }
  }

  lemma ReachableInv(s: State)
    requires Reachable(s)
    ensures Inv(s) && Distinct(s)
  {
    var schedule :| Run(START, schedule) == Some(s);
    RunKeeps(schedule);
  }

  // ---------------------------------------------------------------- results

  /** Each key has at most one slot, each slot at most one adapter, ever. */
  lemma OneSlotOneAdapter(s: State, i: SlotId, j: SlotId)
    requires Reachable(s) && i < |s.cells| && j < |s.cells|
    ensures s.cells[i].key == s.cells[j].key ==> i == j
    ensures s.cells[i].installs <= 1
  {
    ReachableInv(s);
    assert CellInv(s, i) && CellInv(s, j);
  }

  /** All successful callers of a key hold the same adapter, however the calls, failures
      and drops interleave. */
  lemma SameAdapter(s: State, t1: Tid, t2: Tid)
    requires Reachable(s) && t1 in s.tasks && t2 in s.tasks && s.tasks[t1].key == s.tasks[t2].key
    requires s.tasks[t1].phase.Returned? && s.tasks[t2].phase.Returned?
    ensures s.tasks[t1].phase.adapter == s.tasks[t2].phase.adapter
  {
    ReachableInv(s);
    assert TaskInv(s, t1, s.tasks[t1]) && TaskInv(s, t2, s.tasks[t2]);
  }

  /** Callers of different keys never share an adapter. */
  lemma OtherKeyOtherAdapter(s: State, t1: Tid, t2: Tid)
    requires Reachable(s) && t1 in s.tasks && t2 in s.tasks && s.tasks[t1].key != s.tasks[t2].key
    requires s.tasks[t1].phase.Returned? && s.tasks[t2].phase.Returned?
    ensures s.tasks[t1].phase.adapter != s.tasks[t2].phase.adapter
  {
    ReachableInv(s);
    assert TaskInv(s, t1, s.tasks[t1]) && TaskInv(s, t2, s.tasks[t2]);
    assert s.slots[s.tasks[t1].key] != s.slots[s.tasks[t2].key];
  }

  /** A call fails only when its own open fails, and an open succeeds only for a kind of
      server that has an adapter, with a new one, which the opener gets. */
  lemma OutcomesHaveCauses(s: State, a: Action)
    requires Reachable(s) && Apply(s, a).Some? && a.t in s.tasks
    ensures var before, after := s.tasks[a.t], Apply(s, a).value.tasks[a.t].phase;
            && (after.Failed? <==> a.OpenFails?) && (after.Dropped? <==> a.Drop?)
            && (a.OpenSucceeds? ==> before.kind in {Postgres, Mongo} && after == Returned(s.made))
            && (after.Returned? && a.Advance? ==>
                  && before.phase.HasSlot? && before.phase.slot < |s.cells|
                  && s.cells[before.phase.slot].content == Full(after.adapter))
  {
  }

  /** A caller that finds its slot full gets the adapter at once. */
  lemma FullSlotAnswers(s: State, t: Tid, adapter: AdapterId)
    requires Reachable(s) && t in s.tasks && s.tasks[t].phase.HasSlot?
    requires s.tasks[t].key in s.slots && s.slots[s.tasks[t].key] < |s.cells|
    requires s.cells[s.slots[s.tasks[t].key]].content == Full(adapter)
    ensures Apply(s, Advance(t)).Some? && Apply(s, Advance(t)).value.tasks[t].phase == Returned(adapter)
  {
    ReachableInv(s);
    assert TaskInv(s, t, s.tasks[t]);
  }

  /** At most one open is in progress per key, and whoever opens holds no lock. */
  lemma SingleFlight(s: State, t1: Tid, t2: Tid)
    requires Reachable(s) && t1 in s.tasks && t2 in s.tasks && s.tasks[t1].phase.Connecting?
    requires s.tasks[t2].phase.Connecting?
    ensures s.tasks[t1].key == s.tasks[t2].key ==> t1 == t2
    ensures t1 !in s.readers && s.writer != Some(t1)
  {
    ReachableInv(s);
    assert TaskInv(s, t1, s.tasks[t1]) && TaskInv(s, t2, s.tasks[t2]);
  }

  /** A hanging open delays only callers of its own key: any other unfinished call can
      step, or is waiting for a lock whose holder can. */
  lemma OthersProceed(s: State, t: Tid)
    requires Reachable(s) && t in s.tasks && !s.tasks[t].phase.Finished() && !s.tasks[t].phase.Connecting?
    requires s.tasks[t].key in s.slots && s.slots[s.tasks[t].key] < |s.cells| ==>
             !s.cells[s.slots[s.tasks[t].key]].content.Opening?
    ensures || Apply(s, Advance(t)).Some?
            || (exists x :: x in s.readers && Apply(s, Advance(x)).Some?)
            || (s.writer.Some? && Apply(s, Advance(s.writer.value)).Some?)
  {
    ReachableInv(s);
    assert TaskInv(s, t, s.tasks[t]);
    if s.readers != {} {
      var x :| x in s.readers;
      assert TaskInv(s, x, s.tasks[x]);
      assert Apply(s, Advance(x)).Some?;
    } else if s.writer.Some? {
      assert TaskInv(s, s.writer.value, s.tasks[s.writer.value]);
    }
  }

  /** The opener of a slot fails or is dropped. */
  ghost predicate GivesUp(s: State, a: Action) {
    && (a.OpenFails? || a.Drop?) && a.t in s.tasks && s.tasks[a.t].phase.Connecting?
    && Apply(s, a).Some?
  }

  /** A failed or abandoned open leaves the key's slot in place and empty, and any caller
      waiting on it can take over the attempt at once. */
  lemma FailureIsRetryable(s: State, a: Action)
    requires Reachable(s) && GivesUp(s, a)
    ensures var s', key, slot := Apply(s, a).value, s.tasks[a.t].key, s.tasks[a.t].phase.slot;
            && s'.slots == s.slots && key in s'.slots && s'.slots[key] == slot
            && slot < |s'.cells| && s'.cells[slot].content == Empty
            && forall x :: x in s.tasks && x != a.t && s.tasks[x].key == key && s.tasks[x].phase.HasSlot? ==>
                 && x in s'.tasks && s'.tasks[x] == s.tasks[x]
                 && Apply(s', Advance(x)).Some?
                 && Apply(s', Advance(x)).value.tasks[x].phase == Connecting(slot)
  {
    ReachableInv(s);
    var s', key, slot := Apply(s, a).value, s.tasks[a.t].key, s.tasks[a.t].phase.slot;
    assert TaskInv(s, a.t, s.tasks[a.t]);
    forall x | x in s.tasks && x != a.t && s.tasks[x].key == key && s.tasks[x].phase.HasSlot?
      ensures x in s'.tasks && s'.tasks[x] == s.tasks[x] && Apply(s', Advance(x)).Some?
      ensures Apply(s', Advance(x)).value.tasks[x].phase == Connecting(slot)
    {
      assert TaskInv(s, x, s.tasks[x]);
    }
  }

  /** A caller that arrives at an empty slot later, when no writer holds the map, retries. */
  lemma LateCallerRetries(s: State, x: Tid, key: Key, kind: ServerKind) returns (s': State)
    requires Reachable(s) && s.writer.None? && x !in s.tasks
    requires key in s.slots && s.slots[key] < |s.cells| && s.cells[s.slots[key]].content == Empty
    ensures Run(s, [Begin(x, key, kind), Advance(x), Advance(x), Advance(x)]) == Some(s')
    ensures x in s'.tasks && s'.tasks[x] == Task(key, kind, Connecting(s.slots[key]))
  {
    var s1 := Apply(s, Begin(x, key, kind)).value;
    var s2 := Apply(s1, Advance(x)).value;
    assert s2.tasks[x] == Task(key, kind, Reading) && s2.slots == s.slots && s2.cells == s.cells;
    var s3 := Apply(s2, Advance(x)).value;
    assert s3.tasks[x] == Task(key, kind, HasSlot(s.slots[key])) && s3.cells == s.cells;
    s' := Apply(s3, Advance(x)).value;
    RunFour(s, Begin(x, key, kind), Advance(x), Advance(x), Advance(x), s1, s2, s3, s');
  }

  lemma RunFour(s: State, a1: Action, a2: Action, a3: Action, a4: Action, s1: State, s2: State, s3: State, s4: State)
    requires Apply(s, a1) == Some(s1) && Apply(s1, a2) == Some(s2) && Apply(s2, a3) == Some(s3)
    requires Apply(s3, a4) == Some(s4)
    ensures Run(s, [a1, a2, a3, a4]) == Some(s4)
  {
    assert [a1, a2, a3, a4][..3] == [a1, a2, a3] && [a1, a2, a3][..2] == [a1, a2] && [a1, a2][..1] == [a1]
           && [a1][..0] == [];
    assert Run(s, [a1]) == Some(s1);
    assert Run(s, [a1, a2]) == Some(s2);
    assert Run(s, [a1, a2, a3]) == Some(s3);
  }
}
