/** The closed-loop load driver (benchmarks/harness/driver.rs) and the round-robin routing
    over it (benchmarks/harness/scaling.rs).

    Workers interleave freely. A step is one fetch-and-add on a shared counter, the hand-over
    of one iteration to the path, or the end of one request. */
module LoadDriver {
  import opened Common

  type Latency = real

  /** A completion stamp and the latency it belongs to. */
  type Sample = (nat, Latency)

  /** A worker claims iteration `i` from the counter before it hands it over. */
  datatype Phase = Looping | Claimed(i: nat) | Requesting(i: nat) | Succeeded(i: nat, ms: Latency) | Stopped

  datatype Worker = Worker(phase: Phase, samples: seq<Sample>, errors: nat, firstError: Option<string>)

  /** `ran` lists the iterations handed to the path in order, `log` the successful
      latencies in the order their stamps were taken. */
  datatype State = State(total: nat, offset: nat, counter: nat, completion: nat,
                         workers: seq<Worker>, ran: seq<nat>, log: seq<Latency>)
  {
    /** How many iterations the workers have claimed. */
    function Issued(): nat { if counter < total then counter else total }
  }

  datatype Action = Fetch(w: nat) | Send(w: nat) | Respond(w: nat, result: Result<Latency, string>) | Stamp(w: nat)

  const IDLE := Worker(Looping, [], 0, None)

  /** `concurrency.max(1)` workers about to loop over `[offset, offset + total)`. */
  function Start(concurrency: nat, total: nat, offset: nat): State {
    State(total, offset, 0, 0, seq(Max(concurrency, 1), _ => IDLE), [], [])
  }

  function Set(s: State, w: nat, worker: Worker): State
    requires w < |s.workers|
  {
    s.(workers := s.workers[w := worker])
  }

  function Apply(s: State, a: Action): Option<State> {
    if |s.workers| <= a.w then None
    else
      var worker := s.workers[a.w];
      match a
      case Fetch(w) =>
        if !worker.phase.Looping? then None
        else
          Some(Set(s.(counter := s.counter + 1), w,
                   worker.(phase := if s.counter < s.total then Claimed(s.counter) else Stopped)))
      case Send(w) =>
        if !worker.phase.Claimed? then None
        else Some(Set(s, w, worker.(phase := Requesting(worker.phase.i))).(ran := s.ran + [s.offset + worker.phase.i]))
      case Respond(w, result) =>
        if !worker.phase.Requesting? then None
        else
          (match result
           case Ok(ms) => Some(Set(s, w, worker.(phase := Succeeded(worker.phase.i, ms))))
           case Err(e) =>
             Some(Set(s, w, worker.(phase := Looping, errors := worker.errors + 1,
                                    firstError := if worker.firstError.None? then Some(e) else worker.firstError))))
      case Stamp(w) =>
        if !worker.phase.Succeeded? then None
        else Some(Set(s, w, worker.(phase := Looping, samples := worker.samples + [(s.completion, worker.phase.ms)]))
                  .(completion := s.completion + 1, log := s.log + [worker.phase.ms]))
  }

  function Run(s: State, schedule: seq<Action>): Option<State> {
    if schedule == [] then Some(s)
    else
      match Run(s, schedule[..|schedule| - 1])
      case None => None
      case Some(m) => Apply(m, schedule[|schedule| - 1])
  }

  ghost predicate ReachableWith(concurrency: nat, s: State) {
    exists schedule :: Run(Start(concurrency, s.total, s.offset), schedule) == Some(s)
  }

  ghost predicate Reachable(s: State) {
    exists concurrency: nat :: ReachableWith(concurrency, s)
  }

  // ---------------------------------------------------------------- sums over workers

  function Collected(workers: seq<Worker>): seq<Sample> {
    if workers == [] then [] else Collected(workers[..|workers| - 1]) + workers[|workers| - 1].samples
  }

  function Errors(workers: seq<Worker>): nat {
    if workers == [] then 0 else Errors(workers[..|workers| - 1]) + workers[|workers| - 1].errors
  }

  function Busy(worker: Worker): nat {
    if worker.phase.Requesting? || worker.phase.Succeeded? then 1 else 0
  }

  function Outstanding(workers: seq<Worker>): nat {
    if workers == [] then 0 else Outstanding(workers[..|workers| - 1]) + Busy(workers[|workers| - 1])
  }

  /** The iteration a worker has claimed and not handed over. */
  function Claim(worker: Worker, offset: nat): seq<nat> {
    if worker.phase.Claimed? then [offset + worker.phase.i] else []
  }

  function Unsent(workers: seq<Worker>, offset: nat): seq<nat> {
    if workers == [] then []
    else Unsent(workers[..|workers| - 1], offset) + Claim(workers[|workers| - 1], offset)
  }

  lemma {:induction false} ReplaceClaim(workers: seq<Worker>, w: nat, worker: Worker, offset: nat)
    requires w < |workers|
    ensures multiset(Unsent(workers[w := worker], offset)) + multiset(Claim(workers[w], offset))
         == multiset(Unsent(workers, offset)) + multiset(Claim(worker, offset))
  {
    var n, changed := |workers| - 1, workers[w := worker];
    if w == n {
      assert changed[..n] == workers[..n];
    } else {
      assert changed[..n] == workers[..n][w := worker];
      ReplaceClaim(workers[..n], w, worker, offset);
      AddBoth(multiset(Unsent(changed[..n], offset)), multiset(Claim(workers[w], offset)),
              multiset(Unsent(workers[..n], offset)), multiset(Claim(worker, offset)),
              multiset(Claim(workers[n], offset)));
    }
  }

  lemma AddBoth<X>(a: multiset<X>, b: multiset<X>, c: multiset<X>, d: multiset<X>, x: multiset<X>)
    requires a + b == c + d
    ensures (a + x) + b == (c + x) + d
  {
    assert (a + x) + b == (a + b) + x;
  }

  /** Replacing one worker moves each sum by that worker's difference. */
  lemma Replace(workers: seq<Worker>, w: nat, worker: Worker)
    requires w < |workers| && workers[w].samples <= worker.samples
    ensures Errors(workers[w := worker]) == Errors(workers) - workers[w].errors + worker.errors
    ensures Outstanding(workers[w := worker]) == Outstanding(workers) - Busy(workers[w]) + Busy(worker)
    ensures multiset(Collected(workers[w := worker])) == multiset(Collected(workers))
            + multiset(worker.samples[|workers[w].samples|..])
  {
    ReplaceCounts(workers, w, worker);
    ReplaceSamples(workers, w, worker);
  }

  lemma {:induction false} ReplaceCounts(workers: seq<Worker>, w: nat, worker: Worker)
    requires w < |workers|
    ensures Errors(workers[w := worker]) == Errors(workers) - workers[w].errors + worker.errors
    ensures Outstanding(workers[w := worker]) == Outstanding(workers) - Busy(workers[w]) + Busy(worker)
  {
    var n := |workers| - 1;
    if w < n {
      assert workers[w := worker][..n] == workers[..n][w := worker];
      ReplaceCounts(workers[..n], w, worker);
    } else {
      assert workers[w := worker][..n] == workers[..n];
    }
  }

  lemma {:induction false} ReplaceSamples(workers: seq<Worker>, w: nat, worker: Worker)
    requires w < |workers| && workers[w].samples <= worker.samples
    ensures multiset(Collected(workers[w := worker])) == multiset(Collected(workers))
            + multiset(worker.samples[|workers[w].samples|..])
  {
    var n, changed := |workers| - 1, workers[w := worker];
    if w < n {
      assert changed[..n] == workers[..n][w := worker];
      ReplaceSamples(workers[..n], w, worker);
      assert multiset(Collected(changed)) == multiset(Collected(changed[..n])) + multiset(workers[n].samples);
    } else {
      ReplaceLast(workers, worker);
    }
  }

  lemma ReplaceLast(workers: seq<Worker>, worker: Worker)
    requires workers != [] && workers[|workers| - 1].samples <= worker.samples
    ensures Collected(workers[|workers| - 1 := worker]) == Collected(workers)
            + worker.samples[|workers[|workers| - 1].samples|..]
  {
    var n := |workers| - 1;
    assert workers[n := worker][..n] == workers[..n];
    assert worker.samples == workers[n].samples + worker.samples[|workers[n].samples|..];
  }

  lemma {:induction false} AllIdle(n: nat, offset: nat)
    ensures var ws := seq(n, _ => IDLE);
            Collected(ws) == [] && Errors(ws) == 0 && Outstanding(ws) == 0 && Unsent(ws, offset) == []
  {
    if n == 0 {
    } else {
      var ws: seq<Worker> := seq(n, _ => IDLE);
      assert ws[..n - 1] == seq(n - 1, _ => IDLE);
      AllIdle(n - 1, offset);
    }
  }

  lemma {:induction false} NoneOutstanding(workers: seq<Worker>, offset: nat)
    requires forall w :: 0 <= w < |workers| ==> workers[w].phase.Stopped?
    ensures Outstanding(workers) == 0 && Unsent(workers, offset) == []
  {
    if workers == [] {
    } else {
      NoneOutstanding(workers[..|workers| - 1], offset);
    }
  }

  // ---------------------------------------------------------------- invariant

  /** The bookkeeping of one step: a worker trades its claim, what it claims joins the
      issued iterations and what it hands over leaves the unsent ones. */
  lemma Balance<X>(ran: seq<X>, unsent: seq<X>, issued: seq<X>, unsent': seq<X>,
                   before: seq<X>, after: seq<X>, claims: seq<X>, sends: seq<X>)
    requires multiset(ran) + multiset(unsent) == multiset(issued)
    requires multiset(unsent') + multiset(before) == multiset(unsent) + multiset(after)
    requires before + claims == sends + after
    ensures multiset(ran + sends) + multiset(unsent') == multiset(issued + claims)
  {
    assert multiset(before) + multiset(claims) == multiset(before + claims) == multiset(sends) + multiset(after);
    BalanceCounts(multiset(ran), multiset(unsent), multiset(issued), multiset(unsent'),
                  multiset(before), multiset(after), multiset(claims), multiset(sends));
  }

  lemma BalanceCounts<X>(ran: multiset<X>, unsent: multiset<X>, issued: multiset<X>, unsent': multiset<X>,
                         before: multiset<X>, after: multiset<X>, claims: multiset<X>, sends: multiset<X>)
    requires ran + unsent == issued && unsent' + before == unsent + after && before + claims == sends + after
    ensures (ran + sends) + unsent' == issued + claims
  {
    forall i ensures ((ran + sends) + unsent')[i] == (issued + claims)[i] {
      assert (ran + unsent)[i] == issued[i];
      assert (unsent' + before)[i] == (unsent + after)[i];
      assert (before + claims)[i] == (sends + after)[i];
    }
  }

  /** Each logged latency with its position. */
  function Indexed(log: seq<Latency>): (xs: seq<Sample>)
    ensures |xs| == |log| && forall k :: 0 <= k < |xs| ==> xs[k] == (k, log[k])
  {
    seq(|log|, k requires 0 <= k < |log| => (k, log[k]))
  }

  function Range(offset: nat, n: nat): (xs: seq<nat>)
    ensures |xs| == n && forall k :: 0 <= k < n ==> xs[k] == offset + k
  {
    seq(n, k requires 0 <= k < n => offset + k)
  }

  /** Every claimed iteration is handed over or still with its worker, exactly once. */
  ghost predicate SentOnce(s: State) {
    multiset(s.ran) + multiset(Unsent(s.workers, s.offset)) == multiset(Range(s.offset, s.Issued()))
  }

  /** A single worker hands the iterations over in order. */
  ghost predicate InOrder(s: State) {
    |s.workers| == 1 ==> s.ran + Claim(s.workers[0], s.offset) == Range(s.offset, s.Issued())
  }

  ghost predicate StopInv(s: State) {
    (exists w :: 0 <= w < |s.workers| && s.workers[w].phase.Stopped?) ==> s.total <= s.counter
  }

  /** Every iteration handed over has succeeded, failed or is outstanding. */
  ghost predicate SampleInv(s: State) {
    && s.completion == |s.log|
    && multiset(Collected(s.workers)) == multiset(Indexed(s.log))
    && |s.log| + Errors(s.workers) + Outstanding(s.workers) == |s.ran|
  }

  ghost predicate Inv(s: State) {
    s.workers != [] && SentOnce(s) && InOrder(s) && StopInv(s) && SampleInv(s)
  }

  /** What a step does to the workers: only its own one changes. */
  lemma OneWorkerMoves(s: State, a: Action)
    requires Apply(s, a).Some?
    ensures var s' := Apply(s, a).value;
            && a.w < |s.workers| && |s'.workers| == |s.workers| && s'.workers == s.workers[a.w := s'.workers[a.w]]
            && s'.total == s.total && s'.offset == s.offset
            && s.workers[a.w].samples <= s'.workers[a.w].samples
            && (s'.workers[a.w].phase.Stopped? ==> a.Fetch? && s.total <= s.counter)
  {
  }

  lemma StopKept(s: State, a: Action)
    requires StopInv(s) && Apply(s, a).Some?
    ensures StopInv(Apply(s, a).value)
  {
    OneWorkerMoves(s, a);
    var s' := Apply(s, a).value;
    if w :| 0 <= w < |s'.workers| && s'.workers[w].phase.Stopped? {
      if w != a.w {
        assert s.workers[w].phase.Stopped?;
      }
    }
  }

  /** What a step claims and what it hands over. */
  function Claims(s: State, a: Action): seq<nat> {
    if a.Fetch? && s.counter < s.total then [s.offset + s.counter] else []
  }

  function Sends(s: State, a: Action): seq<nat> {
    if a.Send? && a.w < |s.workers| then Claim(s.workers[a.w], s.offset) else []
  }

  lemma StepMoves(s: State, a: Action)
    requires Apply(s, a).Some?
    ensures var s' := Apply(s, a).value;
            && s'.ran == s.ran + Sends(s, a)
            && Claim(s.workers[a.w], s.offset) + Claims(s, a) == Sends(s, a) + Claim(s'.workers[a.w], s.offset)
            && Range(s.offset, s'.Issued()) == Range(s.offset, s.Issued()) + Claims(s, a)
  {
  }

  lemma SentOnceKept(s: State, a: Action)
    requires SentOnce(s) && Apply(s, a).Some?
    ensures SentOnce(Apply(s, a).value)
  {
    var s' := Apply(s, a).value;
    OneWorkerMoves(s, a);
    StepMoves(s, a);
    ReplaceClaim(s.workers, a.w, s'.workers[a.w], s.offset);
    Balance(s.ran, Unsent(s.workers, s.offset), Range(s.offset, s.Issued()), Unsent(s'.workers, s.offset),
            Claim(s.workers[a.w], s.offset), Claim(s'.workers[a.w], s.offset), Claims(s, a), Sends(s, a));
  }

  lemma InOrderKept(s: State, a: Action)
    requires InOrder(s) && Apply(s, a).Some?
    ensures InOrder(Apply(s, a).value)
  {
    OneWorkerMoves(s, a);
    StepMoves(s, a);
    if |s.workers| == 1 {
      var before, after := Claim(s.workers[0], s.offset), Claim(Apply(s, a).value.workers[0], s.offset);
      assert (s.ran + Sends(s, a)) + after == s.ran + (before + Claims(s, a)) == (s.ran + before) + Claims(s, a);
    }
  }

  lemma StampSamples(s: State, w: nat)
    requires SampleInv(s) && Apply(s, Stamp(w)).Some?
    ensures SampleInv(Apply(s, Stamp(w)).value)
  {
    var s' := Apply(s, Stamp(w)).value;
    var worker, ms := s'.workers[w], s.workers[w].phase.ms;
    Replace(s.workers, w, worker);
    assert worker.samples[|s.workers[w].samples|..] == [(s.completion, ms)];
    assert Indexed(s'.log) == Indexed(s.log) + [(|s.log|, ms)];
  }

  lemma OtherSamples(s: State, a: Action)
    requires SampleInv(s) && Apply(s, a).Some? && !a.Stamp?
    ensures SampleInv(Apply(s, a).value)
  {
    var s' := Apply(s, a).value;
    OneWorkerMoves(s, a);
    SameSamples(s, a);
    var worker := s'.workers[a.w];
    Replace(s.workers, a.w, worker);
    assert worker.samples[|s.workers[a.w].samples|..] == [];
    assert multiset(Collected(s'.workers)) == multiset(Collected(s.workers));
  }

  lemma SameSamples(s: State, a: Action)
    requires Apply(s, a).Some? && !a.Stamp?
    ensures var s' := Apply(s, a).value;
            var before, after := s.workers[a.w], s'.workers[a.w];
            && s'.log == s.log && s'.completion == s.completion && after.samples == before.samples
            && |s'.ran| - |s.ran| == after.errors + Busy(after) - before.errors - Busy(before)
  {
  }

  lemma StepKeeps(s: State, a: Action)
    requires Inv(s) && Apply(s, a).Some?
    ensures Inv(Apply(s, a).value)
  {
    OneWorkerMoves(s, a);
    StopKept(s, a);
    SentOnceKept(s, a);
    InOrderKept(s, a);
    if a.Stamp? {
      StampSamples(s, a.w);
    } else {
      OtherSamples(s, a);
    }
  }

  lemma {:induction false} RunKeeps(s: State, schedule: seq<Action>)
    requires Inv(s) && Run(s, schedule).Some?
    ensures Inv(Run(s, schedule).value) && |Run(s, schedule).value.workers| == |s.workers|
  {
    if schedule == [] {
    } else {
      var m, a := Run(s, schedule[..|schedule| - 1]).value, schedule[|schedule| - 1];
      RunKeeps(s, schedule[..|schedule| - 1]);
      StepKeeps(m, a);
      OneWorkerMoves(m, a);
    }
  }

  lemma StartInv(concurrency: nat, total: nat, offset: nat)
    ensures Inv(Start(concurrency, total, offset))
  {
    AllIdle(Max(concurrency, 1), offset);
  }

  lemma ReachableInv(concurrency: nat, s: State)
    requires ReachableWith(concurrency, s)
    ensures Inv(s) && |s.workers| == Max(concurrency, 1)
  {
    var schedule :| Run(Start(concurrency, s.total, s.offset), schedule) == Some(s);
    StartInv(concurrency, s.total, s.offset);
    RunKeeps(Start(concurrency, s.total, s.offset), schedule);
  }

  ghost predicate Joined(s: State) {
    forall w :: 0 <= w < |s.workers| ==> s.workers[w].phase.Stopped?
  }

  lemma {:induction false} RangeOnce(offset: nat, n: nat, i: nat)
    ensures multiset(Range(offset, n))[i] == if offset <= i < offset + n then 1 else 0
  {
    if n == 0 {
    } else {
      RangeOnce(offset, n - 1, i);
      assert Range(offset, n) == Range(offset, n - 1) + [offset + n - 1];
    }
  }

  /** Once all workers have stopped, every iteration of the range was handed to the path
      exactly once and no other was, each of them is a success or an error, and a single
      worker ran them in order. */
  lemma EveryIterationOnce(concurrency: nat, s: State)
    requires ReachableWith(concurrency, s) && Joined(s)
    ensures multiset(s.ran) == multiset(Range(s.offset, s.total))
    ensures forall i :: multiset(s.ran)[i] == if s.offset <= i < s.offset + s.total then 1 else 0
    ensures concurrency <= 1 ==> s.ran == Range(s.offset, s.total)
    ensures |s.log| + Errors(s.workers) == s.total
    ensures multiset(Collected(s.workers)) == multiset(Indexed(s.log))
  {
    ReachableInv(concurrency, s);
    NoneOutstanding(s.workers, s.offset);
    assert s.workers[0].phase.Stopped?;
    assert |multiset(s.ran)| == |s.ran| && |multiset(Range(s.offset, s.total))| == s.total;
    forall i: nat ensures multiset(s.ran)[i] == if s.offset <= i < s.offset + s.total then 1 else 0 {
      RangeOnce(s.offset, s.total, i);
    }
  }

  // ---------------------------------------------------------------- what the path answered

  /** The latest answer a worker got. */
  function LastAnswer(schedule: seq<Action>, w: nat): Option<Result<Latency, string>> {
    if schedule == [] then None
    else
      var a := schedule[|schedule| - 1];
      if a.Respond? && a.w == w then Some(a.result) else LastAnswer(schedule[..|schedule| - 1], w)
  }

  /** The successful latencies in the order the workers stamped them. */
  function StampedLatencies(schedule: seq<Action>): seq<Latency> {
    if schedule == [] then []
    else
      var init, a := schedule[..|schedule| - 1], schedule[|schedule| - 1];
      if a.Stamp? && LastAnswer(init, a.w).Some? && LastAnswer(init, a.w).value.Ok?
      then StampedLatencies(init) + [LastAnswer(init, a.w).value.value] else StampedLatencies(init)
  }

  /** All successful answers. */
  function Successes(schedule: seq<Action>): seq<Latency> {
    if schedule == [] then []
    else
      var init, a := schedule[..|schedule| - 1], schedule[|schedule| - 1];
      if a.Respond? && a.result.Ok? then Successes(init) + [a.result.value] else Successes(init)
  }

  /** The failed answers one worker got, in order. */
  function Failures(schedule: seq<Action>, w: nat): seq<string> {
    if schedule == [] then []
    else
      var init, a := schedule[..|schedule| - 1], schedule[|schedule| - 1];
      if a.Respond? && a.w == w && a.result.Err? then Failures(init, w) + [a.result.error] else Failures(init, w)
  }

  /** A success that is answered and not yet stamped. */
  function Unstamped(worker: Worker): seq<Latency> {
    if worker.phase.Succeeded? then [worker.phase.ms] else []
  }

  function AllUnstamped(workers: seq<Worker>): seq<Latency> {
    if workers == [] then [] else AllUnstamped(workers[..|workers| - 1]) + Unstamped(workers[|workers| - 1])
  }

  ghost predicate WorkerHistory(worker: Worker, schedule: seq<Action>, w: nat) {
    && worker.errors == |Failures(schedule, w)|
    && worker.firstError == (if Failures(schedule, w) == [] then None else Some(Failures(schedule, w)[0]))
    && (worker.phase.Succeeded? ==> LastAnswer(schedule, w) == Some(Ok(worker.phase.ms)))
  }

  ghost predicate History(s: State, schedule: seq<Action>) {
    && s.log == StampedLatencies(schedule)
    && multiset(s.log) + multiset(AllUnstamped(s.workers)) == multiset(Successes(schedule))
    && forall w :: 0 <= w < |s.workers| ==> WorkerHistory(s.workers[w], schedule, w)
  }

  lemma {:induction false} ReplaceUnstamped(workers: seq<Worker>, w: nat, worker: Worker)
    requires w < |workers|
    ensures multiset(AllUnstamped(workers[w := worker])) + multiset(Unstamped(workers[w]))
         == multiset(AllUnstamped(workers)) + multiset(Unstamped(worker))
  {
    var n, changed := |workers| - 1, workers[w := worker];
    if w == n {
      assert changed[..n] == workers[..n];
    } else {
      assert changed[..n] == workers[..n][w := worker];
      ReplaceUnstamped(workers[..n], w, worker);
      AddBoth(multiset(AllUnstamped(changed[..n])), multiset(Unstamped(workers[w])),
              multiset(AllUnstamped(workers[..n])), multiset(Unstamped(worker)), multiset(Unstamped(workers[n])));
    }
  }

  lemma {:induction false} IdleUnstamped(n: nat)
    ensures AllUnstamped(seq(n, _ => IDLE)) == []
  {
    if n == 0 {
    } else {
      var ws: seq<Worker> := seq(n, _ => IDLE);
      assert ws[..n - 1] == seq(n - 1, _ => IDLE);
      IdleUnstamped(n - 1);
    }
  }

  /** What a step adds to a worker's answers. */
  lemma AnswerStep(schedule: seq<Action>, a: Action, w: nat)
    ensures var longer, mine := schedule + [a], a.Respond? && a.w == w;
            && Failures(longer, w) == Failures(schedule, w) + (if mine && a.result.Err? then [a.result.error] else [])
            && LastAnswer(longer, w) == (if mine then Some(a.result) else LastAnswer(schedule, w))
  {
    var longer := schedule + [a];
    assert longer[..|longer| - 1] == schedule;
  }

  lemma WorkerStep(s: State, schedule: seq<Action>, a: Action, w: nat)
    requires Apply(s, a).Some? && w < |s.workers| && WorkerHistory(s.workers[w], schedule, w)
    ensures WorkerHistory(Apply(s, a).value.workers[w], schedule + [a], w)
  {
    OneWorkerMoves(s, a);
    AnswerStep(schedule, a, w);
    if w != a.w {
      assert Apply(s, a).value.workers[w] == s.workers[w];
    }
  }

  /** What a step adds to the answers and to the log. */
  lemma LogStep(s: State, schedule: seq<Action>, a: Action)
    requires Apply(s, a).Some? && a.w < |s.workers| && WorkerHistory(s.workers[a.w], schedule, a.w)
    ensures var s', before := Apply(s, a).value, s.workers[a.w];
            var answered := if a.Respond? && a.result.Ok? then [a.result.value] else [];
            var stamped := if a.Stamp? then Unstamped(before) else [];
            && s'.log == s.log + stamped
            && StampedLatencies(schedule + [a]) == StampedLatencies(schedule) + stamped
            && Successes(schedule + [a]) == Successes(schedule) + answered
            && Unstamped(before) + answered == stamped + Unstamped(s'.workers[a.w])
  {
    var longer := schedule + [a];
    assert longer[..|longer| - 1] == schedule;
  }

  lemma HistoryStep(s: State, schedule: seq<Action>, a: Action)
    requires History(s, schedule) && Apply(s, a).Some?
    ensures History(Apply(s, a).value, schedule + [a])
  {
    var s' := Apply(s, a).value;
    OneWorkerMoves(s, a);
    LogStep(s, schedule, a);
    ReplaceUnstamped(s.workers, a.w, s'.workers[a.w]);
    var answered := if a.Respond? && a.result.Ok? then [a.result.value] else [];
    var stamped := if a.Stamp? then Unstamped(s.workers[a.w]) else [];
    Balance(s.log, AllUnstamped(s.workers), Successes(schedule), AllUnstamped(s'.workers),
            Unstamped(s.workers[a.w]), Unstamped(s'.workers[a.w]), answered, stamped);
    forall w | 0 <= w < |s'.workers| ensures WorkerHistory(s'.workers[w], schedule + [a], w) {
      WorkerStep(s, schedule, a, w);
    }
  }

  lemma StartHistory(concurrency: nat, total: nat, offset: nat)
    ensures History(Start(concurrency, total, offset), [])
  {
    IdleUnstamped(Max(concurrency, 1));
  }

  lemma HistoryExtends(s: State, schedule: seq<Action>)
    requires schedule != [] && History(s, schedule[..|schedule| - 1]) && Apply(s, schedule[|schedule| - 1]).Some?
    ensures History(Apply(s, schedule[|schedule| - 1]).value, schedule)
  {
    var init, a := schedule[..|schedule| - 1], schedule[|schedule| - 1];
    HistoryStep(s, init, a);
    assert init + [a] == schedule;
  }

  /** In every run the log is the path's successful answers in the order they were stamped,
      and each worker's errors are the failed answers it got. */
  lemma {:induction false} RunHistory(s0: State, schedule: seq<Action>)
    requires History(s0, []) && Run(s0, schedule).Some?
    ensures History(Run(s0, schedule).value, schedule)
  {
    if schedule == [] {
    } else {
      RunHistory(s0, schedule[..|schedule| - 1]);
      HistoryExtends(Run(s0, schedule[..|schedule| - 1]).value, schedule);
    }
  }

  lemma {:induction false} NoneUnstamped(workers: seq<Worker>)
    requires forall w :: 0 <= w < |workers| ==> workers[w].phase.Stopped?
    ensures AllUnstamped(workers) == []
  {
    if workers == [] {
    } else {
      NoneUnstamped(workers[..|workers| - 1]);
    }
  }

  /** Once the workers have stopped, no successful answer is missing and none is made up. */
  lemma NoLatencyLost(concurrency: nat, total: nat, offset: nat, schedule: seq<Action>)
    requires Run(Start(concurrency, total, offset), schedule).Some?
    requires Joined(Run(Start(concurrency, total, offset), schedule).value)
    ensures var s := Run(Start(concurrency, total, offset), schedule).value;
            && s.log == StampedLatencies(schedule)
            && multiset(s.log) == multiset(Successes(schedule))
            && forall w :: 0 <= w < |s.workers| ==> WorkerHistory(s.workers[w], schedule, w)
  {
    StartHistory(concurrency, total, offset);
    RunHistory(Start(concurrency, total, offset), schedule);
    NoneUnstamped(Run(Start(concurrency, total, offset), schedule).value.workers);
  }

  // ---------------------------------------------------------------- merging the samples

  ghost predicate Sorted(xs: seq<Sample>) {
    forall i, j :: 0 <= i < j < |xs| ==> xs[i].0 <= xs[j].0
  }

  lemma InsertSorted(ys: seq<Sample>, x: Sample, j: nat)
    requires Sorted(ys) && j <= |ys| && (forall k :: j <= k < |ys| ==> x.0 <= ys[k].0) && (j > 0 ==> ys[j - 1].0 <= x.0)
    ensures Sorted(ys[..j] + [x] + ys[j..])
  {
    var zs := ys[..j] + [x] + ys[j..];
    forall a, b | 0 <= a < b < |zs| ensures zs[a].0 <= zs[b].0 {
      if j > 0 && a < j { assert ys[a].0 <= ys[j - 1].0; }
      assert zs[a] == if a < j then ys[a] else if a == j then x else ys[a - 1];
      assert zs[b] == if b < j then ys[b] else if b == j then x else ys[b - 1];
    }
  }

  lemma InsertMultiset(ys: seq<Sample>, x: Sample, j: nat)
    requires j <= |ys|
    ensures multiset(ys[..j] + [x] + ys[j..]) == multiset(ys) + multiset{x}
  {
    assert ys == ys[..j] + ys[j..];
  }

  /** Where a sample belongs in a sorted list. */
  method Position(ys: seq<Sample>, x: Sample) returns (j: nat)
    requires Sorted(ys)
    ensures j <= |ys| && (forall k :: j <= k < |ys| ==> x.0 <= ys[k].0) && (j > 0 ==> ys[j - 1].0 <= x.0)
  {
    j := |ys|;
    while j > 0 && x.0 < ys[j - 1].0
      invariant 0 <= j <= |ys|
      invariant forall k :: j <= k < |ys| ==> x.0 <= ys[k].0
    {
      j := j - 1;
    }
  }

  /** `sort_unstable_by_key` on the stamp. */
  method SortByStamp(xs: seq<Sample>) returns (ys: seq<Sample>)
    ensures multiset(ys) == multiset(xs) && Sorted(ys)
  {
    ys := [];
    for i := 0 to |xs|
      invariant multiset(ys) == multiset(xs[..i]) && Sorted(ys)
    {
      var j := Position(ys, xs[i]);
      InsertSorted(ys, xs[i], j);
      InsertMultiset(ys, xs[i], j);
      assert xs[..i + 1] == xs[..i] + [xs[i]];
      ys := ys[..j] + [xs[i]] + ys[j..];
    }
    assert xs[..|xs|] == xs;
  }

  /** Stamps are positions, so any sort by stamp restores the completion order. */
  lemma {:induction false} SortedIsIndexed(ys: seq<Sample>, log: seq<Latency>)
    requires Sorted(ys) && multiset(ys) == multiset(Indexed(log))
    ensures ys == Indexed(log)
  {
    assert |multiset(ys)| == |ys| && |multiset(Indexed(log))| == |log|;
    if log == [] {
    } else {
      var n := |log| - 1;
      var last := ys[n];
      assert last in multiset(Indexed(log));
      assert Indexed(log)[n] in multiset(ys);
      assert last == Indexed(log)[n];
      assert ys == ys[..n] + [last];
      assert Indexed(log) == Indexed(log[..n]) + [last];
      assert multiset(ys) == multiset(ys[..n]) + multiset{last};
      assert multiset(Indexed(log)) == multiset(Indexed(log[..n])) + multiset{last};
      assert multiset(ys[..n]) == multiset(ys) - multiset{last};
      assert multiset(Indexed(log[..n])) == multiset(Indexed(log)) - multiset{last};
      SortedIsIndexed(ys[..n], log[..n]);
    }
  }

  datatype PhaseResult = PhaseResult(completed: nat, errors: nat, firstError: Option<string>, samplesMs: seq<Latency>)

  function FirstError(workers: seq<Worker>): Option<string> {
    if workers == [] then None
    else if FirstError(workers[..|workers| - 1]).Some? then FirstError(workers[..|workers| - 1])
    else workers[|workers| - 1].firstError
  }

  /** The join loop of `run_phase`: collect the workers' outcomes in spawn order. */
  method Join(workers: seq<Worker>) returns (stamped: seq<Sample>, errors: nat, firstError: Option<string>)
    ensures stamped == Collected(workers) && errors == Errors(workers) && firstError == FirstError(workers)
  {
    stamped, errors, firstError := [], 0, None;
    for w := 0 to |workers|
      invariant stamped == Collected(workers[..w]) && errors == Errors(workers[..w])
                && firstError == FirstError(workers[..w])
    {
      assert workers[..w + 1][..w] == workers[..w];
      stamped := stamped + workers[w].samples;
      errors := errors + workers[w].errors;
      if firstError.None? {
        firstError := workers[w].firstError;
      }
    }
    assert workers[..|workers|] == workers;
  }

  /** The end of `run_phase`: join, sort on the stamp, publish. With no success there is
      nothing to publish, only the first error. */
  method Publish(s: State) returns (r: Result<PhaseResult, Option<string>>)
    requires Reachable(s) && Joined(s)
    ensures r.Err? <==> s.log == []
    ensures r.Err? ==> r.error == FirstError(s.workers)
    ensures r.Ok? ==> && r.value.samplesMs == s.log && r.value.completed == |s.log|
                      && r.value.completed + r.value.errors == s.total && r.value.firstError == FirstError(s.workers)
  {
    ghost var concurrency: nat :| ReachableWith(concurrency, s);
    EveryIterationOnce(concurrency, s);
    var stamped, errors, firstError := Join(s.workers);
    stamped := SortByStamp(stamped);
    SortedIsIndexed(stamped, s.log);
    var all: seq<Latency> := seq(|stamped|, k requires 0 <= k < |stamped| => stamped[k].1);
    assert all == s.log;
    if |all| == 0 {
      return Err(firstError);
    }
    r := Ok(PhaseResult(|all|, errors, firstError, all));
  }

  // ---------------------------------------------------------------- round robin

  /** The instance an iteration is routed to. */
  function Slot(iteration: nat, clients: nat): nat
    requires 0 < clients
  {
    iteration % clients
  }

  /** How many of the iterations went to instance `j`. */
  function Hits(iterations: seq<nat>, clients: nat, j: nat): nat
    requires 0 < clients
  {
    if iterations == [] then 0
    else
      var init, last := iterations[..|iterations| - 1], iterations[|iterations| - 1];
      Hits(init, clients, j) + if Slot(last, clients) == j then 1 else 0
  }

  lemma NextSlot(i: nat, clients: nat)
    requires 0 < clients
    ensures Slot(i, clients) < clients && Slot(0, clients) == 0
    ensures Slot(i + 1, clients) == if Slot(i, clients) + 1 == clients then 0 else Slot(i, clients) + 1
  {
    var q, r := i / clients, i % clients;
    assert i == q * clients + r;
    if r + 1 == clients {
      assert i + 1 == (q + 1) * clients;
      ModOf(i + 1, q + 1, 0, clients);
    } else {
      ModOf(i + 1, q, r + 1, clients);
    }
  }

  lemma ModOf(x: nat, q: nat, r: nat, m: nat)
    requires 0 < m && r < m && x == q * m + r
    ensures x % m == r
  {
    var q', r' := x / m, x % m;
    assert x == q' * m + r' && 0 <= r' < m;
    if q' < q {
      MulStep(q', q, m);
    } else if q < q' {
      MulStep(q, q', m);
    }
  }

  lemma {:induction false} MulStep(a: nat, b: nat, m: nat)
    requires a < b
    ensures a * m + m <= b * m
  {
    if a + 1 < b {
      MulStep(a, b - 1, m);
    }
    assert b * m == (b - 1) * m + m;
  }

  /** Full rounds completed after `n` iterations, and how far into the next one. */
  function Rounds(n: nat, clients: nat): (r: (nat, nat))
    requires 0 < clients
    ensures r.1 < clients
  {
    if n == 0 then (0, 0)
    else
      var before := Rounds(n - 1, clients);
      if before.1 + 1 == clients then (before.0 + 1, 0) else (before.0, before.1 + 1)
  }

  /** Instances after the starting slot, counting around. */
  function Ahead(from: nat, j: nat, clients: nat): nat
    requires from < clients && j < clients
  {
    if from <= j then j - from else j - from + clients
  }

  /** After `n` consecutive iterations every instance has had the full rounds, and the
      next few from the starting slot one more. */
  lemma {:induction false} HitsByRounds(offset: nat, n: nat, clients: nat, j: nat)
    requires j < clients
    ensures Slot(offset, clients) < clients
    ensures var from, rounds := Slot(offset, clients), Rounds(n, clients);
            && Slot(offset + n, clients) ==
               (if from + rounds.1 < clients then from + rounds.1 else from + rounds.1 - clients)
            && Hits(Range(offset, n), clients, j) == rounds.0 + if Ahead(from, j, clients) < rounds.1 then 1 else 0
  {
    NextSlot(offset, clients);
    if n == 0 {
    } else {
      HitsByRounds(offset, n - 1, clients, j);
      assert Range(offset, n)[..n - 1] == Range(offset, n - 1);
      NextSlot(offset + n - 1, clients);
      assert offset + n - 1 + 1 == offset + n;
    }
  }

  // ---------------------------------------------------------------- hits do not depend on order

  lemma {:induction false} HitsAppend(xs: seq<nat>, ys: seq<nat>, clients: nat, j: nat)
    requires 0 < clients
    ensures Hits(xs + ys, clients, j) == Hits(xs, clients, j) + Hits(ys, clients, j)
  {
    if ys == [] {
      assert xs + ys == xs;
    } else {
      var n := |ys| - 1;
      assert (xs + ys)[..|xs| + n] == xs + ys[..n];
      HitsAppend(xs, ys[..n], clients, j);
    }
  }

  lemma RemoveAt(ys: seq<nat>, k: nat, clients: nat, j: nat)
    requires 0 < clients && k < |ys|
    ensures Hits(ys, clients, j) == Hits(ys[..k] + ys[k + 1..], clients, j) + Hits([ys[k]], clients, j)
    ensures multiset(ys) == multiset(ys[..k] + ys[k + 1..]) + multiset{ys[k]}
  {
    assert ys == ys[..k] + ([ys[k]] + ys[k + 1..]);
    HitsAppend(ys[..k], [ys[k]] + ys[k + 1..], clients, j);
    HitsAppend([ys[k]], ys[k + 1..], clients, j);
    HitsAppend(ys[..k], ys[k + 1..], clients, j);
  }

  lemma {:induction false} HitsPermuted(xs: seq<nat>, ys: seq<nat>, clients: nat, j: nat)
    requires 0 < clients && multiset(xs) == multiset(ys)
    ensures Hits(xs, clients, j) == Hits(ys, clients, j)
  {
    if xs == [] {
      assert |multiset(ys)| == |ys|;
    } else {
      assert xs[0] in multiset(ys);
      var k :| 0 <= k < |ys| && ys[k] == xs[0];
      RemoveAt(xs, 0, clients, j);
      RemoveAt(ys, k, clients, j);
      var xs', ys' := xs[..0] + xs[1..], ys[..k] + ys[k + 1..];
      assert multiset(xs') == multiset(xs) - multiset{xs[0]};
      assert multiset(ys') == multiset(ys) - multiset{xs[0]};
      HitsPermuted(xs', ys', clients, j);
    }
  }

  // ---------------------------------------------------------------- how even the load is

  /** At every moment, what an instance has got and what is still on its way to it add up
      to its share of the claimed iterations. */
  lemma SharesAddUp(s: State, clients: nat, j: nat)
    requires Reachable(s) && 0 < clients
    ensures Hits(s.ran, clients, j) + Hits(Unsent(s.workers, s.offset), clients, j)
         == Hits(Range(s.offset, s.Issued()), clients, j)
  {
    var concurrency: nat :| ReachableWith(concurrency, s);
    ReachableInv(concurrency, s);
    var unsent := Unsent(s.workers, s.offset);
    HitsAppend(s.ran, unsent, clients, j);
    HitsPermuted(s.ran + unsent, Range(s.offset, s.Issued()), clients, j);
  }

  lemma RangeIsEven(offset: nat, n: nat, clients: nat, j1: nat, j2: nat)
    requires j1 < clients && j2 < clients
    ensures Hits(Range(offset, n), clients, j1) <= Hits(Range(offset, n), clients, j2) + 1
  {
    HitsByRounds(offset, n, clients, j1);
    HitsByRounds(offset, n, clients, j2);
  }

  /** At every moment of every run, the instances' request counts differ by at most one
      plus the claimed iterations on their way to the instance that is behind. */
  lemma LoadWhileRunning(s: State, clients: nat, j1: nat, j2: nat)
    requires Reachable(s) && j1 < clients && j2 < clients
    ensures Hits(s.ran, clients, j1) <= Hits(s.ran, clients, j2) + 1 + Hits(Unsent(s.workers, s.offset), clients, j2)
  {
    SharesAddUp(s, clients, j1);
    SharesAddUp(s, clients, j2);
    RangeIsEven(s.offset, s.Issued(), clients, j1, j2);
  }

  ghost predicate Even(s: State, clients: nat)
    requires 0 < clients
  {
    forall j1: nat, j2: nat :: j1 < clients && j2 < clients ==> Hits(s.ran, clients, j1) <= Hits(s.ran, clients, j2) + 1
  }

  /** Once a phase is over, the instances' request counts differ by at most one. */
  lemma LoadIsEven(s: State, clients: nat)
    requires Reachable(s) && Joined(s) && 0 < clients
    ensures Even(s, clients)
  {
    forall j1: nat, j2: nat | j1 < clients && j2 < clients
      ensures Hits(s.ran, clients, j1) <= Hits(s.ran, clients, j2) + 1
    {
      NoneOutstanding(s.workers, s.offset);
      LoadWhileRunning(s, clients, j1, j2);
    }
  }

  /** Even at every moment of every run of this configuration. */
  ghost predicate AlwaysEven(concurrency: nat, total: nat, offset: nat, clients: nat)
    requires 0 < clients
  {
    forall s :: ReachableWith(concurrency, s) && s.total == total && s.offset == offset ==> Even(s, clients)
  }

  lemma {:induction false} RoundsSmall(n: nat, clients: nat)
    requires n < clients
    ensures Rounds(n, clients) == (0, n)
  {
    if n == 0 {
    } else {
      RoundsSmall(n - 1, clients);
    }
  }

  lemma EvenInOrder(concurrency: nat, s: State, clients: nat)
    requires ReachableWith(concurrency, s) && concurrency <= 1 && 0 < clients
    ensures Even(s, clients)
  {
    ReachableInv(concurrency, s);
    var claim := Claim(s.workers[0], s.offset);
    assert s.ran == (s.ran + claim)[..|s.ran|];
    assert s.ran == Range(s.offset, |s.ran|);
    forall j1: nat, j2: nat | j1 < clients && j2 < clients
      ensures Hits(s.ran, clients, j1) <= Hits(s.ran, clients, j2) + 1
    {
      RangeIsEven(s.offset, |s.ran|, clients, j1, j2);
    }
  }

  lemma OneRoundShare(offset: nat, n: nat, clients: nat, j: nat)
    requires n <= clients && j < clients
    ensures Hits(Range(offset, n), clients, j) <= 1
  {
    HitsByRounds(offset, n, clients, j);
    if n < clients {
      RoundsSmall(n, clients);
    } else {
      RoundsSmall(n - 1, clients);
    }
  }

  lemma EvenInOneRound(s: State, clients: nat)
    requires Reachable(s) && s.total <= clients && 0 < clients
    ensures Even(s, clients)
  {
    forall j: nat | j < clients ensures Hits(s.ran, clients, j) <= 1 {
      SharesAddUp(s, clients, j);
      OneRoundShare(s.offset, s.Issued(), clients, j);
    }
  }

  // ---------------------------------------------------------------- a worker that stalls

  lemma Go(concurrency: nat, s: State, a: Action) returns (s': State)
    requires ReachableWith(concurrency, s) && Apply(s, a).Some?
    ensures s' == Apply(s, a).value && ReachableWith(concurrency, s')
  {
    s' := Apply(s, a).value;
    OneWorkerMoves(s, a);
    var schedule :| Run(Start(concurrency, s.total, s.offset), schedule) == Some(s);
    var longer := schedule + [a];
    assert longer[..|longer| - 1] == schedule;
    assert Run(Start(concurrency, s'.total, s'.offset), longer) == Some(s');
  }

  /** Worker 0 runs one iteration from claim to (failed) answer. */
  lemma OneRequest(concurrency: nat, s: State) returns (s': State)
    requires ReachableWith(concurrency, s) && s.workers != [] && s.workers[0].phase.Looping? && s.counter < s.total
    ensures ReachableWith(concurrency, s') && s'.total == s.total && s'.offset == s.offset
            && s'.counter == s.counter + 1
    ensures |s'.workers| == |s.workers| && s'.workers[0].phase.Looping? && s'.workers[1..] == s.workers[1..]
  {
    var s1 := Go(concurrency, s, Fetch(0));
    var s2 := Go(concurrency, s1, Send(0));
    s' := Go(concurrency, s2, Respond(0, Err("")));
  }

  /** Worker 1 sits on iteration 1, everyone else is between iterations. */
  ghost predicate Stalled(s: State) {
    && |s.workers| >= 2 && s.workers[1].phase == Claimed(1)
    && forall w :: 0 <= w < |s.workers| && w != 1 ==> s.workers[w].phase.Looping?
  }

  lemma {:induction false} OneUnsent(workers: seq<Worker>, offset: nat)
    requires |workers| >= 2 && workers[1].phase == Claimed(1)
    requires forall w :: 0 <= w < |workers| && w != 1 ==> workers[w].phase.Looping?
    ensures Unsent(workers, offset) == [offset + 1]
  {
    var n := |workers| - 1;
    if n == 1 {
      assert Unsent(workers[..1], offset) == Unsent([], offset) + [];
    } else {
      OneUnsent(workers[..n], offset);
    }
  }

  lemma ReachStalled(concurrency: nat, total: nat, offset: nat) returns (s: State)
    requires 2 <= concurrency && 2 <= total
    ensures ReachableWith(concurrency, s) && s.total == total && s.offset == offset && s.counter == 2 && Stalled(s)
  {
    var s0 := Start(concurrency, total, offset);
    assert Run(s0, []) == Some(s0);
    var s1 := OneRequest(concurrency, s0);
    assert forall w :: 1 <= w < |s1.workers| ==> s1.workers[w] == s1.workers[1..][w - 1] == IDLE;
    s := Go(concurrency, s1, Fetch(1));
  }

  lemma {:induction false} KeepGoing(concurrency: nat, s: State, n: nat) returns (s': State)
    requires ReachableWith(concurrency, s) && Stalled(s) && s.counter <= n <= s.total
    ensures ReachableWith(concurrency, s') && s'.total == s.total && s'.offset == s.offset && s'.counter == n
            && Stalled(s')
    decreases n - s.counter
  {
    if s.counter == n {
      s' := s;
    } else {
      var s1 := OneRequest(concurrency, s);
      assert forall w :: 1 <= w < |s1.workers| ==> s1.workers[w] == s1.workers[1..][w - 1] == s.workers[w];
      s' := KeepGoing(concurrency, s1, n);
    }
  }

  /** One more iteration than instances gives the starting instance a second one. */
  lemma RoundAndOne(offset: nat, clients: nat)
    requires 2 <= clients
    ensures Slot(offset, clients) < clients && Slot(offset + 1, clients) < clients
    ensures Slot(offset, clients) != Slot(offset + 1, clients)
    ensures Hits(Range(offset, clients + 1), clients, Slot(offset, clients)) == 2
    ensures Hits(Range(offset, clients + 1), clients, Slot(offset + 1, clients)) == 1
  {
    NextSlot(offset, clients);
    NextSlot(offset + 1, clients);
    RoundsSmall(clients - 1, clients);
    assert Rounds(clients, clients) == (1, 0);
    assert Rounds(clients + 1, clients) == (1, 1);
    HitsByRounds(offset, clients + 1, clients, Slot(offset, clients));
    HitsByRounds(offset, clients + 1, clients, Slot(offset + 1, clients));
  }

  /** With the round complete, the first instance has two requests and the second none. */
  lemma StalledIsUneven(s: State, clients: nat)
    requires Reachable(s) && Stalled(s) && 2 <= clients && s.counter == clients + 1 <= s.total
    ensures !Even(s, clients)
  {
    var j1, j2 := Slot(s.offset, clients), Slot(s.offset + 1, clients);
    RoundAndOne(s.offset, clients);
    OneUnsent(s.workers, s.offset);
    OneHit(s.offset + 1, clients, j1);
    OneHit(s.offset + 1, clients, j2);
    SharesAddUp(s, clients, j1);
    SharesAddUp(s, clients, j2);
    assert Hits(s.ran, clients, j1) == 2 && Hits(s.ran, clients, j2) == 0;
  }

  lemma OneHit(i: nat, clients: nat, j: nat)
    requires 0 < clients
    ensures Hits([i], clients, j) == if Slot(i, clients) == j then 1 else 0
  {
    assert [i][..0] == [];
  }

  /** The counts differ by at most one at every moment of every run exactly when one worker
      drives the phase, there is one instance, or no instance gets a second request. */
  lemma AlwaysEvenIff(concurrency: nat, total: nat, offset: nat, clients: nat)
    requires 0 < clients
    ensures AlwaysEven(concurrency, total, offset, clients) <==> concurrency <= 1 || clients == 1 || total <= clients
  {
    if concurrency <= 1 || clients == 1 || total <= clients {
      forall s | ReachableWith(concurrency, s) && s.total == total && s.offset == offset ensures Even(s, clients) {
        if concurrency <= 1 {
          EvenInOrder(concurrency, s, clients);
        } else if total <= clients {
          EvenInOneRound(s, clients);
        }
      }
    } else {
      var s1 := ReachStalled(concurrency, total, offset);
      var s := KeepGoing(concurrency, s1, clients + 1);
      StalledIsUneven(s, clients);
    }
  }
}
