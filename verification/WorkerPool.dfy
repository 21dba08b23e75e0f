/** The scenario worker pool of the conformance tester (`cmd/conformance-tests/runner.go`): k
    workers take scenarios from one buffered channel and put results into another, both with
    room for all scenarios, while `Run` collects.
 */
module WorkerPool {
  import opened Options
  import opened Reports

  type Scenario = string

  datatype TestResult = TestResult(scenario: Scenario, err: Option<string>, report: Option<Suite>)

  method Passed(t: TestResult) returns (ok: bool)
    ensures ok <==> IsPass(t)
  {
    if t.err.Some? {
      return false;
    }
    if t.report.None? {
      return false;
    }
    if |t.report.value.cases| == 0 {
      return false;
    }
    if t.report.value.errors > 0 || t.report.value.failures > 0 {
      return false;
    }
    ok := true;
  }

  /** No error, and a report with test cases, none of which went wrong. */
  predicate IsPass(t: TestResult) {
    t.err == None && t.report.Some? && |t.report.value.cases| > 0 && t.report.value.errors <= 0 && t.report.value.failures <= 0
  }

  /** For a report whose counters are what they count, passing means that there were test cases
      and that none of them failed.
   */
  lemma PassMeans(t: TestResult)
    requires t.report.Some? ==> Consistent(t.report.value)
    ensures IsPass(t) <==>
              && t.err.None? && t.report.Some? && t.report.value.errors <= 0 && t.report.value.cases != []
              && forall i :: 0 <= i < |t.report.value.cases| ==> t.report.value.cases[i].failure.None?
  {
    if t.report.Some? {
      NoneFailing(t.report.value.cases);
    }
  }

  lemma {:induction false} NoneFailing(cases: seq<TestCase>)
    ensures Failing(cases) == 0 <==> forall i :: 0 <= i < |cases| ==> cases[i].failure.None?
  {
    if cases != [] {
      NoneFailing(cases[1..]);
      assert forall i :: 1 <= i < |cases| ==> cases[i] == cases[1..][i - 1];
    }
  }

  datatype Worker = Idle | Busy(scenario: Scenario) | Sending(result: TestResult) | Done

  /** `queue` and `results` are the two channels, each with capacity `capacity`. */
  datatype Pool = Pool(
    capacity: nat, queue: seq<Scenario>, closed: bool, workers: seq<Worker>,
    results: seq<TestResult>, collected: seq<TestResult>)

  datatype Event =
    | Close
    | Take(w: nat)
    | Finish(w: nat, result: TestResult)
    | Send(w: nat)
    | Exit(w: nat)
    | Collect

  function Put(p: Pool, w: nat, worker: Worker): Pool
    requires w < |p.workers|
  {
    p.(workers := p.workers[w := worker])
  }

  predicate Next(p: Pool, e: Event, p': Pool) {
    match e
    case Close => !p.closed && p' == p.(closed := true)
    case Take(w) =>
      && w < |p.workers| && p.workers[w].Idle? && p.queue != []
      && p' == Put(p, w, Busy(p.queue[0])).(queue := p.queue[1..])
    case Finish(w, result) =>
      w < |p.workers| && p.workers[w].Busy? && result.scenario == p.workers[w].scenario && p' == Put(p, w, Sending(result))
    case Send(w) =>
      && w < |p.workers| && p.workers[w].Sending? && |p.results| < p.capacity
      && p' == Put(p, w, Idle).(results := p.results + [p.workers[w].result])
    case Exit(w) =>
      w < |p.workers| && p.workers[w].Idle? && p.closed && p.queue == [] && p' == Put(p, w, Done)
    case Collect =>
      && p.closed && p.results != [] && |p.collected| < p.capacity
      && p' == p.(results := p.results[1..], collected := p.collected + [p.results[0]])
  }

  // ----- every scenario is somewhere, exactly once

  predicate Holds(worker: Worker, s: Scenario) {
    (worker.Busy? && worker.scenario == s) || (worker.Sending? && worker.result.scenario == s)
  }

  /** How many workers are on a scenario. */
  function InHand(workers: seq<Worker>, s: Scenario): nat {
    if workers == [] then 0 else (if Holds(workers[0], s) then 1 else 0) + InHand(workers[1..], s)
  }

  /** How many workers are on some scenario. */
  function Engaged(workers: seq<Worker>): nat {
    if workers == [] then 0 else (if workers[0].Busy? || workers[0].Sending? then 1 else 0) + Engaged(workers[1..])
  }

  /** How many results there are for a scenario. */
  function ResultsFor(results: seq<TestResult>, s: Scenario): nat {
    if results == [] then 0 else (if results[0].scenario == s then 1 else 0) + ResultsFor(results[1..], s)
  }

  /** How often a scenario is around. */
  function Around(p: Pool, s: Scenario): nat {
    multiset(p.queue)[s] + InHand(p.workers, s) + ResultsFor(p.results, s) + ResultsFor(p.collected, s)
  }

  ghost predicate Inv(scenarios: seq<Scenario>, p: Pool) {
    && p.capacity == |scenarios|
    && (forall s :: Around(p, s) == multiset(scenarios)[s])
    && |p.queue| + Engaged(p.workers) + |p.results| + |p.collected| == p.capacity
    && forall w :: 0 <= w < |p.workers| && p.workers[w].Done? ==> p.closed && p.queue == []
  }

  function Start(scenarios: seq<Scenario>, k: nat): Pool {
    Pool(|scenarios|, scenarios, false, seq(k, _ => Idle), [], [])
  }

  lemma {:induction false} IdleHoldNothing(k: nat, s: Scenario)
    ensures InHand(seq(k, _ => Idle), s) == 0 && Engaged(seq(k, _ => Idle)) == 0
  {
    if k > 0 {
      IdleHoldNothing(k - 1, s);
      assert seq(k, _ => Idle)[1..] == seq(k - 1, _ => Idle);
    }
  }

  function Bit(b: bool): nat {
    if b then 1 else 0
  }

  lemma {:induction false} InHandAt(workers: seq<Worker>, w: nat, worker: Worker, s: Scenario)
    requires w < |workers|
    ensures InHand(workers[w := worker], s) + Bit(Holds(workers[w], s)) == InHand(workers, s) + Bit(Holds(worker, s))
  {
    if w == 0 {
      assert workers[0 := worker][1..] == workers[1..];
    } else {
      assert workers[w := worker][1..] == workers[1..][w - 1 := worker];
      InHandAt(workers[1..], w - 1, worker, s);
    }
  }

  lemma {:induction false} EngagedAt(workers: seq<Worker>, w: nat, worker: Worker)
    requires w < |workers|
    ensures Engaged(workers[w := worker]) + Bit(workers[w].Busy? || workers[w].Sending?)
         == Engaged(workers) + Bit(worker.Busy? || worker.Sending?)
  {
    if w == 0 {
      assert workers[0 := worker][1..] == workers[1..];
    } else {
      assert workers[w := worker][1..] == workers[1..][w - 1 := worker];
      EngagedAt(workers[1..], w - 1, worker);
    }
  }

  lemma {:induction false} ResultsForAppend(results: seq<TestResult>, r: TestResult, s: Scenario)
    ensures ResultsFor(results + [r], s) == ResultsFor(results, s) + Bit(r.scenario == s)
  {
    if results != [] {
      assert (results + [r])[1..] == results[1..] + [r];
      ResultsForAppend(results[1..], r, s);
    }
  }

  lemma QueueHead(queue: seq<Scenario>, s: Scenario)
    requires queue != []
    ensures multiset(queue)[s] == multiset(queue[1..])[s] + Bit(queue[0] == s)
  {
    assert queue == [queue[0]] + queue[1..];
  }

  lemma StartIsOk(scenarios: seq<Scenario>, k: nat)
    ensures Inv(scenarios, Start(scenarios, k))
  {
    forall s ensures Around(Start(scenarios, k), s) == multiset(scenarios)[s] {
      IdleHoldNothing(k, s);
    }
    IdleHoldNothing(k, "");
  }

  /** A step moves a scenario from one place to the next, and loses and doubles none. */
  lemma StepMoves(p: Pool, e: Event, p': Pool, s: Scenario)
    requires Next(p, e, p')
    ensures Around(p', s) == Around(p, s)
  {
    if e.Take? || e.Finish? || e.Send? || e.Exit? {
      InHandAt(p.workers, e.w, p'.workers[e.w], s);
    }
    if e.Take? {
      QueueHead(p.queue, s);
    } else if e.Send? {
      ResultsForAppend(p.results, p.workers[e.w].result, s);
    } else if e.Collect? {
      ResultsForAppend(p.collected, p.results[0], s);
    }
  }

  lemma TotalIsKept(p: Pool, e: Event, p': Pool)
    requires Next(p, e, p')
    ensures |p'.queue| + Engaged(p'.workers) + |p'.results| + |p'.collected|
         == |p.queue| + Engaged(p.workers) + |p.results| + |p.collected|
  {
    if e.Take? || e.Finish? || e.Send? || e.Exit? {
      EngagedAt(p.workers, e.w, p'.workers[e.w]);
    }
  }

  lemma InvKept(scenarios: seq<Scenario>, p: Pool, e: Event, p': Pool)
    requires Inv(scenarios, p) && Next(p, e, p')
    ensures Inv(scenarios, p')
  {
    forall s ensures Around(p', s) == multiset(scenarios)[s] {
      StepMoves(p, e, p', s);
    }
    TotalIsKept(p, e, p');
  }

  // ----- nothing blocks

  lemma {:induction false} EngagedCounts(workers: seq<Worker>, w: nat)
    requires w < |workers| && (workers[w].Busy? || workers[w].Sending?)
    ensures Engaged(workers) > 0
  {
    if w > 0 {
      EngagedCounts(workers[1..], w - 1);
    }
  }

  /** A worker with a result always finds room in the results channel. */
  lemma SendNeverBlocks(scenarios: seq<Scenario>, p: Pool, w: nat)
    requires Inv(scenarios, p) && w < |p.workers| && p.workers[w].Sending?
    ensures |p.results| < p.capacity
    ensures exists p' :: Next(p, Send(w), p')
  {
    EngagedCounts(p.workers, w);
    assert Next(p, Send(w), Put(p, w, Idle).(results := p.results + [p.workers[w].result]));
  }

  ghost predicate CanMove(p: Pool) {
    exists e, p' :: Next(p, e, p')
  }

  lemma {:induction false} SomebodyIsEngaged(workers: seq<Worker>) returns (w: nat)
    requires Engaged(workers) > 0
    ensures w < |workers| && (workers[w].Busy? || workers[w].Sending?)
  {
    if workers[0].Busy? || workers[0].Sending? {
      w := 0;
    } else {
      w := SomebodyIsEngaged(workers[1..]);
      w := w + 1;
    }
  }

  /** As long as results are missing and there is a worker, something can happen. */
  lemma NoDeadlock(scenarios: seq<Scenario>, p: Pool)
    requires Inv(scenarios, p) && |p.workers| >= 1 && |p.collected| < p.capacity
    ensures CanMove(p)
  {
    if !p.closed {
      assert Next(p, Close, p.(closed := true));
    } else if p.results != [] {
      assert Next(p, Collect, p.(results := p.results[1..], collected := p.collected + [p.results[0]]));
    } else if Engaged(p.workers) > 0 {
      var w := SomebodyIsEngaged(p.workers);
      if p.workers[w].Busy? {
        var r := TestResult(p.workers[w].scenario, None, None);
        assert Next(p, Finish(w, r), Put(p, w, Sending(r)));
      } else {
        SendNeverBlocks(scenarios, p, w);
      }
    } else {
      assert p.queue != [] && p.workers[0].Idle?;
      assert Next(p, Take(0), Put(p, 0, Busy(p.queue[0])).(queue := p.queue[1..]));
    }
  }

  // ----- and everything comes to an end

  function Work(worker: Worker): nat {
    match worker
    case Idle => 1
    case Busy(_) => 4
    case Sending(_) => 3
    case Done => 0
  }

  function WorkLeft(workers: seq<Worker>): nat {
    if workers == [] then 0 else Work(workers[0]) + WorkLeft(workers[1..])
  }

  function StepsLeft(p: Pool): nat {
    4 * |p.queue| + WorkLeft(p.workers) + |p.results| + (if p.closed then 0 else 1)
  }

  lemma {:induction false} WorkLeftAt(workers: seq<Worker>, w: nat, worker: Worker)
    requires w < |workers|
    ensures WorkLeft(workers[w := worker]) + Work(workers[w]) == WorkLeft(workers) + Work(worker)
  {
    if w == 0 {
      assert workers[0 := worker][1..] == workers[1..];
    } else {
      assert workers[w := worker][1..] == workers[1..][w - 1 := worker];
      WorkLeftAt(workers[1..], w - 1, worker);
    }
  }

  /** Every step brings the end nearer. */
  lemma StepsGetFewer(p: Pool, e: Event, p': Pool)
    requires Next(p, e, p')
    ensures StepsLeft(p') < StepsLeft(p) && |p'.workers| == |p.workers|
  {
    if e.Take? || e.Finish? || e.Send? || e.Exit? {
      WorkLeftAt(p.workers, e.w, p'.workers[e.w]);
    }
  }

  // ----- Run

  /** The final loop of `Run`. */
  method HadFailure(results: seq<TestResult>) returns (failed: bool)
    ensures failed <==> exists i :: 0 <= i < |results| && !IsPass(results[i])
  {
    failed := false;
    for i := 0 to |results|
      invariant failed <==> exists j :: 0 <= j < i && !IsPass(results[j])
    {
      var ok := Passed(results[i]);
      if !ok {
        failed := true;
      }
    }
  }

  datatype RunResult = Finished(failed: bool, results: seq<TestResult>) | WaitsForever

  /** `Run` under an arbitrary scheduler. Without a worker, and with something to do, it waits
      forever; otherwise it ends, with exactly one result per scenario, and reports an error
      exactly when some result did not pass.
   */
  method Run(scenarios: seq<Scenario>, k: nat) returns (r: RunResult)
    ensures r.WaitsForever? <==> k == 0 && scenarios != []
    ensures r.Finished? ==>
              && |r.results| == |scenarios| && (forall s :: ResultsFor(r.results, s) == multiset(scenarios)[s])
              && (r.failed <==> exists i :: 0 <= i < |r.results| && !IsPass(r.results[i]))
  {
    var p := Start(scenarios, k);
    StartIsOk(scenarios, k);
    while |p.collected| < |scenarios|
      invariant Inv(scenarios, p) && |p.workers| == k
      invariant k == 0 ==> p.results == [] && p.collected == []
      decreases StepsLeft(p)
    {
      if p.closed && p.workers == [] {
        assert !CanMove(p);
        return WaitsForever;
      }
      if p.closed {
        NoDeadlock(scenarios, p);
      } else {
        assert Next(p, Close, p.(closed := true));
      }
      var e, p' :| Next(p, e, p');
      InvKept(scenarios, p, e, p');
      StepsGetFewer(p, e, p');
      p := p';
    }
    AllCollected(scenarios, p);
    var failed := HadFailure(p.collected);
    r := Finished(failed, p.collected);
  }

  lemma AllCollected(scenarios: seq<Scenario>, p: Pool)
    requires Inv(scenarios, p) && |p.collected| >= |scenarios|
    ensures |p.collected| == |scenarios| && forall s :: ResultsFor(p.collected, s) == multiset(scenarios)[s]
  {
    forall s ensures ResultsFor(p.collected, s) == multiset(scenarios)[s] {
      assert Around(p, s) == multiset(scenarios)[s];
      NobodyOn(p.workers, s);
    }
  }

  lemma {:induction false} NobodyOn(workers: seq<Worker>, s: Scenario)
    requires Engaged(workers) == 0
    ensures InHand(workers, s) == 0
  {
    if workers != [] {
      NobodyOn(workers[1..], s);
    }
  }

  ghost predicate Behaviour(scenarios: seq<Scenario>, k: nat, states: seq<Pool>, events: seq<Event>) {
    && |states| == |events| + 1
    && states[0] == Start(scenarios, k)
    && forall i :: 0 <= i < |events| ==> Next(states[i], events[i], states[i + 1])
  }

  /** The invariant holds in every interleaving, and no interleaving is longer than the work. */
  lemma {:induction false} InvAlways(scenarios: seq<Scenario>, k: nat, states: seq<Pool>, events: seq<Event>, i: nat)
    requires Behaviour(scenarios, k, states, events) && i < |states|
    ensures Inv(scenarios, states[i]) && |states[i].workers| == k
    ensures i + StepsLeft(states[i]) <= StepsLeft(Start(scenarios, k))
  {
    if i == 0 {
      StartIsOk(scenarios, k);
    } else {
      InvAlways(scenarios, k, states, events, i - 1);
      InvKept(scenarios, states[i - 1], events[i - 1], states[i]);
      StepsGetFewer(states[i - 1], events[i - 1], states[i]);
    }
  }

  /** An interleaving that cannot go on has collected all results, exactly when there is a worker
      or nothing to do.
   */
  lemma StuckMeansFinished(scenarios: seq<Scenario>, k: nat, states: seq<Pool>, events: seq<Event>)
    requires Behaviour(scenarios, k, states, events) && !CanMove(states[|events|])
    ensures |states[|events|].collected| == |scenarios| <==> k >= 1 || scenarios == []
    ensures |states[|events|].collected| == |scenarios| ==>
              forall s :: ResultsFor(states[|events|].collected, s) == multiset(scenarios)[s]
  {
    var p := states[|events|];
    InvAlways(scenarios, k, states, events, |events|);
    if k >= 1 && |p.collected| < p.capacity {
      NoDeadlock(scenarios, p);
    }
    if k == 0 {
      NothingHappensWithoutWorkers(scenarios, states, events, |events|);
    }
    if |p.collected| == |scenarios| {
      AllCollected(scenarios, p);
    }
  }

  lemma {:induction false} NothingHappensWithoutWorkers(scenarios: seq<Scenario>, states: seq<Pool>, events: seq<Event>, i: nat)
    requires Behaviour(scenarios, 0, states, events) && i < |states|
    ensures states[i].collected == [] && states[i].results == [] && states[i].workers == []
  {
    if i > 0 {
      NothingHappensWithoutWorkers(scenarios, states, events, i - 1);
    }
  }
}
