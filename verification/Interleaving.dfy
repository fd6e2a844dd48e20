// The batches of a partition run their members in parallel, one batch after another
// (executeApprovedToolCalls and executeToolBatch, internal/agent/executor.go). Every interleaving
// of such a run is equivalent to running the approved list one call at a time, in order.
//
// A call is a process over a store of named locations. Hypotheses on the tools: a call touches
// only what its scope declares, and a call declared concurrency-safe writes nothing. The code of
// the file and network tools is not part of this model; the tools of plan mode and
// runtime_command are, and do not meet the hypotheses (see Responses).
module Interleaving {
  import opened Wrappers
  import opened ToolScopes
  import opened Batching
  import opened GreedyCuts

  type Location = seq<string>

  type Store = map<Location, string>

  // Writing no content removes the location.
  datatype Action =
    | Finish(output: string)
    | Read(location: Location)
    | Write(location: Location, content: Option<string>)

  // What a call has observed so far decides what it does next: any deterministic process.
  type History = seq<Option<string>>

  type Process = History -> Action

  datatype Config = Config(store: Store, histories: seq<History>)

  function Lookup(store: Store, location: Location): Option<string> {
    if location in store then Some(store[location]) else None
  }

  function Update(store: Store, location: Location, content: Option<string>): Store {
    match content
    case Some(text) => store[location := text]
    case None => store - {location}
  }

  function Observe(c: Config, i: nat, seen: Option<string>): Config
    requires i < |c.histories|
  {
    c.(histories := c.histories[i := c.histories[i] + [seen]])
  }

  // One step of call i; a finished call no longer moves.
  function Step(procs: seq<Process>, c: Config, i: nat): (d: Config)
    requires i < |procs| == |c.histories|
    ensures |d.histories| == |procs|
  {
    match procs[i](c.histories[i])
    case Finish(_) => c
    case Read(location) => Observe(c, i, Lookup(c.store, location))
    case Write(location, content) => Observe(c.(store := Update(c.store, location, content)), i, None)
  }

  predicate Within(schedule: seq<nat>, lo: nat, hi: nat) {
    forall k :: 0 <= k < |schedule| ==> lo <= schedule[k] < hi
  }

  function Exec(procs: seq<Process>, c: Config, schedule: seq<nat>): (d: Config)
    requires |procs| == |c.histories| && Within(schedule, 0, |procs|)
    ensures |d.histories| == |procs|
    decreases |schedule|
  {
    if schedule == [] then c else Exec(procs, Step(procs, c, schedule[0]), schedule[1..])
  }

  predicate Finished(procs: seq<Process>, c: Config, i: nat)
    requires i < |procs| == |c.histories|
  {
    procs[i](c.histories[i]).Finish?
  }

  predicate AllFinished(procs: seq<Process>, c: Config)
    requires |procs| == |c.histories|
  {
    forall i :: 0 <= i < |procs| ==> Finished(procs, c, i)
  }

  // The hypothesis on tools: whatever the call has observed, its next action stays in its scope.
  ghost predicate Confined(p: Process, call: ScheduledCall) {
    forall h: History ::
      match p(h)
      case Finish(_) => true
      case Read(location) => MayTouch(call.scope, location)
      case Write(location, _) => !call.safe && MayWrite(call.scope, location)
  }

  // ---- Independent calls commute -----------------------------------------------------------

  predicate Conflict(a: Action, b: Action) {
    && !a.Finish? && !b.Finish? && a.location == b.location
    && (a.Write? || b.Write?)
  }

  ghost predicate Independent(p: Process, q: Process) {
    forall h: History, k: History :: !Conflict(p(h), q(k))
  }

  lemma CompatibleCallsAreIndependent(p: Process, a: ScheduledCall, q: Process, b: ScheduledCall)
    requires Confined(p, a) && Confined(q, b) && CanRunTogether(a, b)
    ensures Independent(p, q)
  {
    forall h: History, k: History ensures !Conflict(p(h), q(k)) {
      if !(a.safe && b.safe) && !p(h).Finish? {
        DisjointScopesSeparate(a.scope, b.scope, p(h).location);
      }
    }
  }

  lemma UpdatesCommute(store: Store, l: Location, x: Option<string>, m: Location, y: Option<string>)
    requires l != m
    ensures Update(Update(store, l, x), m, y) == Update(Update(store, m, y), l, x)
    ensures Lookup(Update(store, l, x), m) == Lookup(store, m)
  {
  }

  lemma StepsCommute(procs: seq<Process>, c: Config, i: nat, j: nat)
    requires i < |procs| == |c.histories| && j < |procs| && i != j
    requires Independent(procs[i], procs[j])
    ensures Step(procs, Step(procs, c, i), j) == Step(procs, Step(procs, c, j), i)
  {
    var a, b := procs[i](c.histories[i]), procs[j](c.histories[j]);
    assert !Conflict(a, b);
    var ij, ji := Step(procs, Step(procs, c, i), j), Step(procs, Step(procs, c, j), i);
    if !a.Finish? && !b.Finish? {
      if a.location != b.location {
        UpdatesCommute(c.store, a.location, if a.Write? then a.content else None,
                       b.location, if b.Write? then b.content else None);
        UpdatesCommute(c.store, b.location, if b.Write? then b.content else None,
                       a.location, if a.Write? then a.content else None);
      }
      assert ij.histories == ji.histories;
    }
  }

  // ---- Rearranging a schedule --------------------------------------------------------------

  function Repeat(i: nat, n: nat): (s: seq<nat>)
    ensures |s| == n && forall k :: 0 <= k < n ==> s[k] == i
  {
    if n == 0 then [] else [i] + Repeat(i, n - 1)
  }

  function Turns(schedule: seq<nat>, i: nat): nat {
    if schedule == [] then 0
    else (if schedule[0] == i then 1 else 0) + Turns(schedule[1..], i)
  }

  // How many steps a schedule gives each call.
  function TurnsOf(schedule: seq<nat>): nat -> nat {
    i => Turns(schedule, i)
  }

  function Without(schedule: seq<nat>, i: nat): (s: seq<nat>)
    ensures forall k :: 0 <= k < |s| ==> s[k] in schedule && s[k] != i
  {
    if schedule == [] then []
    else (if schedule[0] == i then [] else [schedule[0]]) + Without(schedule[1..], i)
  }

  lemma {:induction false} ExecConcat(procs: seq<Process>, c: Config, a: seq<nat>, b: seq<nat>)
    requires |procs| == |c.histories| && Within(a, 0, |procs|) && Within(b, 0, |procs|)
    ensures Within(a + b, 0, |procs|)
    ensures Exec(procs, c, a + b) == Exec(procs, Exec(procs, c, a), b)
    decreases |a|
  {
    if a == [] {
      assert a + b == b;
    } else {
      ExecConcat(procs, Step(procs, c, a[0]), a[1..], b);
      assert (a + b)[1..] == a[1..] + b;
    }
  }

  lemma {:induction false} StepPassesRun(procs: seq<Process>, c: Config, x: nat, i: nat, n: nat)
    requires i < |procs| == |c.histories| && x < |procs| && x != i
    requires Independent(procs[x], procs[i])
    ensures Exec(procs, Step(procs, c, x), Repeat(i, n)) == Step(procs, Exec(procs, c, Repeat(i, n)), x)
    decreases n
  {
    if n > 0 {
      StepsCommute(procs, c, x, i);
      StepPassesRun(procs, Step(procs, c, i), x, i, n - 1);
      assert Repeat(i, n)[1..] == Repeat(i, n - 1);
    }
  }

  // All of call i's steps can be moved to the front.
  lemma {:induction false} PullToFront(procs: seq<Process>, c: Config, schedule: seq<nat>, i: nat)
    requires i < |procs| == |c.histories| && Within(schedule, 0, |procs|)
    requires forall x :: x in schedule && x != i ==> Independent(procs[x], procs[i])
    ensures Exec(procs, c, schedule)
         == Exec(procs, Exec(procs, c, Repeat(i, Turns(schedule, i))), Without(schedule, i))
    decreases |schedule|
  {
    if schedule != [] {
      var x, rest := schedule[0], schedule[1..];
      var n := Turns(rest, i);
      PullToFront(procs, Step(procs, c, x), rest, i);
      if x == i {
        assert Repeat(i, n + 1)[1..] == Repeat(i, n) && [] + Without(rest, i) == Without(rest, i);
      } else {
        StepPassesRun(procs, c, x, i, n);
        assert ([x] + Without(rest, i))[1..] == Without(rest, i);
      }
    }
  }

  // ---- Running one call at a time ----------------------------------------------------------

  // From call i on, each call in turn runs alone, for the given number of steps.
  function OneByOne(procs: seq<Process>, c: Config, i: nat, fuel: nat -> nat): (d: Config)
    requires i <= |procs| == |c.histories|
    ensures |d.histories| == |procs|
    decreases |procs| - i
  {
    if i == |procs| then c
    else OneByOne(procs, Exec(procs, c, Repeat(i, fuel(i))), i + 1, fuel)
  }

  // ... and each of them has finished when the next one starts.
  predicate IsSequentialRun(procs: seq<Process>, c: Config, i: nat, fuel: nat -> nat)
    requires i <= |procs| == |c.histories|
    decreases |procs| - i
  {
    i < |procs| ==>
      var d := Exec(procs, c, Repeat(i, fuel(i)));
      Finished(procs, d, i) && IsSequentialRun(procs, d, i + 1, fuel)
  }

  function Upto(procs: seq<Process>, c: Config, i: nat, hi: nat, fuel: nat -> nat): (d: Config)
    requires i <= hi <= |procs| == |c.histories|
    ensures |d.histories| == |procs|
    decreases hi - i
  {
    if i == hi then c else Upto(procs, Exec(procs, c, Repeat(i, fuel(i))), i + 1, hi, fuel)
  }

  lemma {:induction false} TurnsWithout(schedule: seq<nat>, i: nat, j: nat)
    requires i != j
    ensures Turns(Without(schedule, i), j) == Turns(schedule, j)
  {
    if schedule != [] {
      TurnsWithout(schedule[1..], i, j);
      var rest := Without(schedule[1..], i);
      assert ([schedule[0]] + rest)[1..] == rest && [] + rest == rest;
    }
  }

  lemma {:induction false} UptoAgrees(procs: seq<Process>, c: Config, i: nat, hi: nat, f: nat -> nat, g: nat -> nat)
    requires i <= hi <= |procs| == |c.histories|
    requires forall k :: i <= k < hi ==> f(k) == g(k)
    ensures Upto(procs, c, i, hi, f) == Upto(procs, c, i, hi, g)
    decreases hi - i
  {
    if i < hi {
      UptoAgrees(procs, Exec(procs, c, Repeat(i, f(i))), i + 1, hi, f, g);
    }
  }

  lemma WithoutWithin(schedule: seq<nat>, lo: nat, hi: nat)
    requires Within(schedule, lo, hi)
    ensures Within(Without(schedule, lo), lo + 1, hi)
  {
  }

  lemma NonemptyRange(schedule: seq<nat>, lo: nat, hi: nat)
    requires Within(schedule, lo, hi)
    ensures schedule != [] ==> lo < hi
  {
    if schedule != [] {
      assert lo <= schedule[0] < hi;
    }
  }

  // Any interleaving of pairwise independent calls lo..hi equals running them one by one.
  lemma {:induction false} BatchIsSerializable(procs: seq<Process>, c: Config, schedule: seq<nat>, lo: nat, hi: nat)
    requires lo <= hi <= |procs| == |c.histories| && Within(schedule, lo, hi)
    requires forall i, j :: lo <= i < j < hi ==> Independent(procs[j], procs[i])
    ensures Exec(procs, c, schedule) == Upto(procs, c, lo, hi, TurnsOf(schedule))
    decreases hi - lo
  {
    if lo == hi {
      NonemptyRange(schedule, lo, hi);
    } else {
      PullToFront(procs, c, schedule, lo);
      var rest := Without(schedule, lo);
      var d := Exec(procs, c, Repeat(lo, Turns(schedule, lo)));
      WithoutWithin(schedule, lo, hi);
      BatchIsSerializable(procs, d, rest, lo + 1, hi);
      forall k | lo + 1 <= k < hi ensures Turns(rest, k) == Turns(schedule, k) {
        TurnsWithout(schedule, lo, k);
      }
      UptoAgrees(procs, d, lo + 1, hi, TurnsOf(rest), TurnsOf(schedule));
    }
  }

  // ---- Whole runs --------------------------------------------------------------------------

  // One schedule per batch, each stepping only the members of its batch: a batch starts after
  // the wait for the previous one.
  predicate IsRun(batches: seq<seq<ScheduledCall>>, schedules: seq<seq<nat>>, lo: nat) {
    |schedules| == |batches| &&
    (batches != [] ==>
       && Within(schedules[0], lo, lo + |batches[0]|)
       && IsRun(batches[1..], schedules[1..], lo + |batches[0]|))
  }

  lemma {:induction false} RunWithin(batches: seq<seq<ScheduledCall>>, schedules: seq<seq<nat>>, lo: nat)
    requires IsRun(batches, schedules, lo)
    ensures Within(Flatten(schedules), lo, lo + |Flatten(batches)|)
  {
    if batches != [] {
      RunWithin(batches[1..], schedules[1..], lo + |batches[0]|);
    }
  }

  lemma {:induction false} TurnsConcat(a: seq<nat>, b: seq<nat>, i: nat)
    ensures Turns(a + b, i) == Turns(a, i) + Turns(b, i)
  {
    if a == [] {
      assert a + b == b;
    } else {
      assert (a + b)[1..] == a[1..] + b;
      TurnsConcat(a[1..], b, i);
    }
  }

  lemma {:induction false} NoTurns(schedule: seq<nat>, lo: nat, hi: nat, i: nat)
    requires Within(schedule, lo, hi) && !(lo <= i < hi)
    ensures Turns(schedule, i) == 0
  {
    if schedule != [] {
      NoTurns(schedule[1..], lo, hi, i);
    }
  }

  lemma {:induction false} UptoThenRest(procs: seq<Process>, c: Config, i: nat, hi: nat, fuel: nat -> nat)
    requires i <= hi <= |procs| == |c.histories|
    ensures OneByOne(procs, c, i, fuel) == OneByOne(procs, Upto(procs, c, i, hi, fuel), hi, fuel)
    decreases hi - i
  {
    if i < hi {
      UptoThenRest(procs, Exec(procs, c, Repeat(i, fuel(i))), i + 1, hi, fuel);
    }
  }

  lemma {:induction false} OneByOneAgrees(procs: seq<Process>, c: Config, i: nat, f: nat -> nat, g: nat -> nat)
    requires i <= |procs| == |c.histories|
    requires forall k :: i <= k < |procs| ==> f(k) == g(k)
    ensures OneByOne(procs, c, i, f) == OneByOne(procs, c, i, g)
    decreases |procs| - i
  {
    if i < |procs| {
      OneByOneAgrees(procs, Exec(procs, c, Repeat(i, f(i))), i + 1, f, g);
    }
  }

  lemma BatchMembersAreIndependent(procs: seq<Process>, calls: seq<ScheduledCall>, lo: nat, hi: nat)
    requires lo <= hi <= |procs| == |calls|
    requires forall i :: 0 <= i < |procs| ==> Confined(procs[i], calls[i])
    requires Compatible(CanRunTogether, calls[lo..hi])
    ensures forall i, j :: lo <= i < j < hi ==> Independent(procs[j], procs[i])
  {
    forall i, j | lo <= i < j < hi ensures Independent(procs[j], procs[i]) {
      var batch := calls[lo..hi];
      assert CanRunTogether(batch[j - lo], batch[i - lo]);
      CompatibleCallsAreIndependent(procs[j], calls[j], procs[i], calls[i]);
    }
  }

  lemma TurnsSplit(first: seq<nat>, rest: seq<nat>, lo: nat, hi: nat, n: nat)
    requires Within(first, lo, hi) && Within(rest, hi, n)
    ensures forall k :: lo <= k < n ==> Turns(first + rest, k) == if k < hi then Turns(first, k) else Turns(rest, k)
  {
    forall k | lo <= k < n
      ensures Turns(first + rest, k) == if k < hi then Turns(first, k) else Turns(rest, k)
    {
      TurnsConcat(first, rest, k);
      if k < hi {
        NoTurns(rest, hi, n, k);
      } else {
        NoTurns(first, lo, hi, k);
      }
    }
  }

  // A batch, then the rest of the run, in terms of the turns of the whole schedule.
  lemma BatchThenRest(procs: seq<Process>, c: Config, first: seq<nat>, rest: seq<nat>, lo: nat, hi: nat)
    requires lo <= hi <= |procs| == |c.histories| && Within(first, lo, hi) && Within(rest, hi, |procs|)
    requires Exec(procs, c, first) == Upto(procs, c, lo, hi, TurnsOf(first))
    requires Exec(procs, Exec(procs, c, first), rest) == OneByOne(procs, Exec(procs, c, first), hi, TurnsOf(rest))
    ensures Within(first + rest, 0, |procs|)
    ensures Exec(procs, c, first + rest) == OneByOne(procs, c, lo, TurnsOf(first + rest))
  {
    var d, all := Exec(procs, c, first), TurnsOf(first + rest);
    ExecConcat(procs, c, first, rest);
    TurnsSplit(first, rest, lo, hi, |procs|);
    UptoAgrees(procs, c, lo, hi, TurnsOf(first), all);
    OneByOneAgrees(procs, d, hi, TurnsOf(rest), all);
    UptoThenRest(procs, c, lo, hi, all);
  }

  lemma CutTail(calls: seq<ScheduledCall>, batches: seq<seq<ScheduledCall>>, lo: nat)
    requires lo <= |calls| && batches != [] && IsCut(CanRunTogether, batches, calls[lo..])
    ensures lo + |batches[0]| <= |calls|
    ensures Compatible(CanRunTogether, calls[lo..lo + |batches[0]|])
    ensures IsCut(CanRunTogether, batches[1..], calls[lo + |batches[0]|..])
  {
  }

  lemma {:induction false} BatchesAreSerializable(
    procs: seq<Process>, calls: seq<ScheduledCall>, c: Config,
    batches: seq<seq<ScheduledCall>>, schedules: seq<seq<nat>>, lo: nat)
    requires lo <= |procs| == |calls| == |c.histories|
    requires forall i :: 0 <= i < |procs| ==> Confined(procs[i], calls[i])
    requires IsCut(CanRunTogether, batches, calls[lo..]) && IsRun(batches, schedules, lo)
    ensures Within(Flatten(schedules), lo, |procs|)
    ensures Exec(procs, c, Flatten(schedules)) == OneByOne(procs, c, lo, TurnsOf(Flatten(schedules)))
    decreases |batches|
  {
    RunWithin(batches, schedules, lo);
    if batches != [] {
      var hi := lo + |batches[0]|;
      CutTail(calls, batches, lo);
      BatchMembersAreIndependent(procs, calls, lo, hi);
      BatchIsSerializable(procs, c, schedules[0], lo, hi);
      BatchesAreSerializable(procs, calls, Exec(procs, c, schedules[0]), batches[1..], schedules[1..], hi);
      BatchThenRest(procs, c, schedules[0], Flatten(schedules[1..]), lo, hi);
    }
  }

  // ---- Sequential runs are unique ----------------------------------------------------------

  lemma {:induction false} FinishedStays(procs: seq<Process>, c: Config, i: nat, n: nat)
    requires i < |procs| == |c.histories| && Finished(procs, c, i)
    ensures Exec(procs, c, Repeat(i, n)) == c
    decreases n
  {
    if n > 0 {
      FinishedStays(procs, c, i, n - 1);
      assert Repeat(i, n)[1..] == Repeat(i, n - 1);
    }
  }

  lemma {:induction false} FinishingIsUnique(procs: seq<Process>, c: Config, i: nat, n: nat, m: nat)
    requires i < |procs| == |c.histories| && n <= m
    requires Finished(procs, Exec(procs, c, Repeat(i, n)), i)
    ensures Exec(procs, c, Repeat(i, m)) == Exec(procs, c, Repeat(i, n))
  {
    var d := Exec(procs, c, Repeat(i, n));
    FinishedStays(procs, d, i, m - n);
    ExecConcat(procs, c, Repeat(i, n), Repeat(i, m - n));
    assert Repeat(i, n) + Repeat(i, m - n) == Repeat(i, m);
  }

  lemma {:induction false} SequentialRunsAgree(procs: seq<Process>, c: Config, i: nat, f: nat -> nat, g: nat -> nat)
    requires i <= |procs| == |c.histories|
    requires IsSequentialRun(procs, c, i, f) && IsSequentialRun(procs, c, i, g)
    ensures OneByOne(procs, c, i, f) == OneByOne(procs, c, i, g)
    decreases |procs| - i
  {
    if i < |procs| {
      if f(i) <= g(i) {
        FinishingIsUnique(procs, c, i, f(i), g(i));
      } else {
        FinishingIsUnique(procs, c, i, g(i), f(i));
      }
      SequentialRunsAgree(procs, Exec(procs, c, Repeat(i, f(i))), i + 1, f, g);
    }
  }

  lemma {:induction false} RunningAloneKeepsOthers(procs: seq<Process>, c: Config, i: nat, n: nat)
    requires i < |procs| == |c.histories|
    ensures forall k :: 0 <= k < |procs| && k != i ==> Exec(procs, c, Repeat(i, n)).histories[k] == c.histories[k]
    decreases n
  {
    if n > 0 {
      RunningAloneKeepsOthers(procs, Step(procs, c, i), i, n - 1);
      assert Repeat(i, n)[1..] == Repeat(i, n - 1);
    }
  }

  lemma {:induction false} LaterTurnsKeepEarlier(procs: seq<Process>, c: Config, i: nat, fuel: nat -> nat)
    requires i <= |procs| == |c.histories|
    ensures forall k :: 0 <= k < i ==> OneByOne(procs, c, i, fuel).histories[k] == c.histories[k]
    decreases |procs| - i
  {
    if i < |procs| {
      RunningAloneKeepsOthers(procs, c, i, fuel(i));
      LaterTurnsKeepEarlier(procs, Exec(procs, c, Repeat(i, fuel(i))), i + 1, fuel);
    }
  }

  lemma {:induction false} FinishedAtTheEndIsSequential(procs: seq<Process>, c: Config, i: nat, fuel: nat -> nat)
    requires i <= |procs| == |c.histories|
    requires forall k :: i <= k < |procs| ==> Finished(procs, OneByOne(procs, c, i, fuel), k)
    ensures IsSequentialRun(procs, c, i, fuel)
    decreases |procs| - i
  {
    if i < |procs| {
      var d := Exec(procs, c, Repeat(i, fuel(i)));
      LaterTurnsKeepEarlier(procs, d, i + 1, fuel);
      assert Finished(procs, OneByOne(procs, c, i, fuel), i);
      FinishedAtTheEndIsSequential(procs, d, i + 1, fuel);
    }
  }

  // Serializability. Take any interleaving of the batches in which every call finishes. The
  // calls can be run one by one in list order, each to its end, and every such sequential run
  // ends in the same configuration: the same store, and for every call the same observations
  // and therefore the same output.
  lemma RunIsSerializable(procs: seq<Process>, calls: seq<ScheduledCall>, start: Config,
                          batches: seq<seq<ScheduledCall>>, schedules: seq<seq<nat>>)
    requires |procs| == |calls| == |start.histories|
    requires forall i :: 0 <= i < |procs| ==> Confined(procs[i], calls[i])
    requires IsCut(CanRunTogether, batches, calls) && IsRun(batches, schedules, 0)
    ensures Within(Flatten(schedules), 0, |procs|)
    ensures AllFinished(procs, Exec(procs, start, Flatten(schedules))) ==>
              && (exists fuel :: IsSequentialRun(procs, start, 0, fuel))
              && forall fuel :: IsSequentialRun(procs, start, 0, fuel) ==>
                   OneByOne(procs, start, 0, fuel) == Exec(procs, start, Flatten(schedules))
  {
    assert calls[0..] == calls;
    BatchesAreSerializable(procs, calls, start, batches, schedules, 0);
    var final := Exec(procs, start, Flatten(schedules));
    if AllFinished(procs, final) {
      var turns := TurnsOf(Flatten(schedules));
      FinishedAtTheEndIsSequential(procs, start, 0, turns);
      forall fuel | IsSequentialRun(procs, start, 0, fuel)
        ensures OneByOne(procs, start, 0, fuel) == final
      {
        SequentialRunsAgree(procs, start, 0, fuel, turns);
      }
    }
  }

  lemma {:induction false} MoreFuelChangesNothing(procs: seq<Process>, c: Config, i: nat, f: nat -> nat, g: nat -> nat)
    requires i <= |procs| == |c.histories|
    requires IsSequentialRun(procs, c, i, f)
    requires forall k :: i <= k < |procs| ==> f(k) <= g(k)
    ensures OneByOne(procs, c, i, f) == OneByOne(procs, c, i, g)
    ensures forall k :: i <= k < |procs| ==> Finished(procs, OneByOne(procs, c, i, g), k)
    decreases |procs| - i
  {
    if i < |procs| {
      FinishingIsUnique(procs, c, i, f(i), g(i));
      var d := Exec(procs, c, Repeat(i, f(i)));
      MoreFuelChangesNothing(procs, d, i + 1, f, g);
      LaterTurnsKeepEarlier(procs, d, i + 1, g);
    }
  }

  // Conversely nothing can get stuck: when the sequential run needs no more steps of any call
  // than an interleaving grants, that interleaving finishes every call, with the same result.
  lemma EnoughTurnsFinish(procs: seq<Process>, calls: seq<ScheduledCall>, start: Config,
                          batches: seq<seq<ScheduledCall>>, schedules: seq<seq<nat>>, fuel: nat -> nat)
    requires |procs| == |calls| == |start.histories|
    requires forall i :: 0 <= i < |procs| ==> Confined(procs[i], calls[i])
    requires IsCut(CanRunTogether, batches, calls) && IsRun(batches, schedules, 0)
    requires IsSequentialRun(procs, start, 0, fuel)
    requires forall i :: 0 <= i < |procs| ==> fuel(i) <= Turns(Flatten(schedules), i)
    ensures Within(Flatten(schedules), 0, |procs|)
    ensures Exec(procs, start, Flatten(schedules)) == OneByOne(procs, start, 0, fuel)
    ensures AllFinished(procs, Exec(procs, start, Flatten(schedules)))
  {
    assert calls[0..] == calls;
    BatchesAreSerializable(procs, calls, start, batches, schedules, 0);
    var turns := TurnsOf(Flatten(schedules));
    MoreFuelChangesNothing(procs, start, 0, fuel, turns);
  }
}
