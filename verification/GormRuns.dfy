/**
 * The claim of the gorm backend is a run of the lease protocol: the race that
 * its code is proved to run takes the steps that the theorems on runs speak of.
 */
module GormRuns {
  import opened Wrappers
  import opened WorkQueue
  import opened TaskTable
  import opened Scheduling
  import opened Lease
  import opened LeaseRuns
  import opened GormQueue

  /** Others run from before to met and leave the worker alone; then it tries its next candidate. */
  datatype Tryout = Tryout(before: State, others: seq<Step>, met: State, after: State)

  ghost predicate IsTryout(t: Tryout, w: WorkerId, duration: nat, careful: bool) {
    && Run(t.before, t.others, careful) == Some(t.met) && WorkerOf(t.met, w) == WorkerOf(t.before, w)
    && Enabled(t.met, TryCandidate(w, duration))
    && t.after == Next(t.met, TryCandidate(w, duration))
  }

  /** One tryout after the other. */
  ghost predicate Chained(s: State, ts: seq<Tryout>, w: WorkerId, duration: nat, careful: bool) {
    && (forall i :: 0 <= i < |ts| ==> IsTryout(ts[i], w, duration, careful))
    && (ts != [] ==> ts[0].before == s)
    && (forall i, j :: 0 <= i < j < |ts| && j == i + 1 ==> ts[j].before == ts[i].after)
  }

  function After(s: State, ts: seq<Tryout>): State {
    if ts == [] then s else ts[|ts| - 1].after
  }

  /** What a run from s to m added to the log. */
  function Sent(s: State, m: State): Log {
    if |s.log| <= |m.log| then m.log[|s.log|..] else []
  }

  /** How a race ends for worker w: in the table and in the record it goes on with. */
  ghost predicate Ends(s: State, w: WorkerId, result: (Table, Option<Candidate>)) {
    && s.table == result.0
    && match result.1
       case None => WorkerOf(s, w) == Idle
       case Some(won) => won.id in s.table && WorkerOf(s, w) == Holding(won.id, s.table[won.id], won.row)
  }

  /** One try: the guarded claim of the worker's next candidate. */
  lemma OneTry(m: State, w: WorkerId, duration: nat)
    requires Enabled(m, TryCandidate(w, duration))
    ensures var worker := WorkerOf(m, w);
            var c, lease := worker.candidates[worker.next], worker.at + duration;
            var s' := Next(m, TryCandidate(w, duration));
            if Affects(ClaimRow(c.id, c.row.attempts, lease), c.id, Lookup(m.table, c.id))
            then Ends(s', w, (Apply(ClaimRow(c.id, c.row.attempts, lease), m.table),
                              Some(Candidate(c.id, Won(c.row, lease)))))
            else s'.table == m.table && WorkerOf(s', w) == worker.(next := worker.next + 1)
  {
    var worker := WorkerOf(m, w);
    var c := worker.candidates[worker.next];
    var stmt := ClaimRow(c.id, c.row.attempts, worker.at + duration);
    assert Lookup(Apply(stmt, m.table), c.id) == ApplyRow(stmt, c.id, Lookup(m.table, c.id));
    if !Affects(stmt, c.id, Lookup(m.table, c.id)) {
      ApplyNone(stmt, m.table);
    }
  }

  /** The tryouts, one after the other, are a run. */
  lemma {:induction false} TryoutsAreARun(s0: State, steps: seq<Step>, careful: bool, s: State, w: WorkerId,
                                          ts: seq<Tryout>, duration: nat)
    returns (steps': seq<Step>)
    requires Run(s0, steps, careful) == Some(s) && Chained(s, ts, w, duration, careful)
    ensures Run(s0, steps', careful) == Some(After(s, ts))
  {
    steps' := steps;
    if ts != [] {
      var t := ts[|ts| - 1];
      assert After(s, ts[..|ts| - 1]) == t.before;
      steps' := TryoutsAreARun(s0, steps, careful, s, w, ts[..|ts| - 1], duration);
      steps' := TryoutIsARun(s0, steps', careful, t, w, duration);
    }
  }

  lemma TryoutIsARun(s0: State, steps: seq<Step>, careful: bool, t: Tryout, w: WorkerId, duration: nat)
    returns (steps': seq<Step>)
    requires Run(s0, steps, careful) == Some(t.before) && IsTryout(t, w, duration, careful)
    ensures Run(s0, steps', careful) == Some(t.after)
  {
    RunAppends(s0, steps, t.others, careful);
    var after;
    steps', after := Extend(s0, steps + t.others, careful, t.met, TryCandidate(w, duration));
  }

  predicate Hits(cands: seq<Candidate>, i: nat, lease: int, table: Table)
    requires i < |cands|
  {
    Affects(ClaimRow(cands[i].id, cands[i].row.attempts, lease), cands[i].id, Lookup(table, cands[i].id))
  }

  lemma RaceStep(cands: seq<Candidate>, lease: int, rivals: seq<Log>, i: nat, table: Table, met: Table)
    requires i < |cands| == |rivals| && met == ApplyAll(rivals[i], table)
    ensures Race(table, cands, lease, rivals, i)
            == if Hits(cands, i, lease, met)
               then (Apply(ClaimRow(cands[i].id, cands[i].row.attempts, lease), met),
                     Some(Candidate(cands[i].id, Won(cands[i].row, lease))))
               else Race(met, cands, lease, rivals, i + 1)
  {
  }

  /** Tries 0 to n - 1 miss; tables[i] is the table before rivals[i] reach it. */
  ghost predicate Missed(cands: seq<Candidate>, lease: int, rivals: seq<Log>, tables: seq<Table>, n: nat) {
    && n < |tables| && n <= |cands| == |rivals|
    && forall i, j :: 0 <= i < j <= n && j == i + 1 ==>
                        tables[j] == ApplyAll(rivals[i], tables[i]) && !Hits(cands, i, lease, tables[j])
  }

  /** After n misses the race is lost, or the next try hits and ends it. */
  ghost predicate Outcome(cands: seq<Candidate>, lease: int, rivals: seq<Log>, tables: seq<Table>, n: nat,
                          result: (Table, Option<Candidate>))
  {
    && Missed(cands, lease, rivals, tables, n)
    && if n == |cands| then result == (tables[n], None)
       else var met := ApplyAll(rivals[n], tables[n]);
            && Hits(cands, n, lease, met)
            && result == (Apply(ClaimRow(cands[n].id, cands[n].row.attempts, lease), met),
                          Some(Candidate(cands[n].id, Won(cands[n].row, lease))))
  }

  lemma {:induction false} MissesGoOn(cands: seq<Candidate>, lease: int, rivals: seq<Log>, tables: seq<Table>, n: nat)
    requires Missed(cands, lease, rivals, tables, n)
    ensures Race(tables[0], cands, lease, rivals, 0) == Race(tables[n], cands, lease, rivals, n)
  {
    if n > 0 {
      MissesGoOn(cands, lease, rivals, tables, n - 1);
      RaceStep(cands, lease, rivals, n - 1, tables[n - 1], tables[n]);
    }
  }

  lemma OutcomeIsTheRace(cands: seq<Candidate>, lease: int, rivals: seq<Log>, tables: seq<Table>, n: nat,
                         result: (Table, Option<Candidate>))
    requires Outcome(cands, lease, rivals, tables, n, result)
    ensures Race(tables[0], cands, lease, rivals, 0) == result
  {
    MissesGoOn(cands, lease, rivals, tables, n);
    if n < |cands| {
      RaceStep(cands, lease, rivals, n, tables[n], ApplyAll(rivals[n], tables[n]));
    }
  }

  /** What a tryout does to the table, and for w, when the others send rival. */
  ghost predicate MissesOrHits(t: Tryout, w: WorkerId, worker: Worker, i: nat, duration: nat, rival: Log) {
    && worker.Trying? && i < |worker.candidates| && WorkerOf(t.before, w) == worker.(next := i)
    && t.met.table == ApplyAll(rival, t.before.table)
    && var c, lease := worker.candidates[i], worker.at + duration;
       if Hits(worker.candidates, i, lease, t.met.table)
       then Ends(t.after, w, (Apply(ClaimRow(c.id, c.row.attempts, lease), t.met.table),
                              Some(Candidate(c.id, Won(c.row, lease)))))
       else t.after.table == t.met.table && WorkerOf(t.after, w) == worker.(next := i + 1)
  }

  lemma TryoutMissesOrHits(t: Tryout, w: WorkerId, duration: nat, careful: bool)
    requires IsTryout(t, w, duration, careful)
    ensures WorkerOf(t.before, w).Trying?
    ensures MissesOrHits(t, w, WorkerOf(t.before, w), WorkerOf(t.before, w).next, duration, Sent(t.before, t.met))
  {
    RunExecutes(t.before, t.others, careful);
    OneTry(t.met, w, duration);
  }

  /** The worker began with these candidates, and rivals holds what the others sent before each try. */
  ghost predicate Claiming(s: State, w: WorkerId, worker: Worker, ts: seq<Tryout>, duration: nat, careful: bool,
                           rivals: seq<Log>)
  {
    && worker.Trying? && worker.next == 0 && WorkerOf(s, w) == worker && Chained(s, ts, w, duration, careful)
    && |ts| <= |worker.candidates| == |rivals|
    && forall i :: 0 <= i < |ts| ==> rivals[i] == Sent(ts[i].before, ts[i].met)
  }

  lemma MissedIfTrying(t: Tryout, w: WorkerId, worker: Worker, i: nat, duration: nat, rival: Log)
    requires MissesOrHits(t, w, worker, i, duration, rival) && WorkerOf(t.after, w).Trying?
    ensures !Hits(worker.candidates, i, worker.at + duration, t.met.table)
    ensures t.after.table == t.met.table && WorkerOf(t.after, w) == worker.(next := i + 1)
  {
  }

  /** The i-th tryout tries candidate i, with rivals[i] sent before it. */
  ghost predicate AllTried(s: State, w: WorkerId, worker: Worker, ts: seq<Tryout>, duration: nat, rivals: seq<Log>) {
    && worker.Trying? && |ts| <= |worker.candidates| == |rivals|
    && (forall i :: 0 <= i < |ts| ==> MissesOrHits(ts[i], w, worker, i, duration, rivals[i]))
    && (ts != [] ==> ts[0].before == s)
    && (forall i, j :: 0 <= i < j < |ts| && j == i + 1 ==> ts[j].before == ts[i].after)
  }

  /** Each tryout does what its worker's own record says. */
  ghost predicate EachTried(ts: seq<Tryout>, w: WorkerId, duration: nat, rivals: seq<Log>) {
    && |ts| <= |rivals|
    && (forall i :: 0 <= i < |ts| ==>
          && WorkerOf(ts[i].before, w).Trying?
          && MissesOrHits(ts[i], w, WorkerOf(ts[i].before, w), WorkerOf(ts[i].before, w).next, duration, rivals[i]))
    && (forall i, j :: 0 <= i < j < |ts| && j == i + 1 ==> ts[j].before == ts[i].after)
  }

  lemma {:induction false} NthRecord(ts: seq<Tryout>, w: WorkerId, worker: Worker, duration: nat,
                                     rivals: seq<Log>, i: nat)
    requires EachTried(ts, w, duration, rivals) && i < |ts|
    requires worker.Trying? && worker.next == 0 && WorkerOf(ts[0].before, w) == worker
    ensures WorkerOf(ts[i].before, w) == worker.(next := i)
  {
    if i > 0 {
      NthRecord(ts, w, worker, duration, rivals, i - 1);
      assert ts[i].before == ts[i - 1].after;
      MissedIfTrying(ts[i - 1], w, worker.(next := i - 1), i - 1, duration, rivals[i - 1]);
    }
  }

  lemma TryoutsTryEach(s: State, ts: seq<Tryout>, w: WorkerId, duration: nat, careful: bool, rivals: seq<Log>)
    requires Chained(s, ts, w, duration, careful) && |ts| <= |rivals|
    requires forall i :: 0 <= i < |ts| ==> rivals[i] == Sent(ts[i].before, ts[i].met)
    ensures EachTried(ts, w, duration, rivals)
  {
    forall i | 0 <= i < |ts|
      ensures WorkerOf(ts[i].before, w).Trying?
      ensures MissesOrHits(ts[i], w, WorkerOf(ts[i].before, w), WorkerOf(ts[i].before, w).next, duration, rivals[i])
    {
      TryoutMissesOrHits(ts[i], w, duration, careful);
    }
  }

  lemma EachTriedIsAllTried(s: State, w: WorkerId, worker: Worker, ts: seq<Tryout>, duration: nat, rivals: seq<Log>)
    requires EachTried(ts, w, duration, rivals) && |rivals| >= |ts| && (ts != [] ==> ts[0].before == s)
    requires worker.Trying? && worker.next == 0 && WorkerOf(s, w) == worker && |ts| <= |worker.candidates| == |rivals|
    ensures AllTried(s, w, worker, ts, duration, rivals)
  {
    forall i | 0 <= i < |ts| ensures MissesOrHits(ts[i], w, worker, i, duration, rivals[i]) {
      NthRecord(ts, w, worker, duration, rivals, i);
    }
  }

  /** w is done: it won, or it has tried all candidates. */
  predicate IsDone(s: State, w: WorkerId) {
    WorkerOf(s, w).Trying? ==> WorkerOf(s, w).next == |WorkerOf(s, w).candidates|
  }

  /** A worker that gives up leaves the table as it is. */
  function Done(s: State, w: WorkerId): State {
    if WorkerOf(s, w).Trying? then Put(s, w, Idle) else s
  }

  /** The tables that the tryouts began with; all but the last missed. */
  lemma TablesMissed(s: State, w: WorkerId, worker: Worker, ts: seq<Tryout>, duration: nat, rivals: seq<Log>)
    returns (tables: seq<Table>)
    requires AllTried(s, w, worker, ts, duration, rivals) && ts != []
    ensures |tables| == |ts| && tables[0] == s.table && tables[|ts| - 1] == ts[|ts| - 1].before.table
    ensures Missed(worker.candidates, worker.at + duration, rivals, tables, |ts| - 1)
  {
    tables := seq(|ts|, i requires 0 <= i < |ts| => ts[i].before.table);
    forall i, j | 0 <= i < j < |ts| && j == i + 1
      ensures tables[j] == ApplyAll(rivals[i], tables[i])
      ensures !Hits(worker.candidates, i, worker.at + duration, tables[j])
    {
      assert ts[j].before == ts[i].after;
      assert MissesOrHits(ts[i], w, worker, i, duration, rivals[i]);
      assert MissesOrHits(ts[j], w, worker, j, duration, rivals[j]);
    }
  }

  /** The last tryout hits: the race is its claim. */
  lemma LastHits(w: WorkerId, worker: Worker, last: Tryout, n: nat, duration: nat, rivals: seq<Log>, tables: seq<Table>)
    requires worker.Trying? && n < |worker.candidates| == |rivals|
    requires MissesOrHits(last, w, worker, n, duration, rivals[n]) && !WorkerOf(last.after, w).Trying?
    requires Missed(worker.candidates, worker.at + duration, rivals, tables, n) && tables[n] == last.before.table
    ensures Ends(last.after, w, Race(tables[0], worker.candidates, worker.at + duration, rivals, 0))
  {
    var c, lease := worker.candidates[n], worker.at + duration;
    var result := (Apply(ClaimRow(c.id, c.row.attempts, lease), last.met.table),
                   Some(Candidate(c.id, Won(c.row, lease))));
    OutcomeIsTheRace(worker.candidates, lease, rivals, tables, n, result);
  }

  /** The last tryout misses, and there is no candidate left: the race is lost. */
  lemma LastMisses(w: WorkerId, worker: Worker, last: Tryout, n: nat, duration: nat, rivals: seq<Log>,
                   tables: seq<Table>)
    requires worker.Trying? && n + 1 == |worker.candidates| == |rivals| && n + 1 == |tables|
    requires MissesOrHits(last, w, worker, n, duration, rivals[n]) && WorkerOf(last.after, w).Trying?
    requires Missed(worker.candidates, worker.at + duration, rivals, tables, n) && tables[n] == last.before.table
    ensures Race(tables[0], worker.candidates, worker.at + duration, rivals, 0) == (last.after.table, None)
  {
    var lease := worker.at + duration;
    var more := tables + [last.met.table];
    MissedIfTrying(last, w, worker, n, duration, rivals[n]);
    forall i, j | 0 <= i < j <= n + 1 && j == i + 1
      ensures more[j] == ApplyAll(rivals[i], more[i]) && !Hits(worker.candidates, i, lease, more[j])
    {
      if i < n {
        assert more[j] == tables[j] && more[i] == tables[i];
      }
    }
    OutcomeIsTheRace(worker.candidates, lease, rivals, more, n + 1, (last.met.table, None));
  }

  lemma TryoutsRace(s: State, w: WorkerId, worker: Worker, ts: seq<Tryout>, duration: nat, rivals: seq<Log>)
    requires AllTried(s, w, worker, ts, duration, rivals) && IsDone(After(s, ts), w)
    requires WorkerOf(s, w) == worker && worker.next == 0
    ensures Ends(Done(After(s, ts), w), w, Race(s.table, worker.candidates, worker.at + duration, rivals, 0))
  {
    if ts != [] {
      var n := |ts| - 1;
      var tables := TablesMissed(s, w, worker, ts, duration, rivals);
      assert MissesOrHits(ts[n], w, worker, n, duration, rivals[n]);
      if WorkerOf(ts[n].after, w).Trying? {
        MissedIfTrying(ts[n], w, worker, n, duration, rivals[n]);
        LastMisses(w, worker, ts[n], n, duration, rivals, tables);
      } else {
        LastHits(w, worker, ts[n], n, duration, rivals, tables);
      }
    }
  }

  /** Reading, trying and giving up are a run. */
  lemma ClaimRuns(s0: State, steps: seq<Step>, careful: bool, s: State, w: WorkerId, worker: Worker,
                  ts: seq<Tryout>, duration: nat)
    returns (steps': seq<Step>)
    requires Run(s0, steps, careful) == Some(s) && worker.Trying? && worker.next == 0
    requires Enabled(s, ReadCandidates(w, worker.queue, worker.at, worker.candidates))
    requires Chained(Put(s, w, worker), ts, w, duration, careful) && IsDone(After(Put(s, w, worker), ts), w)
    ensures Run(s0, steps', careful) == Some(Done(After(Put(s, w, worker), ts), w))
  {
    var read;
    steps', read := Extend(s0, steps, careful, s, ReadCandidates(w, worker.queue, worker.at, worker.candidates));
    steps' := TryoutsAreARun(s0, steps', careful, read, w, ts, duration);
    if WorkerOf(After(read, ts), w).Trying? {
      var last;
      steps', last := Extend(s0, steps', careful, After(read, ts), GiveUp(w));
    }
  }

  /**
   * A claim of the gorm backend against rivals whose statements come from a run is
   * itself a run: w reads its window, the rivals take their steps between w's
   * tries, and w gives up if none of them wins. Its end is the race that Claim is
   * proved to run.
   */
  lemma ClaimIsARun(s0: State, steps: seq<Step>, careful: bool, s: State, w: WorkerId, worker: Worker,
                    ts: seq<Tryout>, duration: nat, rivals: seq<Log>)
    returns (steps': seq<Step>, s': State)
    requires Run(s0, steps, careful) == Some(s) && worker.Trying?
    requires Enabled(s, ReadCandidates(w, worker.queue, worker.at, worker.candidates))
    requires Claiming(Put(s, w, worker), w, worker, ts, duration, careful, rivals)
    requires IsDone(After(Put(s, w, worker), ts), w)
    ensures Run(s0, steps', careful) == Some(s')
    ensures Ends(s', w, Race(s.table, worker.candidates, worker.at + duration, rivals, 0))
  {
    steps' := ClaimRuns(s0, steps, careful, s, w, worker, ts, duration);
    s' := Done(After(Put(s, w, worker), ts), w);
    TryoutsTryEach(Put(s, w, worker), ts, w, duration, careful, rivals);
    EachTriedIsAllTried(Put(s, w, worker), w, worker, ts, duration, rivals);
    TryoutsRace(Put(s, w, worker), w, worker, ts, duration, rivals);
  }
}
