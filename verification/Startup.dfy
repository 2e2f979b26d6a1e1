/** Starting a websocket server, by any number of callers at once, as a state
    machine over the await points of `start_ws_server_internal`. */
module Startup {
  import opened Options
  import opened Targets

  datatype Mode = Daemon | Blocking

  datatype Job = Job(key: Key, reuseExisting: bool, mode: Mode)

  datatype Outcome = Started | Reused | Refused | Failed

  /** Where a caller stands. `seen` says whether the server was up when the
      probe under way began. */
  datatype Pc =
    | Begin(job: Job)
    | FirstProbe(job: Job, seen: bool)
    | Queued(job: Job)
    | Holding(job: Job)
    | SecondProbe(job: Job, seen: bool)
    | Spawning(job: Job)
    | Checking(job: Job)
    | ReadyProbe(job: Job, seen: bool)
    | Waiting(job: Job)
    | Done(job: Job, outcome: Outcome)

  datatype What = Spawn | StartFailed | End(outcome: Outcome)

  datatype Entry = Entry(caller: nat, job: Job, what: What)

  /** `up` are the targets whose server answers handshakes; `locks` says who
      holds the startup lock of a target. */
  datatype State = State(callers: seq<Pc>, locks: map<Key, nat>, up: set<Key>, log: seq<Entry>)

  datatype Answer = Reachable | Unavailable | Conflict

  datatype Step =
    | ServerReady(key: Key)
    | Arrive(job: Job)
    | ProbeStarts(c: nat)
    | ProbeEnds(c: nat, answer: Answer)
    | TakeLock(c: nat)
    | SpawnProcess(c: nat, ok: bool)
    | ChildExits(c: nat)
    | DeadlinePasses(c: nat)
    | Sleep(c: nat)

  const INIT: State := State([], map[], {}, [])

  predicate Probing(pc: Pc) {
    pc.FirstProbe? || pc.SecondProbe? || pc.ReadyProbe?
  }

  /** What a probe may answer: a server that was up when it began is reached,
      and only a server that is up is. */
  predicate CanAnswer(s: State, pc: Pc, a: Answer)
    requires Probing(pc)
  {
    (pc.seen ==> a.Reachable?) && (a.Reachable? ==> pc.job.key in s.up)
  }

  predicate Enabled(s: State, st: Step) {
    match st
    case ServerReady(_) => true
    case Arrive(_) => true
    case ProbeStarts(c) => c < |s.callers| && (s.callers[c].Begin? || s.callers[c].Holding? || s.callers[c].Checking?)
    case ProbeEnds(c, a) => c < |s.callers| && Probing(s.callers[c]) && CanAnswer(s, s.callers[c], a)
    case TakeLock(c) => c < |s.callers| && s.callers[c].Queued? && s.callers[c].job.key !in s.locks
    case SpawnProcess(c, _) => c < |s.callers| && s.callers[c].Spawning?
    case ChildExits(c) => c < |s.callers| && s.callers[c].Checking? && s.callers[c].job.mode.Blocking?
    case DeadlinePasses(c) => c < |s.callers| && s.callers[c].Waiting?
    case Sleep(c) => c < |s.callers| && s.callers[c].Waiting?
  }

  function Move(s: State, c: nat, pc: Pc): State
    requires c < |s.callers|
  {
    s.(callers := s.callers[c := pc])
  }

  function Note(s: State, c: nat, what: What): State
    requires c < |s.callers|
  {
    s.(log := s.log + [Entry(c, s.callers[c].job, what)])
  }

  /** The call returns; a lock it holds is released. */
  function Return(s: State, c: nat, outcome: Outcome): State
    requires c < |s.callers|
  {
    var job := s.callers[c].job;
    var t := Move(Note(s, c, End(outcome)), c, Done(job, outcome));
    if InLock(s.callers[c]) then t.(locks := t.locks - {job.key}) else t
  }

  /** The return of a caller that had spawned a process. */
  function GiveUp(s: State, c: nat): State
    requires c < |s.callers|
  {
    Return(Note(s, c, StartFailed), c, Failed)
  }

  predicate InLock(pc: Pc) {
    pc.Holding? || pc.SecondProbe? || pc.Spawning? || HasSpawned(pc)
  }

  predicate HasSpawned(pc: Pc) {
    pc.Checking? || pc.ReadyProbe? || pc.Waiting?
  }

  /** The answer of `existing_server_handle`'s probe. */
  function Existing(s: State, c: nat, a: Answer, next: Pc): State
    requires c < |s.callers|
  {
    match a
    case Reachable => Return(s, c, if s.callers[c].job.reuseExisting then Reused else Refused)
    case Unavailable => Move(s, c, next)
    case Conflict => Return(s, c, Failed)
  }

  function Exec(s: State, st: Step): State
    requires Enabled(s, st)
  {
    match st
    case ServerReady(k) => s.(up := s.up + {k})
    case Arrive(job) => s.(callers := s.callers + [Begin(job)])
    case ProbeStarts(c) =>
      var pc := s.callers[c];
      var seen := pc.job.key in s.up;
      Move(s, c, if pc.Begin? then FirstProbe(pc.job, seen)
                 else if pc.Holding? then SecondProbe(pc.job, seen)
                 else ReadyProbe(pc.job, seen))
    case ProbeEnds(c, a) =>
      var pc := s.callers[c];
      if pc.FirstProbe? then Existing(s, c, a, Queued(pc.job))
      else if pc.SecondProbe? then Existing(s, c, a, Spawning(pc.job))
      else if a.Reachable? then Return(s, c, Started)
      else if a.Unavailable? then Move(s, c, Waiting(pc.job))
      else GiveUp(s, c)
    case TakeLock(c) =>
      var job := s.callers[c].job;
      Move(s, c, Holding(job)).(locks := s.locks[job.key := c])
    case SpawnProcess(c, ok) =>
      if ok then Move(Note(s, c, Spawn), c, Checking(s.callers[c].job)) else Return(s, c, Failed)
    case ChildExits(c) => GiveUp(s, c)
    case DeadlinePasses(c) => GiveUp(s, c)
    case Sleep(c) => Move(s, c, Checking(s.callers[c].job))
  }

  /** The state after some steps from `s`, if each was possible. */
  function After(s: State, steps: seq<Step>): Option<State> {
    if steps == [] then Some(s)
    else
      var front := After(s, steps[..|steps| - 1]);
      if front.None? || !Enabled(front.value, steps[|steps| - 1]) then None
      else Some(Exec(front.value, steps[|steps| - 1]))
  }

  function Count(log: seq<Entry>, k: Key, what: What): nat {
    if log == [] then 0
    else
      var last := log[|log| - 1];
      Count(log[..|log| - 1], k, what) + if last.job.key == k && last.what == what then 1 else 0
  }

  // ----- what holds at all times

  predicate LocksHeld(s: State) {
    && (forall c :: 0 <= c < |s.callers| && InLock(s.callers[c]) ==>
          s.callers[c].job.key in s.locks && s.locks[s.callers[c].job.key] == c)
    && (forall k :: k in s.locks ==>
          s.locks[k] < |s.callers| && InLock(s.callers[s.locks[k]]) && s.callers[s.locks[k]].job.key == k)
  }

  predicate SeenIsUp(s: State) {
    forall c :: 0 <= c < |s.callers| && Probing(s.callers[c]) && s.callers[c].seen ==> s.callers[c].job.key in s.up
  }

  /** On the way to a new process, whatever the server does from here on. */
  predicate MaySpawn(pc: Pc) {
    (pc.SecondProbe? && !pc.seen) || pc.Spawning? || HasSpawned(pc)
  }

  predicate OneStart(s: State, k: Key) {
    && Count(s.log, k, End(Started)) <= 1
    && (Count(s.log, k, End(Started)) == 1 ==>
          && k in s.up
          && forall c :: 0 <= c < |s.callers| && s.callers[c].job.key == k ==> !MaySpawn(s.callers[c]))
  }

  function Underway(s: State, k: Key): nat
    requires LocksHeld(s)
  {
    if k in s.locks && HasSpawned(s.callers[s.locks[k]]) then 1 else 0
  }

  /** Every process spawned is accounted for. */
  predicate Ledger(s: State, k: Key)
    requires LocksHeld(s)
  {
    Count(s.log, k, Spawn) == Count(s.log, k, StartFailed) + Count(s.log, k, End(Started)) + Underway(s, k)
  }

  ghost predicate Inv(s: State) {
    LocksHeld(s) && SeenIsUp(s) && forall k: Key :: OneStart(s, k) && Ledger(s, k)
  }

  lemma CountNote(s: State, c: nat, what: What, k: Key, w: What)
    requires c < |s.callers|
    ensures Count(Note(s, c, what).log, k, w)
         == Count(s.log, k, w) + if s.callers[c].job.key == k && w == what then 1 else 0
  {
    assert Note(s, c, what).log[..|s.log|] == s.log;
  }

  /** A move that neither takes nor gives up the lock. */
  lemma MoveKeepsLocks(s: State, c: nat, pc: Pc)
    requires LocksHeld(s) && SeenIsUp(s) && c < |s.callers|
    requires pc.job == s.callers[c].job && InLock(pc) == InLock(s.callers[c])
    requires Probing(pc) && pc.seen ==> pc.job.key in s.up
    ensures LocksHeld(Move(s, c, pc)) && SeenIsUp(Move(s, c, pc))
  {
  }

  lemma MoveKeeps(s: State, c: nat, pc: Pc)
    requires Inv(s) && c < |s.callers|
    requires pc.job == s.callers[c].job && InLock(pc) == InLock(s.callers[c])
        && HasSpawned(pc) == HasSpawned(s.callers[c])
    requires Probing(pc) && pc.seen ==> pc.job.key in s.up
    requires MaySpawn(pc) ==> MaySpawn(s.callers[c]) || pc.job.key !in s.up
    ensures Inv(Move(s, c, pc))
  {
    MoveKeepsLocks(s, c, pc);
    var t := Move(s, c, pc);
    forall k: Key ensures OneStart(t, k) && Ledger(t, k) {
      assert OneStart(s, k) && Ledger(s, k);
    }
  }

  /** A caller that is about to spawn, or has, is the only one, and its server
      has not been reported. */
  lemma SpawnerIsAlone(s: State, c: nat)
    requires Inv(s) && c < |s.callers| && MaySpawn(s.callers[c])
    ensures Count(s.log, s.callers[c].job.key, End(Started)) == 0
    ensures s.callers[c].job.key in s.locks && s.locks[s.callers[c].job.key] == c
  {
    assert OneStart(s, s.callers[c].job.key);
  }

  lemma ReturnKeepsLocks(s: State, c: nat, outcome: Outcome)
    requires LocksHeld(s) && SeenIsUp(s) && c < |s.callers|
    ensures LocksHeld(Return(s, c, outcome)) && SeenIsUp(Return(s, c, outcome))
  {
    var t := Return(s, c, outcome);
    assert forall d :: 0 <= d < |s.callers| && d != c ==> t.callers[d] == s.callers[d];
    forall d | 0 <= d < |t.callers| && InLock(t.callers[d])
      ensures t.callers[d].job.key in t.locks && t.locks[t.callers[d].job.key] == d
    {
      assert d != c && s.locks[s.callers[d].job.key] == d;
    }
  }

  /** The counts for one target after a return, given those before. */
  lemma ReturnCounts(s: State, c: nat, outcome: Outcome, k: Key)
    requires LocksHeld(s) && c < |s.callers| && LocksHeld(Return(s, c, outcome))
    ensures
      var t := Return(s, c, outcome);
      var mine := s.callers[c].job.key == k;
      && Count(t.log, k, Spawn) == Count(s.log, k, Spawn)
      && Count(t.log, k, StartFailed) == Count(s.log, k, StartFailed)
      && Count(t.log, k, End(Started)) == Count(s.log, k, End(Started)) + (if mine && outcome.Started? then 1 else 0)
      && Underway(t, k) == if mine && InLock(s.callers[c]) then 0 else Underway(s, k)
  {
    assert Return(s, c, outcome).log == Note(s, c, End(outcome)).log;
    ReturnUnderway(s, c, outcome, k);
    CountNote(s, c, End(outcome), k, Spawn);
    CountNote(s, c, End(outcome), k, StartFailed);
    CountNote(s, c, End(outcome), k, End(Started));
  }

  lemma ReturnUnderway(s: State, c: nat, outcome: Outcome, k: Key)
    requires LocksHeld(s) && c < |s.callers| && LocksHeld(Return(s, c, outcome))
    ensures Underway(Return(s, c, outcome), k) ==
            if s.callers[c].job.key == k && InLock(s.callers[c]) then 0 else Underway(s, k)
  {
    var t := Return(s, c, outcome);
    if k in t.locks && t.locks[k] != c {
      assert t.callers[t.locks[k]] == s.callers[t.locks[k]];
    }
  }

  /** Returning without having spawned. */
  lemma ReturnKeeps(s: State, c: nat, outcome: Outcome)
    requires Inv(s) && c < |s.callers| && !outcome.Started? && !HasSpawned(s.callers[c])
    ensures Inv(Return(s, c, outcome))
  {
    var t := Return(s, c, outcome);
    ReturnKeepsLocks(s, c, outcome);
    forall k: Key ensures OneStart(t, k) && Ledger(t, k) {
      assert OneStart(s, k) && Ledger(s, k);
      ReturnCounts(s, c, outcome, k);
    }
  }

  lemma StartedKeeps(s: State, c: nat)
    requires Inv(s) && c < |s.callers| && HasSpawned(s.callers[c]) && s.callers[c].job.key in s.up
    ensures Inv(Return(s, c, Started))
  {
    var t := Return(s, c, Started);
    SpawnerIsAlone(s, c);
    ReturnKeepsLocks(s, c, Started);
    forall k: Key ensures OneStart(t, k) && Ledger(t, k) {
      assert OneStart(s, k) && Ledger(s, k);
      ReturnCounts(s, c, Started, k);
      if k == s.callers[c].job.key {
        forall d | 0 <= d < |t.callers| && t.callers[d].job.key == k ensures !MaySpawn(t.callers[d]) {
          if d != c { assert t.callers[d] == s.callers[d]; }
        }
      }
    }
  }

  lemma GiveUpKeeps(s: State, c: nat)
    requires Inv(s) && c < |s.callers| && HasSpawned(s.callers[c])
    ensures Inv(GiveUp(s, c))
  {
    var m := Note(s, c, StartFailed);
    var t := GiveUp(s, c);
    SpawnerIsAlone(s, c);
    ReturnKeepsLocks(m, c, Failed);
    forall k: Key ensures OneStart(t, k) && Ledger(t, k) {
      assert OneStart(s, k) && Ledger(s, k);
      CountNote(s, c, StartFailed, k, Spawn);
      CountNote(s, c, StartFailed, k, StartFailed);
      CountNote(s, c, StartFailed, k, End(Started));
      ReturnCounts(m, c, Failed, k);
    }
  }

  lemma SpawnUnderway(s: State, c: nat, k: Key)
    requires LocksHeld(s) && c < |s.callers| && s.callers[c].Spawning?
    requires LocksHeld(Move(Note(s, c, Spawn), c, Checking(s.callers[c].job)))
    ensures Underway(Move(Note(s, c, Spawn), c, Checking(s.callers[c].job)), k)
         == Underway(s, k) + if s.callers[c].job.key == k then 1 else 0
  {
    var t := Move(Note(s, c, Spawn), c, Checking(s.callers[c].job));
    assert t.locks == s.locks;
    if k in s.locks && s.locks[k] != c {
      assert t.callers[s.locks[k]] == s.callers[s.locks[k]];
    }
  }

  lemma SpawnCounts(s: State, c: nat, k: Key)
    requires LocksHeld(s) && c < |s.callers| && s.callers[c].Spawning?
    requires LocksHeld(Move(Note(s, c, Spawn), c, Checking(s.callers[c].job)))
    ensures
      var t := Move(Note(s, c, Spawn), c, Checking(s.callers[c].job));
      var more := if s.callers[c].job.key == k then 1 else 0;
      && Count(t.log, k, Spawn) == Count(s.log, k, Spawn) + more
      && Count(t.log, k, StartFailed) == Count(s.log, k, StartFailed)
      && Count(t.log, k, End(Started)) == Count(s.log, k, End(Started))
      && Underway(t, k) == Underway(s, k) + more
  {
    SpawnUnderway(s, c, k);
    assert Move(Note(s, c, Spawn), c, Checking(s.callers[c].job)).log == Note(s, c, Spawn).log;
    CountNote(s, c, Spawn, k, Spawn);
    CountNote(s, c, Spawn, k, StartFailed);
    CountNote(s, c, Spawn, k, End(Started));
  }

  lemma SpawnKeeps(s: State, c: nat)
    requires Inv(s) && c < |s.callers| && s.callers[c].Spawning?
    ensures Inv(Move(Note(s, c, Spawn), c, Checking(s.callers[c].job)))
  {
    var m := Note(s, c, Spawn);
    var t := Move(m, c, Checking(s.callers[c].job));
    SpawnerIsAlone(s, c);
    MoveKeepsLocks(m, c, Checking(s.callers[c].job));
    forall k: Key ensures OneStart(t, k) && Ledger(t, k) {
      assert OneStart(s, k) && Ledger(s, k);
      SpawnCounts(s, c, k);
    }
  }

  lemma TakeLockKeeps(s: State, c: nat)
    requires Inv(s) && Enabled(s, TakeLock(c))
    ensures Inv(Exec(s, TakeLock(c)))
  {
    var t := Exec(s, TakeLock(c));
    assert LocksHeld(t);
    forall k: Key ensures OneStart(t, k) && Ledger(t, k) {
      assert OneStart(s, k) && Ledger(s, k);
    }
  }

  lemma EnvironmentKeeps(s: State, st: Step)
    requires Inv(s) && (st.ServerReady? || st.Arrive?)
    ensures Inv(Exec(s, st))
  {
    var t := Exec(s, st);
    assert LocksHeld(t);
    forall k: Key ensures OneStart(t, k) && Ledger(t, k) {
      assert OneStart(s, k) && Ledger(s, k);
    }
  }

  lemma ExistingKeeps(s: State, c: nat, a: Answer, next: Pc)
    requires Inv(s) && c < |s.callers| && !HasSpawned(s.callers[c])
    requires next.job == s.callers[c].job && InLock(next) == InLock(s.callers[c]) && !HasSpawned(next) && !Probing(next)
    requires a.Unavailable? && MaySpawn(next) ==> MaySpawn(s.callers[c])
    ensures Inv(Existing(s, c, a, next))
  {
    if a.Unavailable? {
      MoveKeeps(s, c, next);
    } else {
      ReturnKeeps(s, c, if a.Conflict? then Failed else if s.callers[c].job.reuseExisting then Reused else Refused);
    }
  }

  lemma StepKeepsInv(s: State, st: Step)
    requires Inv(s) && Enabled(s, st)
    ensures Inv(Exec(s, st))
  {
    match st
    case ServerReady(_) => EnvironmentKeeps(s, st);
    case Arrive(_) => EnvironmentKeeps(s, st);
    case ProbeStarts(c) =>
      var pc := s.callers[c];
      var seen := pc.job.key in s.up;
      MoveKeeps(s, c, if pc.Begin? then FirstProbe(pc.job, seen)
                      else if pc.Holding? then SecondProbe(pc.job, seen)
                      else ReadyProbe(pc.job, seen));
    case ProbeEnds(c, a) =>
      var pc := s.callers[c];
      if pc.FirstProbe? { ExistingKeeps(s, c, a, Queued(pc.job)); }
      else if pc.SecondProbe? { ExistingKeeps(s, c, a, Spawning(pc.job)); }
      else if a.Reachable? { StartedKeeps(s, c); }
      else if a.Unavailable? { MoveKeeps(s, c, Waiting(pc.job)); }
      else { GiveUpKeeps(s, c); }
    case TakeLock(c) => TakeLockKeeps(s, c);
    case SpawnProcess(c, ok) => if ok { SpawnKeeps(s, c); } else { ReturnKeeps(s, c, Failed); }
    case ChildExits(c) => GiveUpKeeps(s, c);
    case DeadlinePasses(c) => GiveUpKeeps(s, c);
    case Sleep(c) => MoveKeeps(s, c, Checking(s.callers[c].job));
  }

  lemma {:induction false} InvAlways(steps: seq<Step>)
    requires After(INIT, steps).Some?
    ensures Inv(After(INIT, steps).value)
  {
    if steps != [] {
      var front := steps[..|steps| - 1];
      InvAlways(front);
      StepKeepsInv(After(INIT, front).value, steps[|steps| - 1]);
    }
  }

  // ----- what callers can rely on

  /** However starters of one target interleave, they spawn at most one process
      more than starts that failed after spawning, and at most one of them
      reports a new server. */
  lemma AtMostOneServer(steps: seq<Step>, k: Key)
    requires After(INIT, steps).Some?
    ensures
      var log := After(INIT, steps).value.log;
      && Count(log, k, End(Started)) <= 1
      && Count(log, k, End(Started)) + Count(log, k, StartFailed) <= Count(log, k, Spawn)
          <= 1 + Count(log, k, StartFailed)
  {
    var s := After(INIT, steps).value;
    InvAlways(steps);
    assert OneStart(s, k) && Ledger(s, k);
    if Count(s.log, k, End(Started)) == 1 && k in s.locks {
      assert !MaySpawn(s.callers[s.locks[k]]);
    }
  }

  /** Once a new server is reported, nothing more is spawned for its target,
      no start of it fails, and none is reported again: every later success
      reports reuse. */
  predicate QuietAfterStart(log: seq<Entry>) {
    forall i, j :: 0 <= i < j < |log| && log[i].what == End(Started) && log[j].job.key == log[i].job.key ==>
      log[j].what.End? && !log[j].what.outcome.Started?
  }

  lemma {:induction false} CountsFirst(log: seq<Entry>, k: Key, i: nat)
    requires i < |log| && log[i].job.key == k && log[i].what == End(Started)
    ensures Count(log, k, End(Started)) >= 1
  {
    if i < |log| - 1 { CountsFirst(log[..|log| - 1], k, i); }
  }

  lemma NoteStaysQuiet(s: State, c: nat, what: What)
    requires QuietAfterStart(s.log) && c < |s.callers|
    requires (what.End? && !what.outcome.Started?) || Count(s.log, s.callers[c].job.key, End(Started)) == 0
    ensures QuietAfterStart(Note(s, c, what).log)
  {
    var log := Note(s, c, what).log;
    forall i, j | 0 <= i < j < |log| && log[i].what == End(Started) && log[j].job.key == log[i].job.key
      ensures log[j].what.End? && !log[j].what.outcome.Started?
    {
      if j == |s.log| { CountsFirst(s.log, s.callers[c].job.key, i); }
    }
  }

  lemma StepStaysQuiet(s: State, st: Step)
    requires Inv(s) && QuietAfterStart(s.log) && Enabled(s, st)
    ensures QuietAfterStart(Exec(s, st).log)
  {
    match st
    case ProbeEnds(c, a) =>
      var pc := s.callers[c];
      if pc.ReadyProbe? {
        SpawnerIsAlone(s, c);
        if a.Reachable? { NoteStaysQuiet(s, c, End(Started)); }
        else if a.Conflict? { GiveUpStaysQuiet(s, c); }
      } else if !a.Unavailable? {
        NoteStaysQuiet(s, c, End(if a.Conflict? then Failed else if pc.job.reuseExisting then Reused else Refused));
      }
    case SpawnProcess(c, ok) =>
      SpawnerIsAlone(s, c);
      NoteStaysQuiet(s, c, if ok then Spawn else End(Failed));
    case ChildExits(c) => GiveUpStaysQuiet(s, c);
    case DeadlinePasses(c) => GiveUpStaysQuiet(s, c);
    case _ =>
  }

  lemma GiveUpStaysQuiet(s: State, c: nat)
    requires Inv(s) && QuietAfterStart(s.log) && c < |s.callers| && HasSpawned(s.callers[c])
    ensures QuietAfterStart(GiveUp(s, c).log)
  {
    SpawnerIsAlone(s, c);
    NoteStaysQuiet(s, c, StartFailed);
    NoteStaysQuiet(Note(s, c, StartFailed), c, End(Failed));
  }

  lemma {:induction false} LaterStartsReuse(steps: seq<Step>)
    requires After(INIT, steps).Some?
    ensures QuietAfterStart(After(INIT, steps).value.log)
  {
    if steps != [] {
      var front := steps[..|steps| - 1];
      LaterStartsReuse(front);
      InvAlways(front);
      StepStaysQuiet(After(INIT, front).value, steps[|steps| - 1]);
    }
  }

  /** Reuse is reported only to those who allow it. */
  predicate ReuseIsAllowed(s: State) {
    forall i :: 0 <= i < |s.log| && s.log[i].what == End(Reused) ==> s.log[i].job.reuseExisting
  }

  lemma {:induction false} ReusedAllowed(steps: seq<Step>)
    requires After(INIT, steps).Some?
    ensures ReuseIsAllowed(After(INIT, steps).value)
  {
    if steps != [] {
      var front := steps[..|steps| - 1];
      ReusedAllowed(front);
      assert ReuseIsAllowed(After(INIT, front).value);
    }
  }

  lemma {:induction false} NoReuse(log: seq<Entry>, k: Key)
    requires forall i :: 0 <= i < |log| && log[i].job.key == k ==> log[i].what != End(Reused)
    ensures Count(log, k, End(Reused)) == 0
  {
    if log != [] { NoReuse(log[..|log| - 1], k); }
  }

  /** If nobody allows reuse for a target, at most one call for it succeeds. */
  lemma AtMostOneSuccessWithoutReuse(steps: seq<Step>, k: Key)
    requires After(INIT, steps).Some?
    requires forall e :: e in After(INIT, steps).value.log && e.job.key == k ==> !e.job.reuseExisting
    ensures var log := After(INIT, steps).value.log;
      Count(log, k, End(Started)) + Count(log, k, End(Reused)) <= 1
  {
    var log := After(INIT, steps).value.log;
    AtMostOneServer(steps, k);
    ReusedAllowed(steps);
    forall i | 0 <= i < |log| && log[i].job.key == k ensures log[i].what != End(Reused) {
      assert log[i] in log;
    }
    NoReuse(log, k);
  }

  /** A caller that has not begun its first probe when the server is up ends
      with reuse if it allows it, and is refused if not. */
  predicate Latecomer(pc: Pc) {
    || pc.Begin? || (pc.FirstProbe? && pc.seen)
    || (pc.Done? && pc.outcome == if pc.job.reuseExisting then Reused else Refused)
  }

  /** What a step does to other callers. */
  lemma OthersStay(s: State, st: Step, c: nat)
    requires Enabled(s, st) && c < |s.callers|
    requires st.ServerReady? || st.Arrive? || st.c != c
    ensures var t := Exec(s, st); c < |t.callers| && t.callers[c] == s.callers[c] && s.up <= t.up
  {
  }

  lemma LatecomerStays(s: State, st: Step, c: nat)
    requires Enabled(s, st) && c < |s.callers| && s.callers[c].job.key in s.up && Latecomer(s.callers[c])
    ensures
      var t := Exec(s, st);
      && c < |t.callers| && t.callers[c].job == s.callers[c].job
      && t.callers[c].job.key in t.up && Latecomer(t.callers[c])
  {
    if st.ServerReady? || st.Arrive? || st.c != c {
      OthersStay(s, st, c);
    } else if st.ProbeEnds? {
      assert s.callers[c].FirstProbe? && st.answer.Reachable?;
    }
  }

  lemma {:induction false} LatecomersFindTheServer(s: State, steps: seq<Step>, c: nat)
    requires After(s, steps).Some? && c < |s.callers| && s.callers[c].Begin? && s.callers[c].job.key in s.up
    ensures
      var t := After(s, steps).value;
      && c < |t.callers| && t.callers[c].job == s.callers[c].job
      && t.callers[c].job.key in t.up && Latecomer(t.callers[c])
  {
    if steps != [] {
      var front := steps[..|steps| - 1];
      LatecomersFindTheServer(s, front, c);
      LatecomerStays(After(s, front).value, steps[|steps| - 1], c);
    }
  }

  // ----- a start can succeed, and every call can end

  lemma OneStep(s: State, st: Step)
    requires Enabled(s, st)
    ensures After(s, [st]) == Some(Exec(s, st))
  {
    assert [st][..0] == [];
  }

  lemma {:induction false} AfterBoth(s: State, front: seq<Step>, t: State, back: seq<Step>)
    requires After(s, front) == Some(t)
    ensures After(s, front + back) == After(t, back)
    decreases |back|
  {
    if back == [] {
      assert front + back == front;
    } else {
      var init := back[..|back| - 1];
      AfterBoth(s, front, t, init);
      assert (front + back)[..|front + back| - 1] == front + init;
    }
  }

  lemma TwoSteps(s: State, st: Step, next: Step)
    requires Enabled(s, st) && Enabled(Exec(s, st), next)
    ensures After(s, [st] + [next]) == Some(Exec(Exec(s, st), next))
  {
    OneStep(s, st);
    OneStep(Exec(s, st), next);
    AfterBoth(s, [st], Exec(s, st), [next]);
  }

  /** A probe, from its start to an answer that it may give. */
  lemma ProbeAnswers(s: State, c: nat, a: Answer) returns (t: State)
    requires c < |s.callers| && (s.callers[c].Begin? || s.callers[c].Holding? || s.callers[c].Checking?)
    requires a.Reachable? <==> s.callers[c].job.key in s.up
    ensures After(s, [ProbeStarts(c)] + [ProbeEnds(c, a)]) == Some(t)
    ensures t.up == s.up
    ensures a.Unavailable? ==>
              && t.locks == s.locks && t.log == s.log
              && t.callers == s.callers[c := var job := s.callers[c].job;
                                             if s.callers[c].Begin? then Queued(job)
                                             else if s.callers[c].Holding? then Spawning(job)
                                             else Waiting(job)]
  {
    TwoSteps(s, ProbeStarts(c), ProbeEnds(c, a));
    t := Exec(Exec(s, ProbeStarts(c)), ProbeEnds(c, a));
  }

  /** A new caller finds no server and nobody starting one: it gets hold of the
      lock and comes to spawn a process. */
  lemma ComesToSpawn(s: State, job: Job) returns (steps: seq<Step>, t: State)
    requires job.key !in s.locks && job.key !in s.up
    ensures After(s, steps) == Some(t) && steps != [] && steps[0] == Arrive(job)
    ensures t == s.(callers := s.callers + [Spawning(job)], locks := s.locks[job.key := |s.callers|])
  {
    var c := |s.callers|;
    var a := Exec(s, Arrive(job));
    OneStep(s, Arrive(job));
    var probe := [ProbeStarts(c)] + [ProbeEnds(c, Unavailable)];
    var b := ProbeAnswers(a, c, Unavailable);
    assert b == s.(callers := s.callers + [Queued(job)]);
    AfterBoth(s, [Arrive(job)], a, probe);
    var d := Exec(b, TakeLock(c));
    OneStep(b, TakeLock(c));
    AfterBoth(s, [Arrive(job)] + probe, b, [TakeLock(c)]);
    t := ProbeAnswers(d, c, Unavailable);
    steps := [Arrive(job)] + probe + [TakeLock(c)] + probe;
    AfterBoth(s, [Arrive(job)] + probe + [TakeLock(c)], d, probe);
    assert t.callers == s.callers + [Spawning(job)];
  }

  /** The process it spawns answers: the call reports a start and lets go of
      the lock. */
  lemma SpawnedServerIsReported(s: State, c: nat) returns (steps: seq<Step>, t: State)
    requires c < |s.callers| && s.callers[c].Spawning?
    ensures After(s, steps) == Some(t)
    ensures
      var job := s.callers[c].job;
      && t.callers == s.callers[c := Done(job, Started)] && t.locks == s.locks - {job.key} && t.up == s.up + {job.key}
      && t.log == s.log + [Entry(c, job, Spawn)] + [Entry(c, job, End(Started))]
  {
    var job := s.callers[c].job;
    var first := [SpawnProcess(c, true)] + [ServerReady(job.key)];
    var second := [ProbeStarts(c)] + [ProbeEnds(c, Reachable)];
    TwoSteps(s, SpawnProcess(c, true), ServerReady(job.key));
    var b := Exec(Exec(s, SpawnProcess(c, true)), ServerReady(job.key));
    TwoSteps(b, ProbeStarts(c), ProbeEnds(c, Reachable));
    t := Exec(Exec(b, ProbeStarts(c)), ProbeEnds(c, Reachable));
    steps := first + second;
    AfterBoth(s, first, b, second);
  }

  /** Where no server is up and nobody is starting one, a new call can start
      one: it spawns one process, reports the start and frees the lock. */
  lemma StartCanSucceed(s: State, job: Job) returns (steps: seq<Step>, t: State)
    requires job.key !in s.locks && job.key !in s.up
    ensures After(s, steps) == Some(t) && steps != [] && steps[0] == Arrive(job)
    ensures t.callers == s.callers + [Done(job, Started)] && t.locks == s.locks && t.up == s.up + {job.key}
    ensures t.log == s.log + [Entry(|s.callers|, job, Spawn)] + [Entry(|s.callers|, job, End(Started))]
  {
    var first, a := ComesToSpawn(s, job);
    var second, u := SpawnedServerIsReported(a, |s.callers|);
    t := u;
    steps := first + second;
    AfterBoth(s, first, a, second);
    assert t.locks == s.locks && t.callers == s.callers + [Done(job, Started)];
  }

  /** A caller that probes can be answered so that its call ends. */
  lemma ProbeCanEnd(s: State, c: nat) returns (st: Step)
    requires SeenIsUp(s) && c < |s.callers| && Probing(s.callers[c])
    ensures Enabled(s, st) && Exec(s, st).callers[c].Done? && |Exec(s, st).callers| == |s.callers|
    ensures Exec(s, st).up == s.up
    ensures Exec(s, st).locks == if InLock(s.callers[c]) then s.locks - {s.callers[c].job.key} else s.locks
    ensures forall d :: 0 <= d < |s.callers| && d != c ==> Exec(s, st).callers[d] == s.callers[d]
  {
    st := ProbeEnds(c, if s.callers[c].seen then Reachable else Conflict);
  }

  /** Caller `c`'s call has ended, with the lock it may have held free, and
      the others are where they were. */
  predicate EndedFor(s: State, t: State, c: nat)
    requires c < |s.callers|
  {
    && |t.callers| == |s.callers| && t.callers[c].Done? && t.up == s.up
    && (forall d :: 0 <= d < |s.callers| && d != c ==> t.callers[d] == s.callers[d])
    && t.locks == if InLock(s.callers[c]) then s.locks - {s.callers[c].job.key} else s.locks
  }

  lemma ProbeThenEnd(s: State, c: nat) returns (steps: seq<Step>, t: State)
    requires SeenIsUp(s) && c < |s.callers|
    requires s.callers[c].Begin? || s.callers[c].Holding? || s.callers[c].Checking?
    ensures After(s, steps) == Some(t) && EndedFor(s, t, c)
  {
    var a := Exec(s, ProbeStarts(c));
    var st := ProbeCanEnd(a, c);
    TwoSteps(s, ProbeStarts(c), st);
    steps := [ProbeStarts(c)] + [st];
    t := Exec(a, st);
  }

  /** Whoever does not wait for the lock can end its call by itself. */
  lemma HolderCanEnd(s: State, c: nat) returns (steps: seq<Step>, t: State)
    requires SeenIsUp(s) && c < |s.callers| && !s.callers[c].Queued? && !s.callers[c].Done?
    ensures After(s, steps) == Some(t) && EndedFor(s, t, c)
  {
    var pc := s.callers[c];
    if pc.Begin? || pc.Holding? || pc.Checking? {
      steps, t := ProbeThenEnd(s, c);
    } else {
      var st: Step;
      if Probing(pc) {
        st := ProbeCanEnd(s, c);
      } else {
        st := if pc.Spawning? then SpawnProcess(c, false) else DeadlinePasses(c);
      }
      OneStep(s, st);
      steps, t := [st], Exec(s, st);
    }
  }

  /** From every state of every run every call can still end: whoever holds
      the lock it waits for can end first and lets go. */
  lemma EveryCallCanEnd(s: State, c: nat) returns (steps: seq<Step>, t: State)
    requires Inv(s) && c < |s.callers| && !s.callers[c].Done?
    ensures After(s, steps) == Some(t) && c < |t.callers| && t.callers[c].Done?
  {
    if !s.callers[c].Queued? {
      steps, t := HolderCanEnd(s, c);
    } else {
      var key := s.callers[c].job.key;
      var first, a := [], s;
      if key in s.locks { first, a := HolderCanEnd(s, s.locks[key]); }
      var b := Exec(a, TakeLock(c));
      OneStep(a, TakeLock(c));
      AfterBoth(s, first, a, [TakeLock(c)]);
      var last, u := ProbeThenEnd(b, c);
      t := u;
      steps := first + [TakeLock(c)] + last;
      AfterBoth(s, first + [TakeLock(c)], b, last);
    }
  }

  /** What the answer to each probe leads to. */
  lemma ProbeDecides(s: State, c: nat, a: Answer)
    requires Enabled(s, ProbeEnds(c, a))
    ensures
      var pc, t := s.callers[c], Exec(s, ProbeEnds(c, a)).callers[c];
      match a
      case Reachable =>
        t == Done(pc.job, if pc.ReadyProbe? then Started else if pc.job.reuseExisting then Reused else Refused)
      case Unavailable =>
        t == if pc.FirstProbe? then Queued(pc.job) else if pc.SecondProbe? then Spawning(pc.job) else Waiting(pc.job)
      case Conflict => t == Done(pc.job, Failed)
  {
  }

  /** What the other steps of a caller lead to. */
  lemma StepDecides(s: State, c: nat, st: Step)
    requires Enabled(s, st) && c < |s.callers|
    ensures
      var job := s.callers[c].job;
      && (st == SpawnProcess(c, true) ==> Exec(s, st).callers[c] == Checking(job))
      && (st == SpawnProcess(c, false) || st == ChildExits(c) || st == DeadlinePasses(c) ==>
            Exec(s, st).callers[c] == Done(job, Failed))
      && (st == Sleep(c) ==> Exec(s, st).callers[c] == Checking(job))
      && (st == TakeLock(c) ==> Exec(s, st).callers[c] == Holding(job) && Exec(s, st).locks == s.locks[job.key := c])
  {
  }
}
