/**
 The search on several threads, step by step: workers that share a flag, a progress
 counter and a channel, and the thread that spawns them and waits. Every interleaving
 is a run, and a relaxed load of the flag may miss a store that has happened.
 */
module PowParallel {
  import opened Common
  import opened Pow

  /** Where a worker stands in its loop. */
  datatype Worker =
    | Unspawned
    | Looping                      // about to load the flag
    | Hashing                      // about to try a nonce
    | Missed                       // no proof, about to count the hash
    | Hit(proof: PowProof)         // a proof, about to count the hash
    | Counted(proof: PowProof)     // about to raise the flag
    | Announced(proof: PowProof)   // about to send
    | Exited                       // its sender is gone

  /** Where the calling thread stands. */
  datatype Main =
    | Spawning(next: nat)
    | Waiting                      // its own sender is dropped, about to receive
    | Panicked                     // received from an empty channel without senders
    | Joining(proof: PowProof)
    | Returned(proof: PowProof)

  /** `hashes` counts the digests computed so far by all workers together. */
  datatype System = System(
    main: Main, workers: seq<Worker>, found: bool, channel: seq<PowProof>, attempts: nat, hashes: nat)

  /** A step of the calling thread, or of worker `w`, with the nonce it would draw and whether its load is stale. */
  datatype Action = Call | Work(w: nat, nonce: bytes, stale: bool)

  predicate AllExited(workers: seq<Worker>) {
    forall i :: 0 <= i < |workers| ==> workers[i].Exited?
  }

  predicate Initial(s: System, threads: nat, start: nat) {
    && s.main == Spawning(0) && |s.workers| == threads
    && (forall i :: 0 <= i < threads ==> s.workers[i].Unspawned?)
    && !s.found && s.channel == [] && s.attempts == start && s.hashes == 0
  }

  /** The calling thread's next step; `None` while it blocks or after it has returned. */
  function CallStep(s: System): Option<System> {
    match s.main
    case Spawning(k) =>
      if k < |s.workers| then Some(s.(main := Spawning(k + 1), workers := s.workers[k := Looping]))
      else Some(s.(main := Waiting))
    case Waiting =>
      if s.channel != [] then Some(s.(main := Joining(s.channel[0]), channel := s.channel[1..]))
      else if AllExited(s.workers) then Some(s.(main := Panicked))
      else None
    case Joining(proof) => if AllExited(s.workers) then Some(s.(main := Returned(proof))) else None
    case Panicked => None
    case Returned(_) => None
  }

  function WorkStep(p: Puzzle, s: System, w: nat, nonce: bytes, stale: bool): Option<System>
    requires DigestOf(p, nonce).Some?
  {
    if w >= |s.workers| then None
    else
      match s.workers[w]
      case Unspawned => None
      case Looping => Some(s.(workers := s.workers[w := if s.found && !stale then Exited else Hashing]))
      case Hashing =>
        var r := TryOne(p, nonce);
        Some(s.(workers := s.workers[w := if r.Some? then Hit(r.value) else Missed], hashes := s.hashes + 1))
      case Missed => Some(s.(workers := s.workers[w := Looping], attempts := (s.attempts + 1) % U64))
      case Hit(proof) => Some(s.(workers := s.workers[w := Counted(proof)], attempts := (s.attempts + 1) % U64))
      case Counted(proof) => Some(s.(workers := s.workers[w := Announced(proof)], found := true))
      case Announced(proof) => Some(s.(workers := s.workers[w := Exited], channel := s.channel + [proof]))
      case Exited => None
  }

  ghost predicate Next(p: Puzzle, s: System, a: Action, s': System)
    requires Usable(p)
  {
    match a
    case Call => CallStep(s) == Some(s')
    case Work(w, nonce, stale) => WorkStep(p, s, w, nonce, stale) == Some(s')
  }

  ghost predicate IsRun(p: Puzzle, run: seq<System>, actions: seq<Action>)
    requires Usable(p)
  {
    |run| == |actions| + 1 && forall i :: 0 <= i < |actions| ==> Next(p, run[i], actions[i], run[i + 1])
  }

  // ----- what every step keeps -----

  function One(w: Worker): nat { if w.Missed? || w.Hit? then 1 else 0 }

  /** Hashes done but not counted yet. */
  function Pending(workers: seq<Worker>): nat {
    if workers == [] then 0 else One(workers[0]) + Pending(workers[1..])
  }

  lemma {:induction false} PendingUpdate(workers: seq<Worker>, i: nat, w: Worker)
    requires i < |workers|
    ensures Pending(workers[i := w]) == Pending(workers) - One(workers[i]) + One(w)
    ensures Pending(workers) >= One(workers[i])
  {
    if i == 0 {
      assert workers[0 := w][1..] == workers[1..];
    } else {
      PendingUpdate(workers[1..], i - 1, w);
      assert workers[i := w][1..] == workers[1..][i - 1 := w];
    }
  }

  lemma {:induction false} NonePending(workers: seq<Worker>)
    requires forall i :: 0 <= i < |workers| ==> One(workers[i]) == 0
    ensures Pending(workers) == 0
  {
    if workers != [] {
      NonePending(workers[1..]);
    }
  }

  predicate Holds(w: Worker) { w.Hit? || w.Counted? || w.Announced? }

  ghost predicate ProofsMeet(p: Puzzle, s: System) {
    && (forall i :: 0 <= i < |s.workers| && Holds(s.workers[i]) ==> Meets(p, s.workers[i].proof))
    && (forall i :: 0 <= i < |s.channel| ==> Meets(p, s.channel[i]))
    && (s.main.Joining? || s.main.Returned? ==> Meets(p, s.main.proof))
  }

  /** Once the flag is up a proof has been received, waits in the channel, or is about to be sent. */
  predicate FlagIsBacked(s: System) {
    s.found ==>
      || s.main.Joining? || s.main.Returned?
      || s.channel != []
      || exists i :: 0 <= i < |s.workers| && s.workers[i].Announced?
  }

  /** A worker that exits, or is about to send, has seen or raised the flag. */
  predicate FlagIsUp(s: System) {
    forall i :: 0 <= i < |s.workers| && (s.workers[i].Exited? || s.workers[i].Announced?) ==> s.found
  }

  predicate SpawnedInOrder(s: System) {
    && (s.main.Spawning? ==> s.main.next <= |s.workers|)
    && forall i :: 0 <= i < |s.workers| ==> (s.workers[i].Unspawned? <==> s.main.Spawning? && i >= s.main.next)
  }

  /** The counter lags behind the hashes by just the ones not counted yet. */
  predicate CountIsExact(s: System, start: nat) {
    s.hashes >= Pending(s.workers) && s.attempts == (start + (s.hashes - Pending(s.workers))) % U64
  }

  predicate ReturnsLast(s: System) {
    (s.main.Returned? ==> AllExited(s.workers)) && !s.main.Panicked?
  }

  ghost predicate Inv(p: Puzzle, s: System, start: nat) {
    && |s.workers| > 0 && start < U64
    && ProofsMeet(p, s) && FlagIsBacked(s) && FlagIsUp(s) && SpawnedInOrder(s) && CountIsExact(s, start) &&
      ReturnsLast(s)
  }

  lemma InitialInv(p: Puzzle, s: System, threads: nat, start: nat)
    requires Initial(s, threads, start) && threads > 0 && start < U64
    ensures Inv(p, s, start)
  {
    NonePending(s.workers);
  }

  lemma CallKeepsInv(p: Puzzle, s: System, start: nat, s': System)
    requires Inv(p, s, start) && CallStep(s) == Some(s')
    ensures Inv(p, s', start)
  {
    hide Meets;
    if s.main.Spawning? && s.main.next < |s.workers| {
      PendingUpdate(s.workers, s.main.next, Looping);
      if i :| 0 <= i < |s.workers| && s.workers[i].Announced? {
        assert s'.workers[i].Announced?;
      }
    }
  }

  lemma WorkKeepsCount(p: Puzzle, s: System, start: nat, w: nat, nonce: bytes, stale: bool, s': System)
    requires DigestOf(p, nonce).Some? && WorkStep(p, s, w, nonce, stale) == Some(s') && CountIsExact(s, start)
    ensures CountIsExact(s', start)
  {
    hide TryOne;
    PendingUpdate(s.workers, w, s'.workers[w]);
    assert s'.workers == s.workers[w := s'.workers[w]];
    WrapStep(start, s.hashes - Pending(s.workers));
  }

  lemma WorkKeepsProofs(p: Puzzle, s: System, w: nat, nonce: bytes, stale: bool, s': System)
    requires Usable(p) && WorkStep(p, s, w, nonce, stale) == Some(s') && ProofsMeet(p, s)
    ensures ProofsMeet(p, s')
  {
    hide Meets, TryOne, Usable;
    TryOneMeets(p, nonce);
  }

  lemma WorkKeepsFlag(p: Puzzle, s: System, w: nat, nonce: bytes, stale: bool, s': System)
    requires DigestOf(p, nonce).Some? && WorkStep(p, s, w, nonce, stale) == Some(s')
    requires FlagIsBacked(s) && FlagIsUp(s) && SpawnedInOrder(s) && ReturnsLast(s)
    ensures FlagIsBacked(s') && FlagIsUp(s') && SpawnedInOrder(s') && ReturnsLast(s')
  {
    hide TryOne;
    if i :| 0 <= i < |s.workers| && s.workers[i].Announced? {
      assert i != w ==> s'.workers[i].Announced?;
    }
    if s.workers[w].Counted? {
      assert s'.workers[w].Announced?;
    }
  }

  lemma StepKeepsInv(p: Puzzle, s: System, start: nat, a: Action, s': System)
    requires Usable(p) && Inv(p, s, start) && Next(p, s, a, s')
    ensures Inv(p, s', start)
  {
    hide Usable, ProofsMeet, FlagIsBacked, FlagIsUp, SpawnedInOrder, CountIsExact, ReturnsLast, TryOne, CallStep;
    match a {
      case Call => CallKeepsInv(p, s, start, s');
      case Work(w, nonce, stale) =>
        assert DigestOf(p, nonce).Some? by { UsableAt(p, nonce); }
        WorkKeepsCount(p, s, start, w, nonce, stale, s');
        WorkKeepsProofs(p, s, w, nonce, stale, s');
        WorkKeepsFlag(p, s, w, nonce, stale, s');
    }
  }

  lemma UsableAt(p: Puzzle, nonce: bytes)
    requires Usable(p)
    ensures DigestOf(p, nonce).Some?
  {
  }

  lemma {:induction false} RunKeepsInv(p: Puzzle, run: seq<System>, actions: seq<Action>, threads: nat, start: nat,
      i: nat)
    requires Usable(p) && IsRun(p, run, actions) && Initial(run[0], threads, start) && threads > 0 && start < U64
    requires i < |run|
    ensures Inv(p, run[i], start)
  {
    hide Inv, Initial, Next, Usable;
    if i == 0 {
      InitialInv(p, run[0], threads, start);
    } else {
      RunKeepsInv(p, run, actions, threads, start, i - 1);
      assert Next(p, run[i - 1], actions[i - 1], run[i]);
      StepKeepsInv(p, run[i - 1], start, actions[i - 1], run[i]);
    }
  }

  // ----- every interleaving -----

  /** Waiting for a proof never finds the channel empty with all senders gone. */
  lemma ReceiveNeverFails(p: Puzzle, run: seq<System>, actions: seq<Action>, threads: nat, start: nat, i: nat)
    requires Usable(p) && IsRun(p, run, actions) && Initial(run[0], threads, start) && threads > 0 && start < U64
    requires i < |run|
    ensures !run[i].main.Panicked?
    ensures run[i].main.Waiting? ==> run[i].channel != [] || !AllExited(run[i].workers)
  {
    hide Initial, Next, Usable, Meets, CountIsExact, ProofsMeet;
    RunKeepsInv(p, run, actions, threads, start, i);
    var s := run[i];
    if s.main.Waiting? && AllExited(s.workers) {
      assert s.workers[0].Exited?;
    }
  }

  /** What is returned meets the difficulty, and by then every hash of every worker has been counted. */
  lemma ReturnIsExact(p: Puzzle, run: seq<System>, actions: seq<Action>, threads: nat, start: nat, i: nat)
    requires Usable(p) && IsRun(p, run, actions) && Initial(run[0], threads, start) && threads > 0 && start < U64
    requires i < |run| && run[i].main.Returned?
    ensures Meets(p, run[i].main.proof)
    ensures run[i].attempts == (start + run[i].hashes) % U64
  {
    hide Initial, Next, Usable, Meets;
    RunKeepsInv(p, run, actions, threads, start, i);
    NonePending(run[i].workers);
  }

  /** No run gets stuck before it returns: the caller or some worker can always step. */
  lemma NoDeadlock(p: Puzzle, run: seq<System>, actions: seq<Action>, threads: nat, start: nat, i: nat, nonce: bytes)
    requires Usable(p) && IsRun(p, run, actions) && Initial(run[0], threads, start) && threads > 0 && start < U64
    requires i < |run| && !run[i].main.Returned?
    ensures CallStep(run[i]).Some? || exists w: nat :: WorkStep(p, run[i], w, nonce, false).Some?
  {
    hide Initial, Next, Meets, CountIsExact, ProofsMeet;
    RunKeepsInv(p, run, actions, threads, start, i);
    var s := run[i];
    if CallStep(s).None? {
      var w :| 0 <= w < |s.workers| && !s.workers[w].Exited?;
      assert WorkStep(p, s, w, nonce, false).Some?;
    }
  }

  // ----- stopping -----

  /** How many steps a worker has left once the flag is up. */
  function Left(w: Worker): nat {
    match w
    case Unspawned => 2
    case Looping => 1
    case Hashing => 5
    case Missed => 2
    case Hit(_) => 3
    case Counted(_) => 2
    case Announced(_) => 1
    case Exited => 0
  }

  function AllLeft(workers: seq<Worker>): nat {
    if workers == [] then 0 else Left(workers[0]) + AllLeft(workers[1..])
  }

  lemma {:induction false} LeftUpdate(workers: seq<Worker>, i: nat, w: Worker)
    requires i < |workers|
    ensures AllLeft(workers[i := w]) == AllLeft(workers) - Left(workers[i]) + Left(w)
  {
    if i == 0 {
      assert workers[0 := w][1..] == workers[1..];
    } else {
      LeftUpdate(workers[1..], i - 1, w);
      assert workers[i := w][1..] == workers[1..][i - 1 := w];
    }
  }

  /** How far a system whose flag is up is from its end. */
  function Distance(s: System): nat {
    AllLeft(s.workers) + match s.main
      case Spawning(_) => 3
      case Waiting => 2
      case Joining(_) => 1
      case _ => 0
  }

  /** Every step after the flag is up, whoever makes it, brings the end nearer; a load that misses it costs five. */
  lemma EveryStepNearsTheEnd(p: Puzzle, s: System, a: Action, s': System)
    requires Usable(p) && Next(p, s, a, s') && SpawnedInOrder(s) && s.found
    ensures s'.found && Distance(s') < Distance(s) + if IsStale(a) then 5 else 0
  {
    hide TryOne, Usable, Meets;
    match a {
      case Call =>
        if s.main.Spawning? && s.main.next < |s.workers| {
          LeftUpdate(s.workers, s.main.next, Looping);
        }
      case Work(w, nonce, stale) =>
        assert s'.workers == s.workers[w := s'.workers[w]];
        LeftUpdate(s.workers, w, s'.workers[w]);
    }
  }

  predicate IsStale(a: Action) { a.Work? && a.stale }

  /** How many loads may have missed the flag. */
  function Misses(actions: seq<Action>): nat {
    if actions == [] then 0
    else Misses(actions[..|actions| - 1]) + if IsStale(actions[|actions| - 1]) then 1 else 0
  }

  lemma {:induction false} DistanceBound(workers: seq<Worker>)
    ensures AllLeft(workers) <= 5 * |workers|
  {
    if workers != [] {
      DistanceBound(workers[1..]);
    }
  }

  /**
   After the flag is up in state `j` of a run, at most five steps per worker, three more,
   and five for every load that still misses the flag are left, however they interleave.
   */
  lemma {:induction false} FlagStopsTheSearch(
    p: Puzzle, run: seq<System>, actions: seq<Action>, threads: nat, start: nat, j: nat, n: nat)
    requires Usable(p) && IsRun(p, run, actions) && Initial(run[0], threads, start) && threads > 0 && start < U64
    requires j <= n < |run| && run[j].found
    ensures run[n].found && (n - j) + Distance(run[n]) <= Distance(run[j]) + 5 * Misses(actions[j..n])
    ensures n - j <= 5 * |run[j].workers| + 3 + 5 * Misses(actions[j..n])
  {
    hide Next, Usable, Distance, Initial, Inv;
    DistanceOf(run[j]);
    if j < n {
      FlagStopsTheSearch(p, run, actions, threads, start, j, n - 1);
      RunKeepsInv(p, run, actions, threads, start, n - 1);
      assert SpawnedInOrder(run[n - 1]) by { InvSpawned(p, run[n - 1], start); }
      assert Next(p, run[n - 1], actions[n - 1], run[n]);
      EveryStepNearsTheEnd(p, run[n - 1], actions[n - 1], run[n]);
      assert actions[j..n][..n - j - 1] == actions[j..n - 1];
    }
  }

  lemma InvSpawned(p: Puzzle, s: System, start: nat)
    requires Inv(p, s, start)
    ensures SpawnedInOrder(s)
  {
  }

  lemma DistanceOf(s: System)
    ensures Distance(s) <= 5 * |s.workers| + 3
  {
    DistanceBound(s.workers);
  }
}
