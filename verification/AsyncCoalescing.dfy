/** How checkpoint attempts are coalesced in cmd/agent/workspace_snapshot.go: asynchronous requests
    set a flag that whoever holds the lock picks up, a synchronous one cancels the asynchronous
    attempt in progress and takes its turn, and so does the cleanup at the end, which need not make
    an attempt at all.

    Threads interleave between atomic steps; each step is one operation on the lock, on the flag or
    on the cancel function, or the beginning or end of an attempt.
 */
module AsyncCoalescing {
  import opened Wrappers

  /** Where a thread is. `Looping` to `Releasing`, `Clearing` to `SyncReleasing` and `Retiring` to
      `CleanupReleasing` hold the lock; `clean` says that the cleanup will find nothing to checkpoint. */
  datatype Phase =
    | Requested
    | Registering
    | Looping
    | Starting
    | Attempting(since: nat)
    | Unregistering
    | Releasing
    | Cancelling
    | Waiting
    | Clearing
    | SyncStarting
    | SyncAttempting(since: nat)
    | SyncReleasing
    | CleanupCancelling(clean: bool)
    | CleanupWaiting(clean: bool)
    | Retiring(clean: bool)
    | FinalAttempting(since: nat)
    | CleanupReleasing

  /** `calls` counts the SnapshotAsync calls so far, `served` those followed by an attempt that
      started after them and was not cut short, and `forfeited` those made before the last attempt
      started that was cut short because its context had ended. */
  datatype State = State(
    threads: map<nat, Phase>, mu: Option<nat>, pending: bool,
    asyncCancel: Option<nat>, cancelled: set<nat>, calls: nat, served: nat, forfeited: nat)

  const INITIAL := State(map[], None, false, None, {}, 0, 0, 0)

  predicate HoldsLock(p: Phase) {
    !p.Requested? && !p.Cancelling? && !p.Waiting? && !p.CleanupCancelling? && !p.CleanupWaiting?
  }

  predicate Registered(p: Phase) {
    p.Looping? || p.Starting? || p.Attempting? || p.Unregistering?
  }

  predicate AttemptRuns(p: Phase) {
    p.Attempting? || p.SyncAttempting? || p.FinalAttempting?
  }

  /** The next step of thread `t`. `failed` and `cut` are the outcome of an attempt that ends: `cut`
      says that it stopped because its context had ended, which for an asynchronous one takes a cancel.
      Steps that are blocked or make no sense change nothing. */
  datatype Action =
    | CallAsync(t: nat)
    | CallSync(t: nat)
    | CallCleanup(t: nat, clean: bool)
    | Advance(t: nat, failed: bool, cut: bool)

  function Goto(s: State, t: nat, p: Phase): State {
    s.(threads := s.threads[t := p])
  }

  function Gone(s: State, t: nat): State {
    s.(threads := s.threads - {t})
  }

  function Step(s: State, a: Action): State {
    match a
    case CallAsync(t) =>
      if t in s.threads then s else Goto(s, t, Requested).(pending := true, calls := s.calls + 1)
    case CallSync(t) => if t in s.threads then s else Goto(s, t, Cancelling)
    case CallCleanup(t, clean) => if t in s.threads then s else Goto(s, t, CleanupCancelling(clean))
    case Advance(t, failed, cut) => if t !in s.threads then s else Next(s, t, failed, cut)
  }

  function Next(s: State, t: nat, failed: bool, cut: bool): State
    requires t in s.threads
  {
    if IsSync(s.threads[t]) then NextSync(s, t, cut)
    else if IsCleanup(s.threads[t]) then NextCleanup(s, t, cut)
    else NextAsync(s, t, failed, cut)
  }

  predicate IsSync(p: Phase) {
    p.Cancelling? || p.Waiting? || p.Clearing? || p.SyncStarting? || p.SyncAttempting? || p.SyncReleasing?
  }

  predicate IsCleanup(p: Phase) {
    p.CleanupCancelling? || p.CleanupWaiting? || p.Retiring? || p.FinalAttempting? || p.CleanupReleasing?
  }

  predicate IsAsync(p: Phase) {
    !IsSync(p) && !IsCleanup(p)
  }

  /** SnapshotAsync: TryLock, then set the cancel function and start the loop. */
  function NextAsync(s: State, t: nat, failed: bool, cut: bool): State
    requires t in s.threads && IsAsync(s.threads[t])
  {
    match s.threads[t]
    case Requested => if s.mu.Some? then Gone(s, t) else Goto(s, t, Registering).(mu := Some(t))
    case Registering => Goto(s, t, Looping).(asyncCancel := Some(t))
    case Looping => if s.pending then Goto(s, t, Starting).(pending := false) else Goto(s, t, Unregistering)
    case Starting => Goto(s, t, Attempting(s.calls))
    case Attempting(since) =>
      if cut && t in s.cancelled then Goto(s, t, Unregistering).(forfeited := since)
      else Goto(s, t, if failed then Unregistering else Looping).(served := since)
    case Unregistering => Goto(s, t, Releasing).(asyncCancel := None)
    case Releasing => Gone(s, t).(mu := None, cancelled := s.cancelled - {t})
  }

  function CancelAsync(s: State): set<nat> {
    s.cancelled + if s.asyncCancel.Some? then {s.asyncCancel.value} else {}
  }

  /** snapshotSync: cancel, wait for the lock, clear the flag, attempt. */
  function NextSync(s: State, t: nat, cut: bool): State
    requires t in s.threads && IsSync(s.threads[t])
  {
    match s.threads[t]
    case Cancelling =>
      Goto(s, t, Waiting).(cancelled := CancelAsync(s))
    case Waiting => if s.mu.Some? then s else Goto(s, t, Clearing).(mu := Some(t))
    case Clearing => Goto(s, t, SyncStarting).(pending := false)
    case SyncStarting => Goto(s, t, SyncAttempting(s.calls))
    case SyncAttempting(since) =>
      if cut then Goto(s, t, SyncReleasing).(forfeited := since) else Goto(s, t, SyncReleasing).(served := since)
    case SyncReleasing => Gone(s, t).(mu := None)
  }

  /** Cleanup: cancel, wait for the lock, and retire the checkpoint or make a last one; the flag stays. */
  function NextCleanup(s: State, t: nat, cut: bool): State
    requires t in s.threads && IsCleanup(s.threads[t])
  {
    match s.threads[t]
    case CleanupCancelling(clean) => Goto(s, t, CleanupWaiting(clean)).(cancelled := CancelAsync(s))
    case CleanupWaiting(clean) => if s.mu.Some? then s else Goto(s, t, Retiring(clean)).(mu := Some(t))
    case Retiring(clean) => Goto(s, t, if clean then CleanupReleasing else FinalAttempting(s.calls))
    case FinalAttempting(since) =>
      if cut then Goto(s, t, CleanupReleasing).(forfeited := since) else Goto(s, t, CleanupReleasing).(served := since)
    case CleanupReleasing => Gone(s, t).(mu := None)
  }

  function Run(s: State, actions: seq<Action>): State {
    if actions == [] then s else Step(Run(s, actions[..|actions| - 1]), actions[|actions| - 1])
  }

  // ---- Invariants ---------------------------------------------------------------------------------

  ghost predicate LockExact(s: State) {
    && (forall t | t in s.threads :: HoldsLock(s.threads[t]) ==> s.mu == Some(t))
    && (s.mu.Some? ==> s.mu.value in s.threads && HoldsLock(s.threads[s.mu.value]))
  }

  ghost predicate SomeoneWaits(s: State) {
    exists w :: w in s.threads && s.threads[w].Waiting?
  }

  ghost predicate CleanupWaits(s: State) {
    exists w :: w in s.threads && s.threads[w].CleanupWaiting?
  }

  /** Only the registered loop can be cancelled, and whoever cancelled it is still waiting. */
  ghost predicate CancelExact(s: State) {
    && (s.asyncCancel.Some? ==> s.asyncCancel.value in s.threads && Registered(s.threads[s.asyncCancel.value]))
    && (forall t | t in s.cancelled ::
          s.mu == Some(t) && t in s.threads && (Registered(s.threads[t]) || s.threads[t].Releasing?))
    && (s.cancelled != {} ==> SomeoneWaits(s) || CleanupWaits(s))
  }

  ghost predicate TimesExact(s: State) {
    && s.served <= s.calls && s.forfeited <= s.calls
    && forall t | t in s.threads && AttemptRuns(s.threads[t]) ::
         s.served <= s.threads[t].since <= s.calls && (s.threads[t].since == s.calls || s.pending)
  }

  /** The lock holder's attempt covers every call so far. */
  ghost predicate HolderCovers(s: State) {
    s.mu.Some? && s.mu.value in s.threads
    && match s.threads[s.mu.value]
       case Starting => true
       case Clearing => true
       case SyncStarting => true
       case Attempting(since) => since == s.calls
       case SyncAttempting(since) => since == s.calls
       case FinalAttempting(since) => since == s.calls
       case _ => false
  }

  /** Every request was followed by an attempt that was not cut short, or the holder's attempt or that
      of a waiting synchronous caller will cover it, or the flag is set for the next one. */
  ghost predicate Covered(s: State) {
    s.served == s.calls || s.pending || HolderCovers(s) || SomeoneWaits(s)
  }

  ghost predicate Inv(s: State) {
    LockExact(s) && CancelExact(s) && TimesExact(s) && (Covered(s) || s.forfeited == s.calls)
  }

  lemma WaitersStay(s: State, s': State, t: nat)
    requires forall w | w in s.threads && w != t :: w in s'.threads && s'.threads[w] == s.threads[w]
    ensures SomeoneWaits(s)
            && (t in s.threads && s.threads[t].Waiting? ==> t in s'.threads && s'.threads[t].Waiting?) ==>
              SomeoneWaits(s')
    ensures CleanupWaits(s)
            && (t in s.threads && s.threads[t].CleanupWaiting? ==> t in s'.threads && s'.threads[t].CleanupWaiting?) ==>
              CleanupWaits(s')
  {
    if SomeoneWaits(s) {
      var w :| w in s.threads && s.threads[w].Waiting?;
      assert w != t ==> w in s'.threads && s'.threads[w].Waiting?;
    }
    if CleanupWaits(s) {
      var w :| w in s.threads && s.threads[w].CleanupWaiting?;
      assert w != t ==> w in s'.threads && s'.threads[w].CleanupWaiting?;
    }
  }

  lemma NewWaiter(s: State, t: nat)
    requires t in s.threads
    ensures s.threads[t].Waiting? ==> SomeoneWaits(s)
    ensures s.threads[t].CleanupWaiting? ==> CleanupWaits(s)
  {
  }

  // ---- Steps of a SnapshotAsync -------------------------------------------------------------------

  lemma AsyncKeepsLock(s: State, t: nat, failed: bool, cut: bool)
    requires LockExact(s) && t in s.threads && IsAsync(s.threads[t])
    ensures LockExact(NextAsync(s, t, failed, cut))
  {
  }

  lemma AsyncKeepsTimes(s: State, t: nat, failed: bool, cut: bool)
    requires LockExact(s) && TimesExact(s) && t in s.threads && IsAsync(s.threads[t])
    ensures TimesExact(NextAsync(s, t, failed, cut))
  {
  }

  lemma AsyncKeepsWaiters(s: State, t: nat, failed: bool, cut: bool)
    requires t in s.threads && IsAsync(s.threads[t])
    ensures var s' := NextAsync(s, t, failed, cut);
            (SomeoneWaits(s) ==> SomeoneWaits(s')) && (CleanupWaits(s) ==> CleanupWaits(s'))
  {
    hide SomeoneWaits, CleanupWaits;
    WaitersStay(s, NextAsync(s, t, failed, cut), t);
  }

  lemma AsyncKeepsCancel(s: State, t: nat, failed: bool, cut: bool)
    requires LockExact(s) && CancelExact(s) && t in s.threads && IsAsync(s.threads[t])
    ensures CancelExact(NextAsync(s, t, failed, cut))
  {
    hide SomeoneWaits, CleanupWaits;
    AsyncKeepsWaiters(s, t, failed, cut);
  }

  // ---- Steps of a snapshotSync --------------------------------------------------------------------

  lemma SyncKeepsLock(s: State, t: nat, cut: bool)
    requires LockExact(s) && t in s.threads && IsSync(s.threads[t])
    ensures LockExact(NextSync(s, t, cut))
  {
  }

  lemma SyncKeepsTimes(s: State, t: nat, cut: bool)
    requires LockExact(s) && TimesExact(s) && t in s.threads && IsSync(s.threads[t])
    ensures TimesExact(NextSync(s, t, cut))
  {
  }

  lemma SyncKeepsWaiters(s: State, t: nat, cut: bool)
    requires t in s.threads && IsSync(s.threads[t])
    ensures var s' := NextSync(s, t, cut);
            && (SomeoneWaits(s) && !(s.threads[t].Waiting? && s.mu.None?) ==> SomeoneWaits(s'))
            && (CleanupWaits(s) ==> CleanupWaits(s'))
            && (s.threads[t].Cancelling? ==> SomeoneWaits(s'))
  {
    hide SomeoneWaits, CleanupWaits;
    WaitersStay(s, NextSync(s, t, cut), t);
    if s.threads[t].Cancelling? {
      NewWaiter(NextSync(s, t, cut), t);
    }
  }

  lemma SyncKeepsCancel(s: State, t: nat, cut: bool)
    requires LockExact(s) && CancelExact(s) && t in s.threads && IsSync(s.threads[t])
    ensures CancelExact(NextSync(s, t, cut))
  {
    hide SomeoneWaits, CleanupWaits;
    SyncKeepsWaiters(s, t, cut);
  }

  // ---- Steps of the cleanup -----------------------------------------------------------------------

  lemma CleanupKeepsLock(s: State, t: nat, cut: bool)
    requires LockExact(s) && t in s.threads && IsCleanup(s.threads[t])
    ensures LockExact(NextCleanup(s, t, cut))
  {
  }

  lemma CleanupKeepsTimes(s: State, t: nat, cut: bool)
    requires LockExact(s) && TimesExact(s) && t in s.threads && IsCleanup(s.threads[t])
    ensures TimesExact(NextCleanup(s, t, cut))
  {
  }

  lemma CleanupKeepsWaiters(s: State, t: nat, cut: bool)
    requires t in s.threads && IsCleanup(s.threads[t])
    ensures var s' := NextCleanup(s, t, cut);
            && (SomeoneWaits(s) ==> SomeoneWaits(s'))
            && (CleanupWaits(s) && !(s.threads[t].CleanupWaiting? && s.mu.None?) ==> CleanupWaits(s'))
            && (s.threads[t].CleanupCancelling? ==> CleanupWaits(s'))
  {
    hide SomeoneWaits, CleanupWaits;
    WaitersStay(s, NextCleanup(s, t, cut), t);
    if s.threads[t].CleanupCancelling? {
      NewWaiter(NextCleanup(s, t, cut), t);
    }
  }

  lemma CleanupKeepsCancel(s: State, t: nat, cut: bool)
    requires LockExact(s) && CancelExact(s) && t in s.threads && IsCleanup(s.threads[t])
    ensures CancelExact(NextCleanup(s, t, cut))
  {
    hide SomeoneWaits, CleanupWaits;
    CleanupKeepsWaiters(s, t, cut);
  }

  // ---- Every step ---------------------------------------------------------------------------------

  ghost predicate Exact(s: State) {
    LockExact(s) && CancelExact(s) && TimesExact(s)
  }

  lemma CallKeepsWaiters(s: State, a: Action)
    requires !a.Advance?
    ensures (SomeoneWaits(s) ==> SomeoneWaits(Step(s, a))) && (CleanupWaits(s) ==> CleanupWaits(Step(s, a)))
  {
    hide SomeoneWaits, CleanupWaits;
    if a.t !in s.threads {
      WaitersStay(s, Step(s, a), a.t);
    }
  }

  lemma CallExact(s: State, a: Action)
    requires Exact(s) && !a.Advance?
    ensures Exact(Step(s, a))
  {
    hide SomeoneWaits, CleanupWaits;
    CallKeepsWaiters(s, a);
  }

  lemma StepExact(s: State, a: Action)
    requires Exact(s)
    ensures Exact(Step(s, a))
  {
    hide NextAsync, NextSync, NextCleanup, LockExact, CancelExact, TimesExact;
    if a.Advance? {
      if a.t in s.threads {
        if IsSync(s.threads[a.t]) {
          SyncKeepsLock(s, a.t, a.cut);
          SyncKeepsTimes(s, a.t, a.cut);
          SyncKeepsCancel(s, a.t, a.cut);
        } else if IsCleanup(s.threads[a.t]) {
          CleanupKeepsLock(s, a.t, a.cut);
          CleanupKeepsTimes(s, a.t, a.cut);
          CleanupKeepsCancel(s, a.t, a.cut);
        } else {
          AsyncKeepsLock(s, a.t, a.failed, a.cut);
          AsyncKeepsTimes(s, a.t, a.failed, a.cut);
          AsyncKeepsCancel(s, a.t, a.failed, a.cut);
        }
      }
    } else {
      CallExact(s, a);
    }
  }

  // ---- When requests are lost ---------------------------------------------------------------------

  /** An attempt that started after every call so far and whose context can have ended. */
  ghost predicate CanBeCut(s: State, t: nat) {
    t in s.threads && AttemptRuns(s.threads[t]) && s.threads[t].since == s.calls
    && (s.threads[t].Attempting? ==> t in s.cancelled)
  }

  /** The step that loses requests: an attempt is cut short, the flag has not been set since it was
      cleared, no synchronous caller waits, and some call has not been served. */
  ghost predicate Loses(s: State, a: Action) {
    a.Advance? && a.cut && CanBeCut(s, a.t) && s.served < s.calls && !s.pending && !SomeoneWaits(s)
  }

  /** What brings lost requests back into reach: another request, a synchronous caller, or the last
      attempt of a cleanup. */
  ghost predicate Recovers(s: State, a: Action) {
    if a.Advance? then a.t in s.threads && (s.threads[a.t].Cancelling? || s.threads[a.t] == Retiring(false))
    else a.CallAsync? && a.t !in s.threads
  }

  /** The threads before and after a step of thread `t`. */
  predicate Moves(threads: map<nat, Phase>, threads': map<nat, Phase>, t: nat) {
    threads' == threads || threads' == threads - {t} || (t in threads' && threads' == threads[t := threads'[t]])
  }

  lemma NoNewWaiter(s: State, s': State, t: nat)
    requires Moves(s.threads, s'.threads, t)
    ensures SomeoneWaits(s') && (t in s'.threads ==> !s'.threads[t].Waiting?) ==> SomeoneWaits(s)
  {
    if SomeoneWaits(s') {
      var w :| w in s'.threads && s'.threads[w].Waiting?;
      assert w != t ==> w in s.threads && s.threads[w].Waiting?;
    }
  }

  lemma AsyncMoves(s: State, t: nat, failed: bool, cut: bool)
    requires t in s.threads && IsAsync(s.threads[t])
    ensures var threads := NextAsync(s, t, failed, cut).threads;
            Moves(s.threads, threads, t) && (t in threads ==> !threads[t].Waiting?)
  {
  }

  lemma SyncMoves(s: State, t: nat, cut: bool)
    requires t in s.threads && IsSync(s.threads[t])
    ensures var threads := NextSync(s, t, cut).threads;
            && Moves(s.threads, threads, t)
            && (t in threads && threads[t].Waiting? ==> s.threads[t].Cancelling? || s.threads[t].Waiting?)
  {
  }

  lemma CleanupMoves(s: State, t: nat, cut: bool)
    requires t in s.threads && IsCleanup(s.threads[t])
    ensures var threads := NextCleanup(s, t, cut).threads;
            Moves(s.threads, threads, t) && (t in threads ==> !threads[t].Waiting?)
  {
  }

  lemma CallMoves(s: State, a: Action)
    requires a.Advance? ==> a.t !in s.threads
    ensures Moves(s.threads, Step(s, a).threads, a.t)
    ensures a.t in Step(s, a).threads && Step(s, a).threads[a.t].Waiting? ==>
              a.t in s.threads && s.threads[a.t].Waiting?
  {
  }

  lemma StepMoves(s: State, a: Action)
    ensures Moves(s.threads, Step(s, a).threads, a.t)
    ensures a.t in Step(s, a).threads && Step(s, a).threads[a.t].Waiting? ==>
              a.t in s.threads && (s.threads[a.t].Waiting? || (a.Advance? && s.threads[a.t].Cancelling?))
  {
    hide Moves, NextAsync, NextSync, NextCleanup;
    if a.Advance? && a.t in s.threads {
      if IsSync(s.threads[a.t]) {
        SyncMoves(s, a.t, a.cut);
      } else if IsCleanup(s.threads[a.t]) {
        CleanupMoves(s, a.t, a.cut);
      } else {
        AsyncMoves(s, a.t, a.failed, a.cut);
      }
    } else {
      CallMoves(s, a);
    }
  }

  lemma AsyncCovers(s: State, t: nat, failed: bool, cut: bool)
    requires Exact(s) && Covered(s) && t in s.threads && IsAsync(s.threads[t])
    ensures Covered(NextAsync(s, t, failed, cut)) <==> !Loses(s, Advance(t, failed, cut))
  {
    hide SomeoneWaits, CancelExact;
    AsyncKeepsWaiters(s, t, failed, cut);
    AsyncMoves(s, t, failed, cut);
    NoNewWaiter(s, NextAsync(s, t, failed, cut), t);
  }

  lemma SyncCovers(s: State, t: nat, failed: bool, cut: bool)
    requires Exact(s) && Covered(s) && t in s.threads && IsSync(s.threads[t])
    ensures Covered(NextSync(s, t, cut)) <==> !Loses(s, Advance(t, failed, cut))
  {
    hide SomeoneWaits, CancelExact;
    SyncKeepsWaiters(s, t, cut);
    SyncMoves(s, t, cut);
    NoNewWaiter(s, NextSync(s, t, cut), t);
  }

  lemma CleanupCovers(s: State, t: nat, failed: bool, cut: bool)
    requires Exact(s) && Covered(s) && t in s.threads && IsCleanup(s.threads[t])
    ensures Covered(NextCleanup(s, t, cut)) <==> !Loses(s, Advance(t, failed, cut))
  {
    hide SomeoneWaits, CancelExact;
    CleanupKeepsWaiters(s, t, cut);
    CleanupMoves(s, t, cut);
    NoNewWaiter(s, NextCleanup(s, t, cut), t);
  }

  lemma CallCovers(s: State, a: Action)
    requires Exact(s) && Covered(s) && !a.Advance?
    ensures Covered(Step(s, a))
  {
    hide SomeoneWaits, CancelExact;
    CallKeepsWaiters(s, a);
  }

  lemma StepCovers(s: State, a: Action)
    requires Exact(s) && Covered(s)
    ensures Covered(Step(s, a)) <==> !Loses(s, a)
  {
    hide NextAsync, NextSync, NextCleanup, LockExact, CancelExact, TimesExact, Covered, SomeoneWaits;
    if a.Advance? {
      if a.t in s.threads {
        if IsSync(s.threads[a.t]) {
          SyncCovers(s, a.t, a.failed, a.cut);
        } else if IsCleanup(s.threads[a.t]) {
          CleanupCovers(s, a.t, a.failed, a.cut);
        } else {
          AsyncCovers(s, a.t, a.failed, a.cut);
        }
      }
    } else {
      CallCovers(s, a);
    }
  }

  lemma NobodyNew(s: State, a: Action)
    requires !SomeoneWaits(s) && !Recovers(s, a)
    ensures !SomeoneWaits(Step(s, a))
  {
    hide SomeoneWaits, Step, Moves;
    if a.t in s.threads {
      NewWaiter(s, a.t);
    }
    StepMoves(s, a);
    NoNewWaiter(s, Step(s, a), a.t);
  }

  lemma AsyncServesNothing(s: State, t: nat, failed: bool, cut: bool)
    requires LockExact(s) && TimesExact(s) && !Covered(s) && t in s.threads && IsAsync(s.threads[t])
    ensures Unserved(s, NextAsync(s, t, failed, cut))
  {
    hide SomeoneWaits;
  }

  lemma SyncServesNothing(s: State, t: nat, cut: bool)
    requires LockExact(s) && TimesExact(s) && !Covered(s) && t in s.threads && IsSync(s.threads[t])
             && !s.threads[t].Cancelling?
    ensures Unserved(s, NextSync(s, t, cut))
  {
    hide SomeoneWaits;
    NewWaiter(s, t);
  }

  lemma CleanupServesNothing(s: State, t: nat, cut: bool)
    requires LockExact(s) && TimesExact(s) && !Covered(s) && t in s.threads && IsCleanup(s.threads[t])
             && s.threads[t] != Retiring(false)
    ensures Unserved(s, NextCleanup(s, t, cut))
  {
    hide SomeoneWaits;
  }

  ghost predicate Unserved(s: State, s': State) {
    s'.forfeited == s.forfeited && s'.calls == s.calls && s'.served == s.served && !s'.pending && !HolderCovers(s')
  }

  /** In an uncovered state no attempt runs and none is about to. */
  lemma NothingServed(s: State, a: Action)
    requires LockExact(s) && TimesExact(s) && !Covered(s) && !Recovers(s, a)
    ensures Unserved(s, Step(s, a))
  {
    hide SomeoneWaits, NextAsync, NextSync, NextCleanup, LockExact, TimesExact;
    if a.Advance? && a.t in s.threads {
      if IsSync(s.threads[a.t]) {
        SyncServesNothing(s, a.t, a.cut);
      } else if IsCleanup(s.threads[a.t]) {
        CleanupServesNothing(s, a.t, a.cut);
      } else {
        AsyncServesNothing(s, a.t, a.failed, a.cut);
      }
    }
  }

  lemma StepRecovers(s: State, a: Action)
    requires Exact(s) && !Covered(s)
    ensures Covered(Step(s, a)) <==> Recovers(s, a)
    ensures !Recovers(s, a) ==> Step(s, a).forfeited == s.forfeited && Step(s, a).calls == s.calls
  {
    hide SomeoneWaits, CancelExact;
    if Recovers(s, a) {
      RecoveryCovers(s, a);
    } else {
      NobodyNew(s, a);
      NothingServed(s, a);
    }
  }

  lemma RecoveryCovers(s: State, a: Action)
    requires LockExact(s) && Recovers(s, a)
    ensures Covered(Step(s, a))
  {
    hide SomeoneWaits;
    if a.Advance? && s.threads[a.t].Cancelling? {
      NewWaiter(Step(s, a), a.t);
    }
  }

  lemma LosingForfeits(s: State, a: Action)
    requires Loses(s, a)
    ensures Step(s, a).forfeited == Step(s, a).calls
  {
  }

  lemma StepInv(s: State, a: Action)
    requires Inv(s)
    ensures Inv(Step(s, a))
  {
    hide Step, LockExact, CancelExact, TimesExact, Covered, Loses, Recovers;
    StepExact(s, a);
    if Covered(s) {
      StepCovers(s, a);
      if Loses(s, a) {
        LosingForfeits(s, a);
      }
    } else {
      StepRecovers(s, a);
    }
  }

  lemma {:induction false} RunInv(actions: seq<Action>)
    ensures Inv(Run(INITIAL, actions))
  {
    hide Inv, Step;
    if actions == [] {
      InitialInv();
    } else {
      RunInv(actions[..|actions| - 1]);
      StepInv(Run(INITIAL, actions[..|actions| - 1]), actions[|actions| - 1]);
    }
  }

  lemma InitialInv()
    ensures Inv(INITIAL)
  {
  }

  // ---- Theorems -----------------------------------------------------------------------------------

  /** Two attempts never run at the same time. */
  lemma AttemptsNeverOverlap(actions: seq<Action>, t: nat, u: nat)
    ensures var s := Run(INITIAL, actions);
            t in s.threads && u in s.threads && AttemptRuns(s.threads[t]) && AttemptRuns(s.threads[u]) ==> t == u
  {
    RunInv(actions);
  }

  /** Unless an attempt was cut short because its context had ended, and no call has been made since it
      started, every SnapshotAsync call so far was followed by an attempt that was not cut short, or is
      covered by the lock holder or by a waiting synchronous caller, or has left the flag set. */
  lemma NoRequestIsForgotten(actions: seq<Action>)
    ensures var s := Run(INITIAL, actions);
            && (Covered(s) || s.forfeited == s.calls)
            && (s.forfeited == 0 ==> Covered(s))
            && (s.threads.Keys == {} ==> s.served == s.calls || s.pending || s.forfeited == s.calls)
  {
    RunInv(actions);
  }

  /** Exactly when requests are lost, and until when. */
  lemma RequestsAreLostIff(actions: seq<Action>, a: Action)
    ensures var s := Run(INITIAL, actions);
            && (Covered(s) ==> (!Covered(Step(s, a)) <==> Loses(s, a)))
            && (!Covered(s) ==> (Covered(Step(s, a)) <==> Recovers(s, a)))
  {
    hide Step, LockExact, CancelExact, TimesExact, Covered, Loses, Recovers, Run;
    RunInv(actions);
    var s := Run(INITIAL, actions);
    if Covered(s) {
      StepCovers(s, a);
    } else {
      StepRecovers(s, a);
    }
  }

  /** It happens: a request comes in while a synchronous caller takes the lock, which clears the flag
      and then gives up its attempt. */
  lemma CutCallerLosesRequest()
    ensures var s := Run(INITIAL, [CallSync(2), Advance(2, false, false), CallAsync(1), Advance(2, false, false),
                                   Advance(1, false, false), Advance(2, false, false), Advance(2, false, false),
                                   Advance(2, false, true), Advance(2, false, false)]);
            s.threads == map[] && s.calls == 1 && s.served == 0 && !s.pending && !Covered(s)
  {
    hide Run, Step, Covered;
    var go := Advance(2, false, false);
    var a := [CallSync(2), go, CallAsync(1), go, Advance(1, false, false), go, go, Advance(2, false, true), go];
    RunNothing(INITIAL);
    assert a[..0] == [] && a[..9] == a;
    RunPrefix(INITIAL, a, 0);
    RunPrefix(INITIAL, a, 1);
    RunPrefix(INITIAL, a, 2);
    RunPrefix(INITIAL, a, 3);
    RunPrefix(INITIAL, a, 4);
    RunPrefix(INITIAL, a, 5);
    RunPrefix(INITIAL, a, 6);
    RunPrefix(INITIAL, a, 7);
    RunPrefix(INITIAL, a, 8);
    FirstCutSteps();
    CutSteps();
  }

  /** The synchronous caller holds the lock, and one request has set the flag. */
  const ONE_CLEARING := State(map[2 := Clearing], Some(2), true, None, {}, 1, 0, 0)

  lemma FirstCutSteps()
    ensures var go := Advance(2, false, false);
            Step(Step(Step(Step(Step(INITIAL, CallSync(2)), go), CallAsync(1)), go), Advance(1, false, false))
            == ONE_CLEARING
  {
    var go := Advance(2, false, false);
    var s2 := Step(Step(INITIAL, CallSync(2)), go);
    assert s2.threads == map[2 := Waiting];
    var s4 := Step(Step(s2, CallAsync(1)), go);
    assert s4.threads == map[2 := Clearing, 1 := Requested];
    assert Step(s4, Advance(1, false, false)).threads == map[2 := Clearing];
  }

  lemma CutSteps()
    ensures var go := Advance(2, false, false);
            var s := Step(Step(Step(Step(ONE_CLEARING, go), go), Advance(2, false, true)), go);
            s.threads == map[] && s.calls == 1 && s.served == 0 && !s.pending && !Covered(s)
  {
    var go := Advance(2, false, false);
    var s7 := Step(Step(ONE_CLEARING, go), go);
    assert s7.threads == map[2 := SyncAttempting(1)];
    assert Step(Step(s7, Advance(2, false, true)), go).threads == map[];
  }

  /** An asynchronous attempt is only ever cancelled on behalf of a caller that still waits for its turn:
      a synchronous one, whose own attempt is still to come, or a cleanup, which need not make one. */
  lemma CancelledForAWaiter(actions: seq<Action>)
    ensures var s := Run(INITIAL, actions); s.cancelled != {} ==> SomeoneWaits(s) || CleanupWaits(s)
  {
    RunInv(actions);
  }

  /** It happens with a cleanup as well: it cancels the only attempt of a request and then finds nothing
      that needs a checkpoint. */
  lemma CleanupLosesRequest()
    ensures var go := Advance(2, false, false);
            var s := Run(INITIAL,
                         Solo(1) + [CallCleanup(2, true), go, Advance(1, false, true), Advance(1, false, false),
                                             Advance(1, false, false), go, go, go]);
            s.threads == map[] && s.calls == 1 && s.served == 0 && !s.pending && !Covered(s)
  {
    hide Run, Step, Covered;
    var go := Advance(2, false, false);
    var b := [CallCleanup(2, true), go, Advance(1, false, true), Advance(1, false, false), Advance(1, false, false),
              go, go, go];
    SoloAlone();
    RunAppend(INITIAL, Solo(1), b);
    assert b[..0] == [] && b[..8] == b;
    RunNothing(ONE_ATTEMPT);
    RunPrefix(ONE_ATTEMPT, b, 0);
    RunPrefix(ONE_ATTEMPT, b, 1);
    RunPrefix(ONE_ATTEMPT, b, 2);
    RunPrefix(ONE_ATTEMPT, b, 3);
    RunPrefix(ONE_ATTEMPT, b, 4);
    RunPrefix(ONE_ATTEMPT, b, 5);
    RunPrefix(ONE_ATTEMPT, b, 6);
    RunPrefix(ONE_ATTEMPT, b, 7);
    CleanupCalls();
    CleanupCancels();
    CleanupRetires();
  }

  /** One request, whose attempt is running. */
  const ONE_ATTEMPT := State(map[1 := Attempting(1)], Some(1), false, Some(1), {}, 1, 0, 0)

  lemma SoloAlone()
    ensures Run(INITIAL, Solo(1)) == ONE_ATTEMPT
  {
    hide Run, Step;
    var a := Solo(1);
    assert a[..0] == [] && a[..5] == a;
    RunNothing(INITIAL);
    RunPrefix(INITIAL, a, 0);
    RunPrefix(INITIAL, a, 1);
    RunPrefix(INITIAL, a, 2);
    RunPrefix(INITIAL, a, 3);
    RunPrefix(INITIAL, a, 4);
    AloneEnters();
    AloneAttempts();
  }

  lemma AloneEnters()
    ensures Step(Step(INITIAL, Solo(1)[0]), Solo(1)[1])
            == State(map[1 := Registering], Some(1), true, None, {}, 1, 0, 0)
  {
    assert Step(INITIAL, CallAsync(1)) == State(map[1 := Requested], None, true, None, {}, 1, 0, 0);
  }

  lemma AloneAttempts()
    ensures var s := State(map[1 := Registering], Some(1), true, None, {}, 1, 0, 0);
            Step(Step(Step(s, Solo(1)[2]), Solo(1)[3]), Solo(1)[4]) == ONE_ATTEMPT
  {
    var go, s := Advance(1, false, false), State(map[1 := Registering], Some(1), true, None, {}, 1, 0, 0);
    var s1 := Step(s, go);
    assert s1 == State(map[1 := Looping], Some(1), true, Some(1), {}, 1, 0, 0);
    assert Step(s1, go) == State(map[1 := Starting], Some(1), false, Some(1), {}, 1, 0, 0);
  }

  /** The cleanup waits for the lock, and the request it has cancelled is gone. */
  const CLEANUP_ALONE := State(map[2 := CleanupWaiting(true)], None, false, None, {}, 1, 0, 1)

  /** The cleanup has cancelled that attempt. */
  const CANCELLED_ATTEMPT :=
    State(map[1 := Attempting(1), 2 := CleanupWaiting(true)], Some(1), false, Some(1), {1}, 1, 0, 0)

  lemma CleanupCalls()
    ensures Step(Step(ONE_ATTEMPT, CallCleanup(2, true)), Advance(2, false, false)) == CANCELLED_ATTEMPT
  {
    assert Step(ONE_ATTEMPT, CallCleanup(2, true)).threads == map[1 := Attempting(1), 2 := CleanupCancelling(true)];
  }

  lemma CleanupCuts()
    ensures Step(CANCELLED_ATTEMPT, Advance(1, false, true)) ==
            State(map[1 := Unregistering, 2 := CleanupWaiting(true)], Some(1), false, Some(1), {1}, 1, 0, 1)
  {
  }

  lemma CleanupCancels()
    ensures var go := Advance(1, false, false);
            Step(Step(Step(CANCELLED_ATTEMPT, Advance(1, false, true)), go), go) == CLEANUP_ALONE
  {
    var go := Advance(1, false, false);
    CleanupCuts();
    var s4 := Step(Step(CANCELLED_ATTEMPT, Advance(1, false, true)), go);
    assert s4 == State(map[1 := Releasing, 2 := CleanupWaiting(true)], Some(1), false, None, {1}, 1, 0, 1);
    assert Step(s4, go).threads == map[2 := CleanupWaiting(true)];
  }

  lemma CleanupRetires()
    ensures var go := Advance(2, false, false);
            var s := Step(Step(Step(CLEANUP_ALONE, go), go), go);
            s.threads == map[] && s.calls == 1 && s.served == 0 && !s.pending && !Covered(s)
  {
    var go := Advance(2, false, false);
    var s1 := Step(CLEANUP_ALONE, go);
    assert s1 == State(map[2 := Retiring(true)], Some(2), false, None, {}, 1, 0, 1);
    var s2 := Step(s1, go);
    assert s2 == State(map[2 := CleanupReleasing], Some(2), false, None, {}, 1, 0, 1);
    assert Step(s2, go).threads == map[];
  }

  lemma {:induction false} RunAppend(s: State, a: seq<Action>, b: seq<Action>)
    ensures Run(s, a + b) == Run(Run(s, a), b)
  {
    hide Step;
    if b == [] {
      assert a + b == a;
    } else {
      RunAppend(s, a, b[..|b| - 1]);
      assert (a + b)[..|a + b| - 1] == a + b[..|b| - 1];
    }
  }

  /** A loop whose attempt succeeds goes on if requests have come since it started, with an attempt that
      covers all of them, and otherwise lets the lock go; one whose attempt fails lets the lock go in any
      case and leaves the flag to the next request. */
  lemma LoopGoesOnUnlessItFails(actions: seq<Action>, t: nat, failed: bool)
    requires var s := Run(INITIAL, actions); t in s.threads && s.threads[t].Attempting?
    ensures var s, go := Run(INITIAL, actions), Advance(t, false, false);
            var s1 := Step(s, Advance(t, failed, false));
            var s3 := Step(Step(s1, go), go);
            && s1.served == s.threads[t].since && s3.calls == s.calls && s3.served == s1.served
            && if !failed && s.pending then t in s3.threads && s3.threads[t] == Attempting(s.calls) && !s3.pending
               else if failed then t !in s3.threads && s3.mu.None? && s3.pending == s.pending
               else t in s3.threads && s3.threads[t].Releasing? && Step(s3, go).mu.None?
                    && s.threads[t].since == s.calls
  {
    hide Run, CancelExact;
    RunInv(actions);
    EndsAttempt(Run(INITIAL, actions), t, failed);
  }

  lemma EndsAttempt(s: State, t: nat, failed: bool)
    requires LockExact(s) && TimesExact(s) && t in s.threads && s.threads[t].Attempting?
    ensures var go := Advance(t, false, false);
            var s1 := Step(s, Advance(t, failed, false));
            var s3 := Step(Step(s1, go), go);
            && s1.served == s.threads[t].since && s3.calls == s.calls && s3.served == s1.served
            && if !failed && s.pending then t in s3.threads && s3.threads[t] == Attempting(s.calls) && !s3.pending
               else if failed then t !in s3.threads && s3.mu.None? && s3.pending == s.pending
               else t in s3.threads && s3.threads[t].Releasing? && Step(s3, go).mu.None?
                    && s.threads[t].since == s.calls
  {
    hide Step, TimesExact;
    var s1 := Step(s, Advance(t, failed, false));
    AttemptEnded(s, t, failed);
    if failed {
      LetsGo(s1, t);
    } else {
      LooksAgain(s1, t);
      FlagIfBehind(s, t);
    }
  }

  lemma FlagIfBehind(s: State, t: nat)
    requires TimesExact(s) && t in s.threads && s.threads[t].Attempting?
    ensures s.pending || s.threads[t].since == s.calls
  {
  }

  lemma AttemptEnded(s: State, t: nat, failed: bool)
    requires t in s.threads && s.threads[t].Attempting?
    ensures Step(s, Advance(t, failed, false))
            == Goto(s, t, if failed then Unregistering else Looping).(served := s.threads[t].since)
  {
  }

  lemma LetsGo(s: State, t: nat)
    requires t in s.threads && s.threads[t].Unregistering?
    ensures var go := Advance(t, false, false);
            var s' := Step(Step(s, go), go);
            t !in s'.threads && s'.mu.None? && s'.pending == s.pending && s'.calls == s.calls && s'.served == s.served
  {
    var go := Advance(t, false, false);
    assert Step(s, go) == Goto(s, t, Releasing).(asyncCancel := None);
  }

  lemma LooksAgain(s: State, t: nat)
    requires t in s.threads && s.threads[t].Looping?
    ensures var go := Advance(t, false, false);
            var s' := Step(Step(s, go), go);
            && s'.calls == s.calls && s'.served == s.served && t in s'.threads
            && if s.pending then s'.threads[t] == Attempting(s.calls) && !s'.pending
               else s'.threads[t].Releasing? && Step(s', go).mu.None?
  {
    var go := Advance(t, false, false);
    if s.pending {
      assert Step(s, go) == Goto(s, t, Starting).(pending := false);
    } else {
      var s2 := Goto(s, t, Unregistering);
      assert Step(s, go) == s2;
      assert Step(s2, go) == Goto(s2, t, Releasing).(asyncCancel := None);
    }
  }

  function Solo(t: nat): seq<Action> {
    var go := Advance(t, false, false);
    [CallAsync(t), go, go, go, go]
  }

  /** A flag left behind by the race at the end of the loop is picked up by the next request: alone,
      it starts an attempt that covers every call made before. */
  lemma NextRequestPicksUp(s: State, t: nat)
    requires s.mu.None? && t !in s.threads
    ensures var s' := Run(s, Solo(t));
            t in s'.threads && s'.threads[t] == Attempting(s.calls + 1) && HolderCovers(s') && !s'.pending
  {
    hide Run, Step;
    var a := Solo(t);
    assert Run(s, []) == s by {
      RunNothing(s);
    }
    assert [] + [a[0]] == a[..1];
    RunNext(s, [], a[0]);
    forall i | 0 < i < 5 ensures Run(s, a[..i + 1]) == Step(Run(s, a[..i]), a[i]) {
      RunPrefix(s, a, i);
    }
    assert a[..5] == a;
    SoloSteps(s, t);
  }

  lemma RunPrefix(s: State, a: seq<Action>, i: nat)
    requires i < |a|
    ensures Run(s, a[..i + 1]) == Step(Run(s, a[..i]), a[i])
  {
    assert a[..i + 1] == a[..i] + [a[i]];
    RunNext(s, a[..i], a[i]);
  }

  lemma RunNothing(s: State)
    ensures Run(s, []) == s
  {
  }

  lemma SoloSteps(s: State, t: nat)
    requires s.mu.None? && t !in s.threads
    ensures var a := Solo(t);
            var s' := Step(Step(Step(Step(Step(s, a[0]), a[1]), a[2]), a[3]), a[4]);
            t in s'.threads && s'.threads[t] == Attempting(s.calls + 1) && HolderCovers(s') && !s'.pending
  {
    hide Step, HolderCovers;
    SoloEnters(s, t);
    SoloAttempts(Step(Step(Step(s, Solo(t)[0]), Solo(t)[1]), Solo(t)[2]), t);
  }

  lemma SoloEnters(s: State, t: nat)
    requires s.mu.None? && t !in s.threads
    ensures var a := Solo(t);
            var s' := Step(Step(Step(s, a[0]), a[1]), a[2]);
            t in s'.threads && s'.threads[t].Looping? && s'.mu == Some(t) && s'.pending && s'.calls == s.calls + 1
  {
    var a := Solo(t);
    var s1 := Goto(s, t, Requested).(pending := true, calls := s.calls + 1);
    assert Step(s, a[0]) == s1;
    var s2 := Goto(s1, t, Registering).(mu := Some(t));
    assert Step(s1, a[1]) == s2;
    assert Step(s2, a[2]) == Goto(s2, t, Looping).(asyncCancel := Some(t));
  }

  lemma SoloAttempts(s: State, t: nat)
    requires t in s.threads && s.threads[t].Looping? && s.mu == Some(t) && s.pending
    ensures var s' := Step(Step(s, Solo(t)[3]), Solo(t)[4]);
            t in s'.threads && s'.threads[t] == Attempting(s.calls) && HolderCovers(s') && !s'.pending
  {
    var s4 := Goto(s, t, Starting).(pending := false);
    assert Step(s, Solo(t)[3]) == s4;
    assert Step(s4, Solo(t)[4]) == Goto(s4, t, Attempting(s4.calls));
  }

  lemma RunNext(s: State, actions: seq<Action>, a: Action)
    ensures Run(s, actions + [a]) == Step(Run(s, actions), a)
  {
    assert (actions + [a])[..|actions|] == actions;
  }
}
