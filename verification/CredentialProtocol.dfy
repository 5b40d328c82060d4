/** Threads that share one credential resolver.

    A demand is one call of `resolve_credentials`. Its program counter moves between the points where it
    holds no lock; each locked region is one atomic step on the shared state. The configuration is read
    outside the lock, so it may change between any two steps. A run is any sequence of enabled actions. */
module CredentialProtocol {
  import opened Wrappers
  import opened CredentialState

  datatype Pc =
    | Top                                                 // about to compare the live configuration
    | AtLock                                              // the comparison passed, the lock is not held yet
    | Waiting(notified: bool)                             // parked on the condition variable
    | Calling(call: nat)                                  // inside the blocking backend
    | Returned(call: nat, result: Answer)                 // the backend answered
    | Sampled(call: nat, result: Answer, latest: Config)  // the configuration was read again
    | Finished(answer: Answer, resets: nat)               // what was returned, and how many resets preceded

  /** `called` is history: the index of the one backend call this demand has made. */
  datatype Demand = Demand(config: Config, pc: Pc, called: Option<nat>)

  /** History: which demand called the backend, with what, and how many resets had happened by then. */
  datatype BackendCall = BackendCall(demand: nat, config: Config, generation: nat, resets: nat)

  /** History: a successful resolution that became the lease. */
  datatype Success = Success(call: nat, generation: nat, credentials: Credentials)

  datatype World = World(
    st: State,
    demands: seq<Demand>,
    live: Config,
    calls: seq<BackendCall>,
    successes: seq<Success>,
    resets: nat)

  datatype Action =
    | Arrive(config: Config)
    | Compare(i: nat)
    | Lock(i: nat, now: int)
    | Wake(i: nat)
    | Answered(i: nat, result: Answer)
    | Sample(i: nat)
    | Settle(i: nat)
    | Invalidation
    | Rejection(seen: Config)
    | Reconfigure(config: Config)

  function Initial(live: Config): World {
    World(FRESH, [], live, [], [], 0)
  }

  predicate Enabled(w: World, a: Action) {
    match a {
      case Compare(i) => i < |w.demands| && w.demands[i].pc.Top?
      case Lock(i, _) => i < |w.demands| && w.demands[i].pc.AtLock?
      case Wake(i) => i < |w.demands| && w.demands[i].pc.Waiting?
      case Answered(i, _) => i < |w.demands| && w.demands[i].pc.Calling?
      case Sample(i) => i < |w.demands| && w.demands[i].pc.Returned?
      case Settle(i) => i < |w.demands| && w.demands[i].pc.Sampled? && w.demands[i].pc.call < |w.calls|
      case _ => true
    }
  }

  function Move(w: World, i: nat, pc: Pc): World
    requires i < |w.demands|
  {
    w.(demands := w.demands[i := w.demands[i].(pc := pc)])
  }

  function Notified(demands: seq<Demand>): (r: seq<Demand>)
    ensures |r| == |demands|
    ensures forall i :: 0 <= i < |r| ==>
      r[i] == if demands[i].pc.Waiting? then demands[i].(pc := Waiting(true)) else demands[i]
  {
    seq(|demands|, i requires 0 <= i < |demands| =>
      if demands[i].pc.Waiting? then demands[i].(pc := Waiting(true)) else demands[i])
  }

  function LockStep(w: World, i: nat, now: int): World
    requires i < |w.demands|
  {
    var d := w.demands[i];
    var (st, decision) := Admitted(w.st, d.config, now);
    var w := w.(st := st);
    match decision {
      case Refuse(error) => Move(w, i, Finished(Err(error), w.resets))
      case Share(credentials) => Move(w, i, Finished(Ok(credentials), w.resets))
      case Wait => Move(w, i, Waiting(false))
      case Call(generation) =>
        w.(demands := w.demands[i := d.(pc := Calling(|w.calls|), called := Some(|w.calls|))],
           calls := w.calls + [BackendCall(i, d.config, generation, w.resets)])
    }
  }

  function SettleStep(w: World, i: nat): World
    requires Enabled(w, Settle(i))
  {
    var d := w.demands[i];
    var generation := w.calls[d.pc.call].generation;
    var (st, answer) := Committed(w.st, d.config, generation, d.pc.latest, d.pc.result);
    var w' := Move(w.(st := st), i, Finished(answer, w.resets));
    w'.(demands := Notified(w'.demands),
        successes := if answer.Ok? then w.successes + [Success(d.pc.call, generation, answer.value)] else w.successes)
  }

  function Step(w: World, a: Action): World
    requires Enabled(w, a)
  {
    match a {
      case Arrive(config) => w.(demands := w.demands + [Demand(config, Top, None)])
      case Compare(i) =>
        Move(w, i, if w.live != w.demands[i].config then Finished(Err(Unavailable), w.resets) else AtLock)
      case Lock(i, now) => LockStep(w, i, now)
      case Wake(i) => Move(w, i, Top)
      case Answered(i, result) => Move(w, i, Returned(w.demands[i].pc.call, result))
      case Sample(i) => Move(w, i, Sampled(w.demands[i].pc.call, w.demands[i].pc.result, w.live))
      case Settle(i) => SettleStep(w, i)
      case Invalidation =>
        w.(st := Cleared(w.st, w.live, None), demands := Notified(w.demands), resets := w.resets + 1)
      case Rejection(seen) =>
        w.(st := Cleared(w.st, seen, Some(seen)), demands := Notified(w.demands), resets := w.resets + 1)
      case Reconfigure(config) => w.(live := config)
    }
  }

  predicate CanRun(w: World, actions: seq<Action>)
    decreases |actions|
  {
    actions == [] || (Enabled(w, actions[0]) && CanRun(Step(w, actions[0]), actions[1..]))
  }

  function Run(w: World, actions: seq<Action>): World
    requires CanRun(w, actions)
    decreases |actions|
  {
    if actions == [] then w else Run(Step(w, actions[0]), actions[1..])
  }

  // ---- what holds in every reachable state ----

  predicate InFlight(pc: Pc) {
    pc.Calling? || pc.Returned? || pc.Sampled?
  }

  /** At most one of the three outcomes is kept, it belongs to the adopted configuration, and a lease
      belongs to the current generation. */
  predicate OneOutcome(st: State) {
    && !(st.lease.Some? && st.rejection.Some?)
    && !(st.lease.Some? && st.lastError.Some?)
    && !(st.rejection.Some? && st.lastError.Some?)
    && (st.lease.Some? ==> st.config == Some(st.lease.value.config) && st.lease.value.generation == st.generation)
    && (st.rejection.Some? ==> st.config == st.rejection)
    && (st.lastError.Some? ==> st.config == Some(st.lastError.value.0))
    && (st.resolving ==> st.lease.None?)
  }

  predicate Undecided(pc: Pc) {
    pc.Top? || pc.AtLock? || pc.Waiting?
  }

  /** The call in flight is the newest one; it may still commit only while nothing has replaced its
      generation. */
  predicate FlightOk(w: World, i: nat, d: Demand)
    requires InFlight(d.pc)
  {
    && w.st.resolving
    && d.pc.call == |w.calls| - 1
    && var call := w.calls[d.pc.call];
    && call.demand == i && call.config == d.config
    && call.generation <= w.st.generation
    && (call.generation == w.st.generation ==>
          w.st.config == Some(d.config) && w.st.rejection.None? && call.resets == w.resets)
  }

  /** Credentials handed to a demand come from a successful call for that demand's own configuration,
      begun after the latest reset that preceded the answer. */
  ghost predicate AnswerOk(w: World, d: Demand, credentials: Credentials, resets: nat) {
    exists k | 0 <= k < |w.successes| ::
      && w.successes[k].credentials == credentials
      && w.successes[k].call < |w.calls|
      && w.calls[w.successes[k].call].config == d.config
      && w.calls[w.successes[k].call].resets == resets
  }

  /** An unnotified waiter has a call in flight that will notify it, so no wake-up is lost. */
  ghost predicate DemandOk(w: World, i: nat)
    requires i < |w.demands|
  {
    var d := w.demands[i];
    && (Undecided(d.pc) ==> d.called.None?)
    && (InFlight(d.pc) ==> FlightOk(w, i, d))
    && (d.pc == Waiting(false) ==> w.st.resolving)
    && (d.pc.Finished? && d.pc.answer.Ok? ==> AnswerOk(w, d, d.pc.answer.value, d.pc.resets))
  }

  /** A call belongs to the one demand that remembers it, and uses that demand's configuration. */
  predicate CallOk(w: World, c: nat)
    requires c < |w.calls|
  {
    && w.calls[c].demand < |w.demands|
    && w.demands[w.calls[c].demand].called == Some(c)
    && w.demands[w.calls[c].demand].config == w.calls[c].config
  }

  predicate SuccessOk(w: World, k: nat)
    requires k < |w.successes|
  {
    var s := w.successes[k];
    && s.call < |w.calls|
    && s.generation <= w.st.generation
    && (s.generation == w.st.generation ==> w.st.lease.Some?)
  }

  ghost predicate Increasing(successes: seq<Success>) {
    forall k, m :: 0 <= k < m < |successes| ==> successes[k].generation < successes[m].generation
  }

  /** The lease is the newest success, for the adopted configuration and begun after the latest reset. */
  predicate LeaseOk(w: World) {
    w.st.lease.Some? ==>
      && |w.successes| > 0
      && var s := w.successes[|w.successes| - 1];
      && s.generation == w.st.lease.value.generation
      && s.credentials == w.st.lease.value.credentials
      && s.call < |w.calls|
      && w.calls[s.call].config == w.st.lease.value.config
      && w.calls[s.call].resets == w.resets
  }

  /** `resolving` means that the demand that made the newest call has not settled yet. */
  predicate ResolvingOk(w: World) {
    w.st.resolving ==>
      && |w.calls| > 0
      && w.calls[|w.calls| - 1].demand < |w.demands|
      && InFlight(w.demands[w.calls[|w.calls| - 1].demand].pc)
  }

  ghost predicate Inv(w: World) {
    && OneOutcome(w.st)
    && ResolvingOk(w)
    && LeaseOk(w)
    && Increasing(w.successes)
    && (forall i :: 0 <= i < |w.demands| ==> DemandOk(w, i))
    && (forall c :: 0 <= c < |w.calls| ==> CallOk(w, c))
    && (forall k :: 0 <= k < |w.successes| ==> SuccessOk(w, k))
  }

  lemma InitialInv(live: Config)
    ensures Inv(Initial(live))
  {}

  /** A success stays a valid source of an answer as the history grows. */
  lemma AnswerStays(w: World, w': World, d: Demand, credentials: Credentials, resets: nat)
    requires AnswerOk(w, d, credentials, resets)
    requires w.successes <= w'.successes && w.calls <= w'.calls
    ensures AnswerOk(w', d, credentials, resets)
  {
    var k :| 0 <= k < |w.successes| && w.successes[k].credentials == credentials &&
      w.successes[k].call < |w.calls| && w.calls[w.successes[k].call].config == d.config &&
      w.calls[w.successes[k].call].resets == resets;
    assert w'.successes[k] == w.successes[k];
  }

  /** What a step has to establish about one demand that it does not move. */
  lemma BystanderStays(w: World, w': World, i: nat)
    requires i < |w.demands| && i < |w'.demands| && DemandOk(w, i)
    requires w'.demands[i] == w.demands[i]
    requires w.successes <= w'.successes && w.calls <= w'.calls
    requires InFlight(w.demands[i].pc) ==> FlightOk(w', i, w.demands[i])
    requires w.demands[i].pc == Waiting(false) ==> w'.st.resolving
    ensures DemandOk(w', i)
  {
    var d := w.demands[i];
    if d.pc.Finished? && d.pc.answer.Ok? {
      AnswerStays(w, w', d, d.pc.answer.value, d.pc.resets);
    }
  }

  lemma HistoryStays(w: World, w': World)
    requires Inv(w)
    requires w'.successes == w.successes && w.calls == w'.calls
    requires |w.demands| <= |w'.demands|
    requires forall i | 0 <= i < |w.demands| ::
      w'.demands[i].called == w.demands[i].called && w'.demands[i].config == w.demands[i].config
    requires w.st.generation <= w'.st.generation
    requires w.st.generation == w'.st.generation ==> w'.st.lease == w.st.lease
    ensures forall c :: 0 <= c < |w'.calls| ==> CallOk(w', c)
    ensures forall k :: 0 <= k < |w'.successes| ==> SuccessOk(w', k)
  {
    forall c | 0 <= c < |w'.calls| ensures CallOk(w', c) {
      assert CallOk(w, c);
    }
    forall k | 0 <= k < |w'.successes| ensures SuccessOk(w', k) {
      assert SuccessOk(w, k);
    }
  }

  /** The first locked region, seen from outside: it keeps the generation only if it keeps the lease. */
  lemma AdmissionFacts(st: State, config: Config, now: int)
    requires OneOutcome(st)
    ensures var (st', decision) := Admitted(st, config, now);
      && OneOutcome(st')
      && st'.config == Some(config)
      && st'.generation >= st.generation
      && (st'.generation == st.generation ==> st'.lease == st.lease && st'.rejection == st.rejection)
      && (st'.lease.Some? ==> st' == st)
      && (decision.Call? <==> st' != st && !st.resolving && st'.resolving)
      && (decision.Call? ==> decision.generation == st'.generation && st'.rejection.None?)
      && (!decision.Call? ==> st'.resolving == st.resolving)
      && (decision.Wait? ==> st.resolving)
      && (decision.Share? ==> st.lease.Some? && decision.credentials == st.lease.value.credentials && st' == st)
  {}

  lemma LockKeepsInv(w: World, i: nat, now: int)
    requires Inv(w) && Enabled(w, Lock(i, now))
    ensures Inv(Step(w, Lock(i, now)))
  {
    var w' := Step(w, Lock(i, now));
    var decision := Admitted(w.st, w.demands[i].config, now).1;
    AdmissionFacts(w.st, w.demands[i].config, now);
    assert DemandOk(w, i);
    if decision.Call? {
      forall c | 0 <= c < |w'.calls| ensures CallOk(w', c) {
        assert c < |w.calls| ==> CallOk(w, c);
      }
      forall k | 0 <= k < |w'.successes| ensures SuccessOk(w', k) {
        assert SuccessOk(w, k);
      }
    } else {
      HistoryStays(w, w');
    }
    forall j | 0 <= j < |w'.demands| ensures DemandOk(w', j) {
      assert DemandOk(w, j);
      if j != i {
        BystanderStays(w, w', j);
      } else if decision.Share? {
        assert w'.successes[|w.successes| - 1].credentials == decision.credentials;
      }
    }
  }

  lemma SettleKeepsInv(w: World, i: nat)
    requires Inv(w) && Enabled(w, Settle(i))
    ensures Inv(Step(w, Settle(i)))
  {
    var w' := Step(w, Settle(i));
    assert DemandOk(w, i) && FlightOk(w, i, w.demands[i]);
    forall c | 0 <= c < |w'.calls| ensures CallOk(w', c) {
      assert CallOk(w, c);
    }
    forall k | 0 <= k < |w'.successes| ensures SuccessOk(w', k) {
      assert k < |w.successes| ==> SuccessOk(w, k);
    }
    forall k | 0 <= k < |w.successes| ensures w.st.lease.None? ==> w.successes[k].generation < w.st.generation {
      assert SuccessOk(w, k);
    }
    forall j | 0 <= j < |w'.demands| ensures DemandOk(w', j) {
      assert DemandOk(w, j);
      if j == i {
        assert w'.demands[i].pc.answer.Ok? ==>
          w'.successes[|w.successes|].credentials == w'.demands[i].pc.answer.value;
      } else if !w.demands[j].pc.Waiting? {
        BystanderStays(w, w', j);
      }
    }
  }

  lemma ResetKeepsInv(w: World, a: Action)
    requires Inv(w) && (a.Invalidation? || a.Rejection?)
    ensures Inv(Step(w, a))
  {
    var w' := Step(w, a);
    HistoryStays(w, w');
    forall j | 0 <= j < |w'.demands| ensures DemandOk(w', j) {
      assert DemandOk(w, j);
      if !w.demands[j].pc.Waiting? {
        BystanderStays(w, w', j);
      }
    }
  }

  lemma LocalKeepsInv(w: World, a: Action)
    requires Inv(w) && Enabled(w, a)
    requires !a.Lock? && !a.Settle? && !a.Invalidation? && !a.Rejection?
    ensures Inv(Step(w, a))
  {
    var w' := Step(w, a);
    HistoryStays(w, w');
    forall j | 0 <= j < |w'.demands| ensures DemandOk(w', j) {
      if j < |w.demands| {
        assert DemandOk(w, j);
        if w'.demands[j] == w.demands[j] {
          BystanderStays(w, w', j);
        }
      }
    }
  }

  lemma StepKeepsInv(w: World, a: Action)
    requires Inv(w) && Enabled(w, a)
    ensures Inv(Step(w, a))
  {
    match a {
      case Lock(i, now) => LockKeepsInv(w, i, now);
      case Settle(i) => SettleKeepsInv(w, i);
      case Invalidation => ResetKeepsInv(w, a);
      case Rejection(_) => ResetKeepsInv(w, a);
      case _ => LocalKeepsInv(w, a);
    }
  }

  /** Every interleaving of any number of demands, resets and configuration changes stays within `Inv`. */
  lemma {:induction false} RunsKeepInv(w: World, actions: seq<Action>)
    requires Inv(w) && CanRun(w, actions)
    ensures Inv(Run(w, actions))
    decreases |actions|
  {
    if actions != [] {
      StepKeepsInv(w, actions[0]);
      RunsKeepInv(Step(w, actions[0]), actions[1..]);
    }
  }

  // ---- what callers and the Settings window can rely on ----

  ghost predicate Reachable(w: World) {
    exists live, actions :: CanRun(Initial(live), actions) && w == Run(Initial(live), actions)
  }

  /** The credentials stay valid for more than five minutes. */
  predicate Fresh(credentials: Credentials, now: int) {
    credentials.expiresAt.Some? ==> credentials.expiresAt.value > now + 300_000
  }

  /** There is a lease for the configuration, and it does not expire soon. */
  predicate Leased(w: World, config: Config, now: int) {
    w.st.lease.Some? && w.st.lease.value.config == config && Fresh(w.st.lease.value.credentials, now)
  }

  predicate RejectedNow(w: World, config: Config) { w.st.rejection == Some(config) }

  lemma ReachableInv(w: World)
    requires Reachable(w)
    ensures Inv(w)
  {
    var live, actions :| CanRun(Initial(live), actions) && w == Run(Initial(live), actions);
    InitialInv(live);
    hide Inv, Initial;
    RunsKeepInv(Initial(live), actions);
  }

  lemma ReachableOutcome(w: World)
    requires Reachable(w)
    ensures OneOutcome(w.st)
  {
    ReachableInv(w);
  }

  /** What a demand finds when it takes the lock: a rejection of its configuration, credentials that stay valid, a call
      in flight to wait for, or else it is the one that calls the backend. Nothing else is decided, and the first two
      change nothing but the demand. Times are those of a 64-bit clock. */
  lemma LockDecides(w: World, i: nat, now: int)
    requires Reachable(w) && Enabled(w, Lock(i, now)) && now >= I64_MIN
    ensures var config, next := w.demands[i].config, Step(w, Lock(i, now));
      var pc := next.demands[i].pc;
      && (pc == Finished(Err(Rejected), w.resets) <==> RejectedNow(w, config))
      && (pc.Finished? && pc.answer.Ok? <==> Leased(w, config, now))
      && (pc.Finished? && pc.answer.Ok? ==> pc == Finished(Ok(w.st.lease.value.credentials), w.resets))
      && (pc == Waiting(false) <==> !RejectedNow(w, config) && !Leased(w, config, now) && w.st.resolving)
      && (pc == Calling(|w.calls|) <==> !RejectedNow(w, config) && !Leased(w, config, now) && !w.st.resolving)
      && (pc.Calling? ==>
            next.calls == w.calls + [BackendCall(i, config, next.st.generation, w.resets)] && next.st.resolving)
      && (pc.Finished? ==> next.st == w.st) && (!pc.Calling? ==> next.calls == w.calls)
      && next.successes == w.successes && next.live == w.live && next.resets == w.resets
      && forall j :: 0 <= j < |w.demands| && j != i ==> next.demands[j] == w.demands[j]
  {
    ReachableOutcome(w);
    hide Reachable, Inv;
  }

  /** Before it takes the lock: a demand whose configuration is no longer the live one gives up at once, and only such a
      demand does; it never follows the settings to another configuration. */
  lemma CompareDecides(w: World, i: nat)
    requires Enabled(w, Compare(i))
    ensures var next := Step(w, Compare(i));
      && (next.demands[i].pc.AtLock? <==> w.live == w.demands[i].config)
      && (next.demands[i].pc == Finished(Err(Unavailable), w.resets) <==> w.live != w.demands[i].config)
      && next == w.(demands := w.demands[i := w.demands[i].(pc := next.demands[i].pc)])
  {}

  /** A demand for another configuration, and the replacement of a lease that expires soon, start a new generation with
      nothing on record; any other demand leaves the record as it is. */
  lemma LockRemembers(w: World, i: nat, now: int)
    requires Reachable(w) && Enabled(w, Lock(i, now)) && now >= I64_MIN
    ensures var config, next := w.demands[i].config, Step(w, Lock(i, now)).st;
      if w.st.config != Some(config) || (w.st.lease.Some? && !Leased(w, config, now)) then
        next == State(Some(config), w.st.generation + 1, None, next.resolving, None, None)
      else next == w.st.(resolving := next.resolving)
  {
    ReachableOutcome(w);
    hide Reachable, Inv;
  }

  /** The call of this demand in flight may still decide: its configuration was live when it was last read, and its
      generation is the current one. */
  predicate Current(w: World, i: nat)
    requires Enabled(w, Settle(i))
  {
    var d := w.demands[i];
    d.pc.latest == d.config && w.calls[d.pc.call].generation == w.st.generation
  }

  /** Then the demand gets exactly what the backend answered, and the answer is on record for everybody; otherwise it
      gets nothing, and nothing is on record. Either way the next call may begin, and everybody who waits is told. */
  lemma SettleDelivers(w: World, i: nat)
    requires Reachable(w) && Enabled(w, Settle(i))
    ensures var d, next := w.demands[i], Step(w, Settle(i));
      var answer := if Current(w, i) then d.pc.result else Err(Unavailable);
      && next.demands[i] == d.(pc := Finished(answer, w.resets)) && !next.st.resolving
      && (Current(w, i) && d.pc.result.Ok? ==>
            next.st.lease == Some(Lease(d.config, w.st.generation, d.pc.result.value)) && next.st.lastError.None?)
      && (Current(w, i) && d.pc.result.Err? ==>
            next.st.lease.None? && next.st.lastError == Some((d.config, d.pc.result.error)))
      && (if Current(w, i) then next.st.config == Some(d.config) && next.st.rejection.None?
          else next.st == w.st.(resolving := false))
      && next.st.generation == w.st.generation && next.calls == w.calls && next.live == w.live
      && forall j :: 0 <= j < |w.demands| && j != i ==>
           next.demands[j] == if w.demands[j].pc.Waiting? then w.demands[j].(pc := Waiting(true)) else w.demands[j]
  {
    ReachableInv(w);
    assert DemandOk(w, i) && FlightOk(w, i, w.demands[i]);
    hide Reachable, Inv;
  }

  /** Nothing of the step stands against a call for this configuration: no reset, and no other configuration takes the
      lock. The settings may change. */
  predicate Quiet(w: World, a: Action, config: Config) {
    && !a.Invalidation? && !a.Rejection? && !a.Settle?
    && (a.Lock? && a.i < |w.demands| ==> w.demands[a.i].config == config)
  }

  predicate QuietRun(w: World, actions: seq<Action>, config: Config)
    requires CanRun(w, actions)
    decreases |actions|
  {
    actions == [] ||
    (Quiet(w, actions[0], config) && QuietRun(Step(w, actions[0]), actions[1..], config))
  }

  /** The call in flight of this demand still has the current generation. */
  predicate Undisturbed(w: World, i: nat) {
    && i < |w.demands| && InFlight(w.demands[i].pc) && w.demands[i].pc.call < |w.calls|
    && w.calls[w.demands[i].pc.call].generation == w.st.generation
  }

  lemma QuietStep(w: World, a: Action, i: nat)
    requires Inv(w) && Enabled(w, a) && Undisturbed(w, i) && Quiet(w, a, w.demands[i].config)
    ensures Undisturbed(Step(w, a), i) && Step(w, a).demands[i].config == w.demands[i].config
    ensures Step(w, a).st.config == Some(w.demands[i].config)
  {
    assert DemandOk(w, i);
    if a.Lock? {
      AdmissionFacts(w.st, w.demands[a.i].config, a.now);
    }
  }

  lemma {:induction false} QuietRunKeeps(w: World, actions: seq<Action>, i: nat)
    requires Inv(w) && CanRun(w, actions) && Undisturbed(w, i) && QuietRun(w, actions, w.demands[i].config)
    ensures Undisturbed(Run(w, actions), i) && Run(w, actions).demands[i].config == w.demands[i].config
    decreases |actions|
  {
    hide Inv;
    if actions != [] {
      StepKeepsInv(w, actions[0]);
      QuietStep(w, actions[0], i);
      hide Undisturbed, Quiet;
      QuietRunKeeps(Step(w, actions[0]), actions[1..], i);
    }
  }

  lemma RunsAreReachable(w: World, actions: seq<Action>)
    requires Reachable(w) && CanRun(w, actions)
    ensures Reachable(Run(w, actions))
  {
    var live, before :| CanRun(Initial(live), before) && w == Run(Initial(live), before);
    RunsConcat(Initial(live), before, actions);
  }

  lemma StepsAreReachable(w: World, a: Action)
    requires Reachable(w) && Enabled(w, a)
    ensures Reachable(Step(w, a))
  {
    assert [a][1..] == [];
    assert Run(Step(w, a), []) == Step(w, a);
    assert CanRun(w, [a]) && Run(w, [a]) == Step(w, a);
    RunsAreReachable(w, [a]);
  }

  lemma {:induction false} RunsConcat(w: World, before: seq<Action>, actions: seq<Action>)
    requires CanRun(w, before) && CanRun(Run(w, before), actions)
    ensures CanRun(w, before + actions) && Run(w, before + actions) == Run(Run(w, before), actions)
    decreases |before|
  {
    if before == [] {
      assert before + actions == actions;
    } else {
      assert (before + actions)[1..] == before[1..] + actions;
      RunsConcat(Step(w, before[0]), before[1..], actions);
    }
  }

  /** From end to end: a demand begins a call, others come and go, the settings may change back and forth, but nothing
      resets the resolver and no other configuration takes the lock. If its configuration is the live one when the call
      is over, then the demand gets what the backend answered; and if that was credentials, then any demand for
      the same configuration that takes the lock next, as long as they stay valid, gets them without a call. */
  lemma CallDelivers(w: World, i: nat, now: int, actions: seq<Action>, j: nat, later: int)
    requires Reachable(w) && Enabled(w, Lock(i, now)) && Step(w, Lock(i, now)).demands[i].pc.Calling?
    requires CanRun(Step(w, Lock(i, now)), actions)
    requires QuietRun(Step(w, Lock(i, now)), actions, w.demands[i].config)
    requires var over := Run(Step(w, Lock(i, now)), actions);
      Enabled(over, Settle(i)) && over.demands[i].pc.latest == w.demands[i].config
    ensures var over := Run(Step(w, Lock(i, now)), actions);
      var next, result := Step(over, Settle(i)), over.demands[i].pc.result;
      && next.demands[i].pc == Finished(result, over.resets)
      && (result.Ok? && Enabled(next, Lock(j, later)) && next.demands[j].config == w.demands[i].config &&
          later >= I64_MIN && Fresh(result.value, later) ==>
            var shared := Step(next, Lock(j, later));
            shared.demands[j].pc == Finished(result, over.resets) && shared.calls == over.calls && shared.st == next.st)
  {
    var begun := Step(w, Lock(i, now));
    assert Undisturbed(begun, i);
    StepsAreReachable(w, Lock(i, now));
    RunsAreReachable(begun, actions);
    ReachableInv(begun);
    QuietRunKeeps(begun, actions, i);
    var over := Run(begun, actions);
    SettleDelivers(over, i);
    var next := Step(over, Settle(i));
    var result := over.demands[i].pc.result;
    if result.Ok? && Enabled(next, Lock(j, later)) && later >= I64_MIN && Fresh(result.value, later)
      && next.demands[j].config == w.demands[i].config {
      StepsAreReachable(over, Settle(i));
      LockDecides(next, j, later);
    }
  }

  /** A reset discards everything on record, and whatever is in flight will deliver nothing. A rejection is then
      answered at once, without a call, for as long as nothing else happens. */
  lemma ResetDiscards(w: World, a: Action)
    requires Reachable(w) && (a.Invalidation? || a.Rejection?)
    ensures var next := Step(w, a);
      && next.st.lease.None? && next.st.lastError.None? && next.st.resolving == w.st.resolving
      && next.st.config == Some(if a.Rejection? then a.seen else w.live)
      && next.st.rejection == (if a.Rejection? then Some(a.seen) else None)
      && next.st.generation == w.st.generation + 1
      && (forall i :: 0 <= i < |next.demands| && InFlight(next.demands[i].pc) ==> !Undisturbed(next, i))
      && (forall i :: 0 <= i < |next.demands| ==> next.demands[i].pc != Waiting(false))
  {
    ReachableInv(w);
    var next := Step(w, a);
    forall i | 0 <= i < |next.demands| && InFlight(next.demands[i].pc) ensures !Undisturbed(next, i) {
      assert DemandOk(w, i);
    }
  }

  /** At most one backend call is in flight, and no demand ever makes a second one. */
  lemma SingleFlighted(w: World, i: nat, j: nat, c: nat, e: nat)
    requires Reachable(w)
    requires i < |w.demands| && j < |w.demands| && InFlight(w.demands[i].pc) && InFlight(w.demands[j].pc)
    requires c < |w.calls| && e < |w.calls| && w.calls[c].demand == w.calls[e].demand
    ensures i == j && c == e
    ensures w.calls[c].demand < |w.demands| && w.calls[c].config == w.demands[w.calls[c].demand].config
  {
    ReachableInv(w);
    assert DemandOk(w, i) && DemandOk(w, j) && CallOk(w, c) && CallOk(w, e);
  }

  lemma {:induction false} HistoryGrows(w: World, actions: seq<Action>)
    requires CanRun(w, actions)
    ensures w.successes <= Run(w, actions).successes && w.calls <= Run(w, actions).calls
    decreases |actions|
  {
    if actions != [] {
      var next := Step(w, actions[0]);
      assert w.successes <= next.successes && w.calls <= next.calls;
      HistoryGrows(next, actions[1..]);
    }
  }

  /** A generation names one account: leases seen at the same generation, at any two moments of a run,
      carry the same credentials, so a cache keyed by generation never mixes accounts. */
  lemma GenerationNamesOneAccount(w: World, actions: seq<Action>)
    requires Reachable(w) && CanRun(w, actions)
    requires var w' := Run(w, actions);
      w.st.lease.Some? && w'.st.lease.Some? && w.st.lease.value.generation == w'.st.lease.value.generation
    ensures Run(w, actions).st.lease == w.st.lease
  {
    ReachableInv(w);
    RunsKeepInv(w, actions);
    HistoryGrows(w, actions);
    var w' := Run(w, actions);
    var k, m := |w.successes| - 1, |w'.successes| - 1;
    assert w'.successes[k] == w.successes[k];
    assert Increasing(w'.successes) && LeaseOk(w) && LeaseOk(w');
    assert k == m;
  }

  predicate CanMove(pc: Pc) {
    !pc.Finished? && pc != Waiting(false)
  }

  /** Nobody is stranded: while a demand is unfinished, some demand has a step that is not a spurious
      wake-up. */
  lemma SomeoneCanMove(w: World, i: nat)
    requires Reachable(w) && i < |w.demands| && !w.demands[i].pc.Finished?
    ensures exists j :: 0 <= j < |w.demands| && CanMove(w.demands[j].pc)
  {
    ReachableInv(w);
    assert DemandOk(w, i);
    if w.demands[i].pc == Waiting(false) {
      var caller := w.calls[|w.calls| - 1].demand;
      assert InFlight(w.demands[caller].pc) && CanMove(w.demands[caller].pc);
    } else {
      assert CanMove(w.demands[i].pc);
    }
  }

  /** What Settings shows is never contradicted by another part of the state. */
  lemma ProjectionIsDecisive(w: World, config: Config, now: int)
    requires Reachable(w)
    ensures var shown := Projected(w.st, config, now);
      && (shown.ShowReady? || shown.ShowRefreshing? <==>
            w.st.lease.Some? && w.st.config == Some(config))
      && (CacheIdentity(w.st, config).Some? <==> shown.ShowReady? || shown.ShowRefreshing?)
      && (CacheIdentity(w.st, config).Some? ==>
            CacheIdentity(w.st, config) == Some(w.st.lease.value.credentials.identity))
      && (shown.ShowResolving? ==> CacheIdentity(w.st, config).None? && w.st.rejection.None?)
      && (w.st.config != Some(config) ==> shown.ShowAbsent?)
      && (now >= I64_MIN ==> (shown.ShowReady? <==> Leased(w, config, now)))
      && (shown.ShowResolving? <==> w.st.resolving && w.st.config == Some(config) && !RejectedNow(w, config))
      && (shown.ShowRejected? <==>
            RejectedNow(w, config) || (!w.st.resolving && w.st.lastError == Some((config, Rejected))))
      && (shown.ShowError? <==> !w.st.resolving && w.st.lastError == Some((config, Unavailable)))
  {
    ReachableInv(w);
  }
}
