/** The state that the credential resolver keeps behind its mutex, and one class method for each region
    of code that runs while the lock is held.

    Every method is proved against a function of the state before it. What those functions guarantee when
    threads interleave is proved in `CredentialProtocol`. */
module CredentialState {
  import opened Wrappers

  datatype Mode = DefaultChain | Profile | StaticKeychain | AssumeRole | Sso

  datatype Config = Config(mode: Mode, profile: Option<string>, region: Option<string>, roleArn: Option<string>)

  datatype CredentialError = Absent | Rejected | Unavailable

  /** Opaque account material, reduced to its identity and its expiry in Unix milliseconds. */
  datatype Credentials = Credentials(identity: nat, expiresAt: Option<int>)

  type Answer = Result<Credentials, CredentialError>

  datatype Lease = Lease(config: Config, generation: nat, credentials: Credentials)

  datatype State = State(
    config: Option<Config>,
    generation: nat,
    lease: Option<Lease>,
    resolving: bool,
    rejection: Option<Config>,
    lastError: Option<(Config, CredentialError)>)

  const FRESH := State(None, 0, None, false, None, None)

  const EXPIRY_SKEW_MS: int := 5 * 60 * 1000
  const I64_MIN: int := -0x8000_0000_0000_0000

  predicate IsExpiring(credentials: Credentials, now: int) {
    credentials.expiresAt.Some? &&
    var early := credentials.expiresAt.value - EXPIRY_SKEW_MS;
    (if early < I64_MIN then I64_MIN else early) <= now
  }

  /** What the first locked region decides for a demand. */
  datatype Decision =
    | Refuse(error: CredentialError)
    | Share(credentials: Credentials)
    | Wait
    | Call(generation: nat)

  /** The state on which the decision is taken: a different configuration starts a new generation. */
  function Adopted(st: State, config: Config): State {
    if st.config == Some(config) then st
    else State(Some(config), st.generation + 1, None, st.resolving, None, None)
  }

  /** An expiring lease is given up together with its generation. */
  function Renewed(st: State): State {
    st.(generation := st.generation + 1, lease := None, lastError := None)
  }

  predicate Usable(st: State, config: Config) {
    st.lease.Some? && st.lease.value.config == config && st.lease.value.generation == st.generation
  }

  function Begun(st: State): (State, Decision) {
    if st.resolving then (st, Wait) else (st.(resolving := true), Call(st.generation))
  }

  function Admitted(st: State, config: Config, now: int): (State, Decision) {
    var st := Adopted(st, config);
    if st.rejection == Some(config) then (st, Refuse(Rejected))
    else if Usable(st, config) then
      if IsExpiring(st.lease.value.credentials, now) then Begun(Renewed(st))
      else (st, Share(st.lease.value.credentials))
    else Begun(st)
  }

  predicate StillCurrent(st: State, config: Config, generation: nat, latest: Config) {
    latest == config && st.config == Some(config) && st.generation == generation
  }

  function Committed(st: State, config: Config, generation: nat, latest: Config, result: Answer): (State, Answer) {
    var st := st.(resolving := false);
    if !StillCurrent(st, config, generation, latest) then (st, Err(Unavailable))
    else match result {
      case Ok(credentials) =>
        (st.(lease := Some(Lease(config, generation, credentials)), lastError := None), result)
      case Err(error) =>
        (st.(lease := None, lastError := Some((config, error))), result)
    }
  }

  /** `invalidate` and `mark_rejected` differ only in what they leave in `rejection`. */
  function Cleared(st: State, config: Config, rejection: Option<Config>): State {
    State(Some(config), st.generation + 1, None, st.resolving, rejection, None)
  }

  datatype Projection = ShowAbsent | ShowResolving | ShowRefreshing | ShowReady | ShowRejected | ShowError

  /** The mutex-protected part of the resolver. */
  class BedrockCredentialResolver {
    var config: Option<Config>
    var generation: nat
    var lease: Option<Lease>
    var resolving: bool
    var rejection: Option<Config>
    var lastError: Option<(Config, CredentialError)>

    ghost function Now(): State
      reads this
    {
      State(config, generation, lease, resolving, rejection, lastError)
    }

    constructor ()
      ensures Now() == FRESH
    {
      config, generation, lease := None, 0, None;
      resolving, rejection, lastError := false, None, None;
    }

    /** First locked region of `resolve_credentials`. */
    method Admit(requested: Config, now: int) returns (decision: Decision)
      modifies this
      ensures (Now(), decision) == Admitted(old(Now()), requested, now)
    {
      if config != Some(requested) {
        generation := generation + 1;
        config := Some(requested);
        lease := None;
        rejection := None;
        lastError := None;
      }
      if rejection == Some(requested) {
        return Refuse(Rejected);
      }
      if lease.Some? && lease.value.config == requested && lease.value.generation == generation {
        if !IsExpiring(lease.value.credentials, now) {
          return Share(lease.value.credentials);
        }
        generation := generation + 1;
        lease := None;
        lastError := None;
      }
      if resolving {
        return Wait;
      }
      resolving := true;
      return Call(generation);
    }

    /** Second locked region: the backend has answered and the configuration has been read again. */
    method Commit(requested: Config, begun: nat, latest: Config, result: Answer) returns (answer: Answer)
      modifies this
      ensures (Now(), answer) == Committed(old(Now()), requested, begun, latest, result)
    {
      resolving := false;
      var stillCurrent := latest == requested && config == Some(requested) && generation == begun;
      if stillCurrent {
        match result {
          case Ok(credentials) =>
            lease := Some(Lease(requested, begun, credentials));
            lastError := None;
          case Err(error) =>
            lease := None;
            lastError := Some((requested, error));
        }
        return result;
      }
      return Err(Unavailable);
    }

    method Invalidate(current: Config)
      modifies this
      ensures Now() == Cleared(old(Now()), current, None)
    {
      generation := generation + 1;
      config := Some(current);
      lease := None;
      rejection := None;
      lastError := None;
    }

    method MarkRejected(seen: Config)
      modifies this
      ensures Now() == Cleared(old(Now()), seen, Some(seen))
    {
      generation := generation + 1;
      config := Some(seen);
      lease := None;
      rejection := Some(seen);
      lastError := None;
    }
  }

  /** The secret-free projection shown in Settings. */
  function Projected(st: State, config: Config, now: int): Projection {
    if st.rejection == Some(config) then ShowRejected
    else if st.resolving && st.config == Some(config) then ShowResolving
    else if Usable(st, config) then
      if IsExpiring(st.lease.value.credentials, now) then ShowRefreshing else ShowReady
    else if st.lastError.Some? && st.lastError.value.0 == config then
      match st.lastError.value.1 {
        case Rejected => ShowRejected
        case Unavailable => ShowError
        case Absent => ShowAbsent
      }
    else ShowAbsent
  }

  function CacheIdentity(st: State, config: Config): Option<nat> {
    if Usable(st, config) then Some(st.lease.value.credentials.identity) else None
  }
}
