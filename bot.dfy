/**
 * The start-up of one shard: log in, wait for the gateway's Ready event,
 * compose the services, start handling commands, register the modules, and
 * only then report ready and run the ready subscriptions. A failed login or
 * a failure while composing the services ends the process with an exit code.
 */
module BotStartup {
  import opened Wrappers

  /** How far the start-up has come. */
  datatype Phase =
    | Constructed
    | AwaitingReady       // logged in and started, the Ready handler attached
    | LoggedIn            // the first Ready came; guild handlers attached
    | Composed            // services composed
    | Handling            // the command handler is handling messages
    | Ready               // modules registered, `IsReady` set
    | Exited(code: int)   // the process ended with this exit code

  /** What happens to a shard during start-up. */
  datatype Event =
    | LoginSucceeded
    | LoginFailed(isHttpError: bool)
    | ReadyFired
    | ServicesComposed
    | ServicesFailed
    | HandlingStarted
    | ModulesRegistered

  /** The events that lead to readiness, in the order they must come. */
  const ReadyPath: seq<Event> := [LoginSucceeded, ReadyFired, ServicesComposed, HandlingStarted, ModulesRegistered]

  const HttpLoginExitCode := 3
  const LoginExitCode := 4
  const ServicesExitCode := 9

  /** Progress along the ready path; an exited shard has made none that counts. */
  function Rank(p: Phase): (r: nat)
    ensures r <= |ReadyPath|
  {
    match p
    case Constructed => 0
    case AwaitingReady => 1
    case LoggedIn => 2
    case Composed => 3
    case Handling => 4
    case Ready => 5
    case Exited(_) => 0
  }

  /** One step of start-up; an event that does not apply in a phase leaves it unchanged. */
  function Step(p: Phase, e: Event): (q: Phase)
    ensures p.Exited? || p == Ready ==> q == p
    ensures q != p && !q.Exited? ==> Rank(q) == Rank(p) + 1 && e == ReadyPath[Rank(p)]
    ensures q != p && q.Exited? ==> q.code in {HttpLoginExitCode, LoginExitCode, ServicesExitCode}
  {
    match (p, e)
    case (Constructed, LoginSucceeded) => AwaitingReady
    case (Constructed, LoginFailed(isHttp)) => Exited(if isHttp then HttpLoginExitCode else LoginExitCode)
    case (AwaitingReady, ReadyFired) => LoggedIn
    case (LoggedIn, ServicesComposed) => Composed
    case (LoggedIn, ServicesFailed) => Exited(ServicesExitCode)
    case (Composed, HandlingStarted) => Handling
    case (Handling, ModulesRegistered) => Ready
    case _ => p
  }

  /** The phase after a sequence of events. */
  function Run(p: Phase, events: seq<Event>): Phase
    decreases |events|
  {
    if |events| == 0 then p else Step(Run(p, events[..|events| - 1]), events[|events| - 1])
  }

  /** The ready path leads a new shard to readiness. */
  lemma ReadyPathReachesReady()
    ensures Run(Constructed, ReadyPath) == Ready
  {
    var P := ReadyPath;
    assert P[..1][..0] == [];
    assert Run(Constructed, P[..1]) == AwaitingReady;
    assert P[..2][..1] == P[..1];
    assert Run(Constructed, P[..2]) == LoggedIn;
    assert P[..3][..2] == P[..2];
    assert Run(Constructed, P[..3]) == Composed;
    assert P[..4][..3] == P[..3];
    assert Run(Constructed, P[..4]) == Handling;
    assert P[..4] == P[..|P| - 1];
  }

  /**
   * A shard that has reached rank `k` has seen the first `k` events of the
   * ready path, in order: the witnesses are strictly increasing positions.
   */
  lemma {:induction false} PathWitnesses(events: seq<Event>, k: nat) returns (idx: seq<nat>)
    requires k <= Rank(Run(Constructed, events))
    ensures |idx| == k
    ensures forall j :: 0 <= j < k ==> idx[j] < |events| && events[idx[j]] == ReadyPath[j]
    ensures forall j :: 0 <= j < k - 1 ==> idx[j] < idx[j + 1]
    decreases |events|
  {
    if |events| == 0 {
      return [];
    }
    var h := events[..|events| - 1];
    var e := events[|events| - 1];
    var q := Run(Constructed, h);
    var p := Step(q, e);
    if k <= Rank(q) {
      idx := PathWitnesses(h, k);
      assert forall j :: 0 <= j < k ==> events[idx[j]] == h[idx[j]];
    } else {
      assert p != q && !p.Exited? && k == Rank(q) + 1;
      var prev := PathWitnesses(h, Rank(q));
      assert forall j :: 0 <= j < Rank(q) ==> events[prev[j]] == h[prev[j]];
      idx := prev + [|events| - 1];
    }
  }

  /** `IsReady` is reached only through login, Ready, composition, command handling and module registration, in this order. */
  lemma ReadyOnlyInOrder(events: seq<Event>) returns (idx: seq<nat>)
    requires Run(Constructed, events) == Ready
    ensures |idx| == |ReadyPath|
    ensures forall j :: 0 <= j < |ReadyPath| ==> idx[j] < |events| && events[idx[j]] == ReadyPath[j]
    ensures forall j :: 0 <= j < |ReadyPath| - 1 ==> idx[j] < idx[j + 1]
  {
    idx := PathWitnesses(events, |ReadyPath|);
  }

  /** A shard ends only with exit code 3 (HTTP login error), 4 (other login error) or 9 (services). */
  lemma {:induction false} ExitCodes(events: seq<Event>)
    ensures Run(Constructed, events).Exited? ==>
      Run(Constructed, events).code in {HttpLoginExitCode, LoginExitCode, ServicesExitCode}
    decreases |events|
  {
    if |events| > 0 {
      ExitCodes(events[..|events| - 1]);
    }
  }

  /** Nothing happens after an exit or after readiness. */
  lemma {:induction false} FinalPhasesStay(events: seq<Event>, more: seq<Event>)
    requires Run(Constructed, events).Exited? || Run(Constructed, events) == Ready
    ensures Run(Constructed, events + more) == Run(Constructed, events)
    decreases |more|
  {
    if |more| > 0 {
      var init := more[..|more| - 1];
      assert (events + more)[..|events + more| - 1] == events + init;
      FinalPhasesStay(events, init);
    } else {
      assert events + more == events;
    }
  }

  // ---------------------------------------------------------------------------
  // Services and ready subscriptions
  // ---------------------------------------------------------------------------

  datatype Coordinator = SingleProcessCoordinator | RemoteGrpcCoordinator

  /** A service that runs something once the shard is ready. */
  datatype ReadyExecutor = RemoteCoordinatorExecutor | ImagesCacheExecutor | ServiceExecutor(name: string)

  /** The coordinator is remote exactly when `NADEKOBOT_IS_COORDINATED` is set to "1". */
  function SelectCoordinator(env: Option<string>): (c: Coordinator)
    ensures c == RemoteGrpcCoordinator <==> env == Some("1")
  {
    if env != Some("1") then SingleProcessCoordinator else RemoteGrpcCoordinator
  }

  /** The ready executors in registration order: the remote coordinator if chosen, the images cache, then the scanned services. */
  function ReadyExecutors(c: Coordinator, scanned: seq<string>): (r: seq<ReadyExecutor>)
    ensures RemoteCoordinatorExecutor in r <==> c == RemoteGrpcCoordinator
    ensures ImagesCacheExecutor in r
    ensures forall name :: ServiceExecutor(name) in r <==> name in scanned
  {
    (if c == RemoteGrpcCoordinator then [RemoteCoordinatorExecutor] else [])
    + [ImagesCacheExecutor]
    + ServiceExecutors(scanned)
  }

  function ServiceExecutors(names: seq<string>): (r: seq<ReadyExecutor>)
    ensures forall x :: x in r ==> x.ServiceExecutor?
    ensures forall name :: ServiceExecutor(name) in r <==> name in names
  {
    if |names| == 0 then [] else [ServiceExecutor(names[0])] + ServiceExecutors(names[1..])
  }

  /** How one executor's `OnReadyAsync` ended: it completed, or it raised and was logged. */
  datatype ExecutorOutcome = Completed(executor: ReadyExecutor) | FailedAndLogged(executor: ReadyExecutor)

  datatype BotError = ShardIdOutOfRange

  class Bot {
    const shardId: nat
    /** Whether this shard set up the database; only shard 0 does. */
    const databaseSetUp: bool
    var phase: Phase
    /** The start-up events so far. */
    var history: seq<Event>
    var readyHandlerAttached: bool
    var guildHandlersAttached: bool
    var mention: Option<string>
    var coordinator: Option<Coordinator>
    var readyExecutors: seq<ReadyExecutor>
    var configMigrationsApplied: bool
    var isReady: bool
    var exitCode: Option<int>

    /** The fields agree with the phase the history leads to. */
    predicate Valid()
      reads this
    {
      && databaseSetUp == (shardId == 0)
      && phase == Run(Constructed, history)
      && (isReady <==> phase == Ready)
      && (readyHandlerAttached <==> phase == AwaitingReady)
      && (guildHandlersAttached <==> Rank(phase) >= 2 || phase == Exited(ServicesExitCode))
      && (mention.Some? <==> guildHandlersAttached)
      && (coordinator.Some? <==> Rank(phase) >= 3)
      && (configMigrationsApplied <==> coordinator.Some? && shardId == 0)
      && (exitCode.Some? <==> phase.Exited?)
      && (exitCode.Some? ==> exitCode.value == phase.code)
    }

    constructor (shardId: nat)
      ensures Valid()
      ensures this.shardId == shardId && phase == Constructed && history == []
    {
      this.shardId := shardId;
      databaseSetUp := shardId == 0;
      phase := Constructed;
      history := [];
      readyHandlerAttached := false;
      guildHandlersAttached := false;
      mention := None;
      coordinator := None;
      readyExecutors := [];
      configMigrationsApplied := false;
      isReady := false;
      exitCode := None;
    }

    /** Records one start-up event. */
    method Advance(e: Event)
      requires Valid()
      modifies this
      ensures phase == Step(old(phase), e) && history == old(history) + [e]
      ensures readyHandlerAttached == old(readyHandlerAttached)
      ensures guildHandlersAttached == old(guildHandlersAttached)
      ensures mention == old(mention) && coordinator == old(coordinator)
      ensures configMigrationsApplied == old(configMigrationsApplied)
      ensures readyExecutors == old(readyExecutors) && isReady == old(isReady) && exitCode == old(exitCode)
    {
      history := history + [e];
      assert history[..|history| - 1] == old(history);
      phase := Step(phase, e);
    }

    /** `LoginAsync` up to the wait: an HTTP error exits with 3, any other error with 4. */
    method Login(failure: Option<bool>)
      requires Valid() && phase == Constructed
      modifies this
      ensures Valid()
      ensures failure == Some(true) ==> phase == Exited(HttpLoginExitCode)
      ensures failure == Some(false) ==> phase == Exited(LoginExitCode)
      ensures failure == None ==> phase == AwaitingReady && readyHandlerAttached
      ensures history == old(history) + [if failure.Some? then LoginFailed(failure.value) else LoginSucceeded]
    {
      if failure.Some? {
        Advance(LoginFailed(failure.value));
        exitCode := Some(phase.code);
        return;
      }
      Advance(LoginSucceeded);
      readyHandlerAttached := true;
    }

    /** The first Ready: the Ready handler is detached and the guild handlers attached; the mention is taken. */
    method OnFirstReady(botMention: string)
      requires Valid() && phase == AwaitingReady
      modifies this
      ensures Valid()
      ensures phase == LoggedIn && history == old(history) + [ReadyFired]
      ensures !readyHandlerAttached && guildHandlersAttached && mention == Some(botMention)
    {
      Advance(ReadyFired);
      readyHandlerAttached := false;
      guildHandlersAttached := true;
      mention := Some(botMention);
    }

    /**
     * `AddServices`: chooses the coordinator, collects the ready executors and,
     * on shard 0, applies the config migrations. A failure exits with 9.
     */
    method AddServices(env: Option<string>, scanned: seq<string>, fails: bool)
      requires Valid() && phase == LoggedIn
      modifies this
      ensures Valid()
      ensures fails ==> phase == Exited(ServicesExitCode) && exitCode == Some(ServicesExitCode)
      ensures !fails ==>
        && phase == Composed
        && coordinator == Some(SelectCoordinator(env))
        && readyExecutors == ReadyExecutors(SelectCoordinator(env), scanned)
        && (configMigrationsApplied <==> shardId == 0)
      ensures history == old(history) + [if fails then ServicesFailed else ServicesComposed]
      ensures mention == old(mention) && guildHandlersAttached == old(guildHandlersAttached)
      ensures readyHandlerAttached == old(readyHandlerAttached)
    {
      if fails {
        Advance(ServicesFailed);
        exitCode := Some(ServicesExitCode);
        return;
      }
      Advance(ServicesComposed);
      var c := SelectCoordinator(env);
      coordinator := Some(c);
      readyExecutors := ReadyExecutors(c, scanned);
      configMigrationsApplied := shardId == 0;
    }

    method StartHandling()
      requires Valid() && phase == Composed
      modifies this
      ensures Valid() && phase == Handling && history == old(history) + [HandlingStarted]
      ensures readyExecutors == old(readyExecutors)
      ensures coordinator == old(coordinator) && configMigrationsApplied == old(configMigrationsApplied)
    {
      Advance(HandlingStarted);
    }

    /** Registers the modules, after which the shard reports ready. */
    method RegisterModules()
      requires Valid() && phase == Handling
      modifies this
      ensures Valid() && phase == Ready && isReady && history == old(history) + [ModulesRegistered]
      ensures readyExecutors == old(readyExecutors)
      ensures coordinator == old(coordinator) && configMigrationsApplied == old(configMigrationsApplied)
    {
      Advance(ModulesRegistered);
      isReady := true;
    }

    /**
     * `ExecuteReadySubscriptions`: every executor runs, in order; one that
     * raises is logged and does not keep the others from running.
     */
    method ExecuteReadySubscriptions(failing: set<ReadyExecutor>) returns (outcomes: seq<ExecutorOutcome>)
      ensures |outcomes| == |readyExecutors|
      ensures forall i :: 0 <= i < |outcomes| ==> outcomes[i].executor == readyExecutors[i]
      ensures forall i :: 0 <= i < |outcomes| ==> (outcomes[i].Completed? <==> readyExecutors[i] !in failing)
    {
      outcomes := [];
      for i := 0 to |readyExecutors|
        invariant |outcomes| == i
        invariant forall j :: 0 <= j < i ==> outcomes[j].executor == readyExecutors[j]
        invariant forall j :: 0 <= j < i ==> (outcomes[j].Completed? <==> readyExecutors[j] !in failing)
      {
        var x := readyExecutors[i];
        var outcome := if x in failing then FailedAndLogged(x) else Completed(x);
        outcomes := outcomes + [outcome];
      }
    }

    /**
     * `RunAsync` on a new shard, given how login and service composition end,
     * the environment variable, the scanned services, the bot's mention and
     * which ready executors raise.
     */
    method RunAsync(loginFailure: Option<bool>, botMention: string, env: Option<string>,
                    scanned: seq<string>, servicesFail: bool, failing: set<ReadyExecutor>)
      returns (outcomes: seq<ExecutorOutcome>)
      requires Valid() && phase == Constructed && history == []
      modifies this
      ensures Valid()
      ensures loginFailure == Some(true) ==> exitCode == Some(HttpLoginExitCode) && !isReady
      ensures loginFailure == Some(false) ==> exitCode == Some(LoginExitCode) && !isReady
      ensures loginFailure.None? && servicesFail ==>
        && exitCode == Some(ServicesExitCode) && !isReady
        && mention == Some(botMention) && guildHandlersAttached && !readyHandlerAttached
      ensures loginFailure.None? && !servicesFail ==>
        && isReady && history == ReadyPath && exitCode.None?
        && coordinator == Some(SelectCoordinator(env))
        && (configMigrationsApplied <==> shardId == 0)
        && |outcomes| == |readyExecutors|
        && (forall i :: 0 <= i < |outcomes| ==> outcomes[i].executor == readyExecutors[i])
        && (forall i :: 0 <= i < |outcomes| ==> (outcomes[i].Completed? <==> readyExecutors[i] !in failing))
      ensures !isReady ==> outcomes == []
    {
      outcomes := [];
      Login(loginFailure);
      if loginFailure.Some? {
        return;
      }
      OnFirstReady(botMention);
      AddServices(env, scanned, servicesFail);
      if servicesFail {
        return;
      }
      StartHandling();
      RegisterModules();
      outcomes := ExecuteReadySubscriptions(failing);
    }
  }

  /** `new Bot(shardId, ...)`: a negative shard id is refused. */
  method CreateBot(shardId: int) returns (r: Result<Bot, BotError>)
    ensures r.Err? <==> shardId < 0
    ensures r.Ok? ==>
      && fresh(r.value) && r.value.Valid() && r.value.shardId == shardId
      && r.value.phase == Constructed && r.value.history == []
      && (r.value.databaseSetUp <==> shardId == 0)
  {
    if shardId < 0 {
      return Err(ShardIdOutOfRange);
    }
    var b := new Bot(shardId);
    r := Ok(b);
  }

  /** A ready shard got there through the ready path, in order. */
  lemma ReadyBotFollowedThePath(b: Bot) returns (idx: seq<nat>)
    requires b.Valid() && b.isReady
    ensures |idx| == |ReadyPath|
    ensures forall j :: 0 <= j < |ReadyPath| ==> idx[j] < |b.history| && b.history[idx[j]] == ReadyPath[j]
    ensures forall j :: 0 <= j < |ReadyPath| - 1 ==> idx[j] < idx[j + 1]
  {
    idx := ReadyOnlyInOrder(b.history);
  }
}
