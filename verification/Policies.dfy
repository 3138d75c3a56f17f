/**
 The failure policies as a table: what one turn must come to, read off the reply, the two
 configured policies and what the arena offers. The table shares nothing with the runner; the
 lemmas show that the runner follows it.
 */
module Policies {
  import opened Options
  import opened Json
  import opened Arenas
  import opened Events
  import opened Receipts
  import opened Match
  import opened Turns
  import L = LogicalIds

  // ----- the reply -----

  /** Only an answer in time counts as an action. */
  function OwnAction(reply: Reply): Json {
    if reply.late then JNull
    else match reply.ending
      case Answered(action, _) => action
      case _ => JNull
  }

  /**
   The failure class of a reply without an action. A late call times out, unless the provider
   error it carries has already called itself a timeout.
   */
  function ClassOf(reply: Reply): Tag {
    if reply.late && reply.ending != ProviderFailed(Timeout) then ProviderTimeout
    else match reply.ending
      case TimedOut => ProviderTimeout
      case WasCancelled => OperatorCancelled
      case BadProtocol => Unparseable
      case Crashed => AgentCrash
      case ProviderFailed(kind) => if kind == Other("") then AgentError else kind
      case Answered(_, None) => AgentError
      case Answered(_, Some(kind)) => if kind == Other("") then AgentError else kind
  }

  /** The fourteen classes that no policy turns into a forfeit or a fallback. */
  predicate Interrupts(kind: Tag) {
    kind.OperatorCancelled? || kind.OutputTruncated? || kind.ProviderTimeout?
    || kind.PendingResponse? || kind.Cancelled? || kind.Interrupted? || kind.AuthFailed?
    || kind.PermissionFailed? || kind.RateLimited? || kind.RequestRejected? || kind.Refused?
    || kind.SchemaMismatch? || kind.TransportError? || kind.Unavailable?
  }

  /** What is played in the agent's place; null if there is nothing. */
  function Substitute(legal: seq<Json>): Json {
    if exists i | 0 <= i < |legal| :: legal[i] == JStr("resign") then JStr("resign")
    else if |legal| > 0 then legal[0]
    else JNull
  }

  lemma ActionOfTheCall(reply: Reply)
    ensures CallAgent(reply).action == OwnAction(reply)
    ensures HasAgentError(CallAgent(reply).markers) <==> OwnAction(reply) == JNull
  {
    AgentErrorMeansNoAction(reply);
  }

  lemma ClassOfTheCall(reply: Reply)
    requires OwnAction(reply) == JNull
    ensures FailureClassOf(CallAgent(reply)) == ClassOf(reply)
  {
    hide FirstFailureClass;
    var called := CallAgent(reply);
    if reply.late {
      assert called.errorKind
             == Some(if reply.ending == ProviderFailed(Timeout) then Timeout else ProviderTimeout);
    } else {
      match reply.ending
      case ProviderFailed(kind) =>
        assert called.markers == [AgentError, kind, NoAction];
        UnknownMeansAgentError(kind);
      case Answered(_, _) =>
        assert called.markers == [NoAction];
        UnknownMeansAgentError(Other(""));
      case _ =>
    }
  }

  lemma UnknownMeansAgentError(kind: Tag)
    ensures FirstFailureClass([NoAction]) == AgentError
    ensures kind == Other("") ==> FirstFailureClass([AgentError, kind, NoAction]) == AgentError
  {
    var markers := [AgentError, kind, NoAction];
    assert markers[1..] == [kind, NoAction] && markers[1..][1..] == [NoAction];
    assert [NoAction][1..] == [];
  }

  lemma InterruptionsAreTheFourteen(kind: Tag)
    ensures IsInterruption(kind) <==> Interrupts(kind)
  {
  }

  lemma SubstituteIsTheFailureAction(legal: seq<Json>)
    ensures FailureAction(legal) == Substitute(legal)
    ensures Substitute(legal) != JNull ==> Substitute(legal) in legal
  {
  }

  // ----- the table -----

  /** How the turn ends. A row of a played turn holds `action` with provenance `origin`. */
  datatype Fate = Stops | Forfeits | Plays(action: Json, origin: Provenance)

  /**
   One turn: its fate, which failures are counted, and the tag its reason names, if it gives
   one. `unapplied` is a legal action that the arena raised on.
   */
  datatype Course = Course(fate: Fate, failed: bool, illegal: bool, substituted: bool,
                           unapplied: bool, blame: Option<Tag>)

  /** Playing an action that is on offer. */
  function Playing(arena: Arena, s: State, action: Json, origin: Provenance, failed: bool,
                   illegal: bool): Course
  {
    var substituted := origin == FallbackAction;
    if arena.apply(s, s.activePlayer, action).Some? then
      Course(Plays(action, origin), failed, illegal, substituted, false,
             if substituted then Some(FallbackActionUsed) else None)
    else Course(Stops, failed, illegal, substituted, true, Some(ApplyError))
  }

  /** The illegal-action policy. */
  function Refusing(arena: Arena, c: Config, legal: seq<Json>, s: State, failed: bool): Course {
    match c.onIllegalAction
    case InvalidMatch => Course(Stops, failed, true, false, false, Some(IllegalAction))
    case Forfeit => Course(Forfeits, failed, true, false, false, Some(IllegalAction))
    case Fallback =>
      if Substitute(legal) == JNull then
        Course(Stops, failed, true, false, false, Some(IllegalActionNoFallback))
      else Playing(arena, s, Substitute(legal), FallbackAction, failed, true)
  }

  function CourseOf(arena: Arena, c: Config, legal: seq<Json>, s: State, reply: Reply): Course
    requires s.activePlayer.JStr?
  {
    var own, kind := OwnAction(reply), ClassOf(reply);
    if own != JNull then
      if own in legal then
        Playing(arena, s, own,
                if s.activePlayer.s in c.providerSeats then ProviderAction else LocalAction,
                false, false)
      else Refusing(arena, c, legal, s, false)
    else if Interrupts(kind) || c.onAgentError == InvalidMatch then
      Course(Stops, true, false, false, false, Some(kind))
    else if c.onAgentError == Forfeit then Course(Forfeits, true, false, false, false, Some(kind))
    else if Substitute(legal) == JNull then Refusing(arena, c, legal, s, true)
    else Playing(arena, s, Substitute(legal), FallbackAction, true, false)
  }

  // ----- what each fate writes -----

  /** One move into the state the arena computed is recorded, with that action. */
  ghost predicate RecordsMove(env: Env, arena: Arena, c: Config, m: Match, after: Match,
                              action: Json, origin: Provenance)
    requires m.state.turn.JInt? && m.state.turn.i >= 0 && m.state.activePlayer.JStr?
  {
    && arena.apply(m.state, m.state.activePlayer, action) == Some(after.state)
    && |after.history| == |m.history| + 1 && m.history <= after.history
    && |after.trace| == |m.trace| + 1 && m.trace <= after.trace
    && |after.replay| == |m.replay| + 1 && m.replay <= after.replay
    && MoveRows(env, c, m.state, after.state, action, origin, after.history[|m.history|],
                after.trace[|m.trace|], after.replay[|m.replay|])
  }

  /** The name a provenance is written under. */
  function OriginText(origin: Provenance): string {
    if origin.ProviderAction? then "provider_action"
    else if origin.LocalAction? then "local_action"
    else "fallback_action"
  }

  /** The id is made of the run, the player and the turn in at least six digits. */
  ghost predicate IsActionId(c: Config, s: State, id: Option<Json>)
    requires s.turn.JInt? && s.turn.i >= 0 && s.activePlayer.JStr?
  {
    exists d :: L.IsTurnText(d, s.turn.i)
                && id == Some(JStr(c.runId + ":episode_001:" + s.activePlayer.s + ":" + d))
  }

  ghost predicate MoveRows(env: Env, c: Config, s: State, next: State, action: Json,
                           origin: Provenance, h: HistoryEntry, e: TraceEvent, r: ReplayRow)
    requires s.turn.JInt? && s.turn.i >= 0 && s.activePlayer.JStr?
  {
    && e.public.provenance == Some(JStr(OriginText(origin))) && r.provenance == JStr(OriginText(origin))
    && IsActionId(c, s, e.public.logicalActionId)
    && Some(r.logicalActionId) == e.public.logicalActionId
    && Some(r.attemptEventId) == e.public.attemptEventId
    && h.turn == s.turn.i && h.player == s.activePlayer.s && h.action == action
    && h.provenance == origin && h.stateHash == env.hash(next)
    && e.eventType == "action" && e.turnId == s.turn && WritesStep(env, s, next, action, e)
    && ShowsState(env, s, next, r)
  }

  /** The judge sees the action besides what is public, the auditor also both states. */
  predicate WritesStep(env: Env, s: State, next: State, action: Json, e: TraceEvent) {
    && e.agentVisible == e.public && e.judge == e.public.(action := Some(action))
    && e.auditor == e.judge.(stateBefore := e.auditor.stateBefore, stateAfter := e.auditor.stateAfter)
    && e.public.stateBefore == None && e.public.stateAfter == None && e.public.eventType == None
    && e.public.turnId == None && e.public.seat == Some(s.activePlayer)
    && e.auditor.action == Some(action) && e.auditor.activePlayer == Some(s.activePlayer)
    && e.auditor.stateBefore == Some(ToJson(env.hash, s))
    && e.auditor.stateAfter == Some(ToJson(env.hash, next))
    && e.auditor.stateHashBefore == Some(JStr(env.hash(s)))
    && e.auditor.stateHashAfter == Some(JStr(env.hash(next)))
  }

  predicate ShowsState(env: Env, s: State, next: State, r: ReplayRow) {
    && r.seat == s.activePlayer && r.stateHash == JStr(env.hash(next)) && r.turnId == next.turn
    && r.activePlayer == next.activePlayer && r.publicState == next.publicState
    && r.scores == next.scores && r.terminal == next.terminal && r.outcome == next.outcome
    && r.renderHints == next.renderHints
  }

  /** One forfeit row is written, into a finished state that names the forfeiting player. */
  predicate RecordsForfeit(env: Env, m: Match, after: Match, action: Json)
    requires m.state.turn.JInt? && m.state.activePlayer.JStr?
  {
    var player, s := m.state.activePlayer.s, after.state;
    && after.history == m.history
    && |after.trace| == |m.trace| + 1 && m.trace <= after.trace
    && |after.replay| == |m.replay| + 1 && m.replay <= after.replay
    && after.trace[|m.trace|].eventType == "forfeit" && after.trace[|m.trace|].turnId == m.state.turn
    && WritesStep(env, m.state, s, action, after.trace[|m.trace|])
    && after.trace[|m.trace|].public.provenance == Some(JNull)
    && after.trace[|m.trace|].public.logicalActionId == Some(JNull)
    && ShowsState(env, m.state, s, after.replay[|m.replay|])
    && after.replay[|m.replay|].provenance == JNull && after.replay[|m.replay|].logicalActionId == JNull
    && s.turn == JInt(m.state.turn.i + 1) && s.terminal == JBool(true)
    && s.metadata.JObj? && Get(s.metadata.fields, ForfeitedPlayer) == JStr(player)
    && s.outcome.JObj? && Get(s.outcome.fields, ReasonKey) == JStr("forfeit")
    && after.reason.Some?
    && Get(s.outcome.fields, InvalidReasonKey) == JStr(after.reason.value)
  }

  ghost predicate Follows(env: Env, arena: Arena, c: Config, m: Match, reply: Reply, fate: Fate, step: Step)
    requires m.state.turn.JInt? && m.state.turn.i >= 0 && m.state.activePlayer.JStr?
  {
    match fate
    case Stops => step.Broke? && SameRecord(step.m, m)
    case Forfeits => step.Broke? && RecordsForfeit(env, m, step.m, OwnAction(reply))
    case Plays(action, origin) => step.Continued? && RecordsMove(env, arena, c, m, step.m, action, origin)
  }

  function Once(player: string, yes: bool): multiset<string> {
    if yes then multiset{player} else multiset{}
  }

  /** The counters and codes that a course adds. */
  ghost predicate Counts(m: Match, after: Match, course: Course, kind: Tag)
    requires m.state.activePlayer.JStr?
  {
    var player := m.state.activePlayer.s;
    && after.logicalActions == m.logicalActions + multiset{player}
    && after.agentErrors == m.agentErrors + Once(player, course.failed)
    && after.illegalActions == m.illegalActions + Once(player, course.illegal)
    && after.fallbackActions == m.fallbackActions + Once(player, course.substituted)
    && forall t :: t in after.codes <==>
         t in m.codes || (course.failed && (t == AgentError || t == kind))
         || (course.illegal && t == NotLegal)
         || (course.substituted && t == FallbackActionUsed)
         || (course.unapplied && t == ApplyError)
  }

  /** A match stays valid only while nothing is to blame; a fallback keeps an earlier reason. */
  ghost predicate Blames(env: Env, m: Match, after: Match, course: Course)
    requires m.state.activePlayer.JStr?
  {
    var player := m.state.activePlayer.s;
    if course.blame.None? then after.valid == m.valid && after.reason == m.reason
    else
      && !after.valid
      && (if course.fate.Plays? && m.reason.Some? then after.reason == m.reason
          else exists markers :: after.reason == Some(env.describe(player, course.blame.value, markers)))
  }

  // ----- the runner follows the table -----

  lemma RejectFollows(env: Env, arena: Arena, c: Config, m: Match, failed: Match, reply: Reply, tag: Tag,
                      markers: seq<Tag>, policy: Policy)
    requires WellTyped(arena, m.state) && SameRecord(failed, m) && policy != Fallback
    ensures var after := Reject(env, arena, failed, m.state.activePlayer.s, tag, markers,
                                OwnAction(reply), policy);
            && Follows(env, arena, c, m, reply, if policy == Forfeit then Forfeits else Stops, Broke(after))
            && !after.valid
            && after.reason == Some(env.describe(m.state.activePlayer.s, tag, markers))
  {
    hide ToJson, ForfeitScores, ForfeitPublic, ForfeitWinner, PublicAction, TimingFree;
  }

  lemma CommitFollows(env: Env, arena: Arena, c: Config, m: Match, reply: Reply, choice: Choice,
                      failed: bool, illegal: bool)
    requires WellTyped(arena, m.state) && choice.Play? && SameRecord(choice.m, m)
    ensures var course := Playing(arena, m.state, choice.action, choice.provenance, failed, illegal);
            var step := Commit(env, arena, c, m.state.activePlayer.s, choice);
            && !step.Raised?
            && Follows(env, arena, c, m, reply, course.fate, step)
  {
    hide ToJson, PublicAction, MarkApplied, AppliedEventId, LogicalId, RevealTurn, Pending, IsActionId;
    LogicalIdIsActionId(c, m.state);
  }

  lemma LogicalIdIsActionId(c: Config, s: State)
    requires s.turn.JInt? && s.turn.i >= 0 && s.activePlayer.JStr?
    ensures IsActionId(c, s, Some(JStr(LogicalId(c, s.activePlayer.s, s.turn.i))))
  {
    hide L.IsTurnText;
    L.PadIsTurnText(s.turn.i);
  }

  /** What the rest of a turn adds once the agent's reply has been booked. */
  ghost predicate Decided(env: Env, arena: Arena, c: Config, m: Match, reply: Reply, booked: Match,
                          course: Course, step: Step)
    requires m.state.turn.JInt? && m.state.turn.i >= 0 && m.state.activePlayer.JStr? && booked.state == m.state
  {
    var player := m.state.activePlayer.s;
    && !step.Raised? && Follows(env, arena, c, m, reply, course.fate, step)
    && step.m.logicalActions == booked.logicalActions && step.m.agentErrors == booked.agentErrors
    && step.m.illegalActions == booked.illegalActions + Once(player, course.illegal)
    && step.m.fallbackActions == booked.fallbackActions + Once(player, course.substituted)
    && (forall t :: t in step.m.codes <==>
          t in booked.codes || (course.illegal && t == NotLegal)
          || (course.substituted && t == FallbackActionUsed)
          || (course.unapplied && t == ApplyError))
    && Blames(env, booked, step.m, course)
  }

  lemma PlayingIsDecided(env: Env, arena: Arena, c: Config, m: Match, reply: Reply, booked: Match,
                         choice: Choice, failed: bool, illegal: bool)
    requires WellTyped(arena, m.state) && SameRecord(booked, m) && choice.Play?
    requires SameRecord(choice.m, m)
    requires choice.m.logicalActions == booked.logicalActions
    requires choice.m.agentErrors == booked.agentErrors
    requires choice.m.illegalActions
             == booked.illegalActions + Once(m.state.activePlayer.s, illegal)
    requires var substituted := choice.provenance == FallbackAction;
             && choice.m.fallbackActions
                == booked.fallbackActions + Once(m.state.activePlayer.s, substituted)
             && (forall t :: t in choice.m.codes <==>
                   t in booked.codes || (illegal && t == NotLegal)
                   || (substituted && t == FallbackActionUsed))
             && (if substituted then
                   !choice.m.valid
                   && (if booked.reason.Some? then choice.m.reason == booked.reason
                       else exists markers ::
                         choice.m.reason == Some(env.describe(m.state.activePlayer.s,
                                                              FallbackActionUsed, markers)))
                 else choice.m.valid == booked.valid && choice.m.reason == booked.reason)
    ensures Decided(env, arena, c, m, reply, booked,
                    Playing(arena, m.state, choice.action, choice.provenance, failed, illegal),
                    Commit(env, arena, c, m.state.activePlayer.s, choice))
  {
    hide Follows, WellTyped;
    CommitFollows(env, arena, c, m, reply, choice, failed, illegal);
  }

  lemma RefusingIsDecided(env: Env, arena: Arena, c: Config, legal: seq<Json>, m: Match,
                          reply: Reply, booked: Match, choice: Choice, failed: bool)
    requires WellTyped(arena, m.state) && SameRecord(booked, m) && choice.Play?
    requires choice.m == booked && choice.action == OwnAction(reply)
    requires choice.action == JNull || choice.action !in legal
    ensures var player := m.state.activePlayer.s;
            Decided(env, arena, c, m, reply, booked, Refusing(arena, c, legal, m.state, failed),
                    match Legalise(env, arena, c, legal, player, choice)
                    case Ended(ended) => Broke(ended)
                    case Play(m', action, markers, provenance) =>
                      Commit(env, arena, c, player, Play(m', action, markers, provenance)))
  {
    hide Follows, Commit, Reject, IsLegal, FailureAction, Substitute, Playing;
    var player := m.state.activePlayer.s;
    LegalIsMembership(legal, choice.action);
    SubstituteIsTheFailureAction(legal);
    var markers := choice.markers + [IllegalAction, NotLegal];
    var noted := booked.(illegalActions := booked.illegalActions + multiset{player},
                         codes := AddCode(booked.codes, NotLegal));
    if c.onIllegalAction != Fallback {
      RejectFollows(env, arena, c, m, noted, reply, IllegalAction, markers, c.onIllegalAction);
      RejectKeepsCounters(env, arena, noted, player, IllegalAction, markers, choice.action,
                          c.onIllegalAction);
    } else if Substitute(legal) == JNull {
      StoppingFollows(env, arena, c, m, reply,
        noted.(valid := false, reason := Some(env.describe(player, IllegalActionNoFallback, markers))));
    } else {
      LegalIsMembership(legal, Substitute(legal));
      var marked := markers + [FallbackUsed];
      PlayingIsDecided(env, arena, c, m, reply, booked,
        Play(UseFallback(env, noted, player, marked), Substitute(legal), marked, FallbackAction),
        failed, true);
    }
  }

  lemma StoppingFollows(env: Env, arena: Arena, c: Config, m: Match, reply: Reply, after: Match)
    requires m.state.turn.JInt? && m.state.turn.i >= 0 && m.state.activePlayer.JStr? && SameRecord(after, m)
    ensures Follows(env, arena, c, m, reply, Stops, Broke(after))
  {
  }

  lemma RejectKeepsCounters(env: Env, arena: Arena, m: Match, player: string, tag: Tag,
                            markers: seq<Tag>, action: Json, policy: Policy)
    requires WellTyped(arena, m.state)
    ensures var after := Reject(env, arena, m, player, tag, markers, action, policy);
            && after.logicalActions == m.logicalActions && after.agentErrors == m.agentErrors
            && after.illegalActions == m.illegalActions
            && after.fallbackActions == m.fallbackActions && after.codes == m.codes
  {
  }

  /** The rest of the turn once the reply has been booked. */
  lemma DecideIsDecided(env: Env, arena: Arena, c: Config, legal: seq<Json>, m: Match,
                        reply: Reply, booked: Match)
    requires WellTyped(arena, m.state) && SameRecord(booked, m)
    requires OwnAction(reply) == JNull ==> c.onAgentError == Fallback && !Interrupts(ClassOf(reply))
    ensures Decided(env, arena, c, m, reply, booked, CourseOf(arena, c, legal, m.state, reply),
                    Decide(env, arena, c, legal, booked, m.state.activePlayer.s, CallAgent(reply)))
  {
    hide Follows, Commit, Legalise, Reject, CallAgent, FailureAction, Substitute, Playing, Refusing,
         IsLegal, WellTyped, ClassOf, Interrupts;
    TypedPlayer(arena, m.state);
    var player := m.state.activePlayer.s;
    var called := CallAgent(reply);
    ActionOfTheCall(reply);
    SubstituteIsTheFailureAction(legal);
    var first := FirstChoice(env, c, legal, booked, player, called);
    LegalIsMembership(legal, first.action);
    if first.action == JNull || first.action !in legal {
      RefusingIsDecided(env, arena, c, legal, m, reply, booked, first, called.action == JNull);
    } else {
      PlayingIsDecided(env, arena, c, m, reply, booked, first, called.action == JNull, false);
      LegalIsKept(env, arena, c, legal, player, first);
    }
  }

  lemma FailedMeansNoAction(arena: Arena, c: Config, legal: seq<Json>, s: State, reply: Reply)
    requires s.activePlayer.JStr?
    ensures CourseOf(arena, c, legal, s, reply).failed <==> OwnAction(reply) == JNull
  {
  }

  lemma TypedPlayer(arena: Arena, s: State)
    requires WellTyped(arena, s)
    ensures s.activePlayer.JStr? && s.turn.JInt? && s.turn.i >= 0
  {
  }

  lemma LegalIsKept(env: Env, arena: Arena, c: Config, legal: seq<Json>, player: string,
                    choice: Choice)
    requires choice.Play? && WellTyped(arena, choice.m.state)
    requires choice.action != JNull && choice.action in legal
    ensures Legalise(env, arena, c, legal, player, choice) == choice
  {
    LegalIsMembership(legal, choice.action);
  }

  /**
   Every turn of every run follows the table: its fate and what it records, the counters and
   codes it adds, and what it blames.
   */
  lemma TurnFollowsThePolicies(env: Env, arena: Arena, c: Config, legal: seq<Json>, m: Match,
                               reply: Reply)
    requires WellTyped(arena, m.state)
    requires GapFree(Context(env, c, m), reply.receipts, m.eventIds)
    ensures var step := TakeTurn(env, arena, c, legal, m, reply);
            var course := CourseOf(arena, c, legal, m.state, reply);
            && !step.Raised? && Follows(env, arena, c, m, reply, course.fate, step)
            && Counts(m, step.m, course, ClassOf(reply)) && Blames(env, m, step.m, course)
  {
    hide Follows, Decide, Reject, CallAgent, WellTyped, GapFree, ClassOf, Interrupts, Enriched,
         IsInterruption, FailureClassOf, EventIds, Playing, Refusing, Substitute, Decided;
    TypedPlayer(arena, m.state);
    ActionOfTheCall(reply);
    var called := CallAgent(reply);
    var ctx := Context(env, c, m);
    var player := m.state.activePlayer.s;
    var counted := m.(logicalActions := m.logicalActions + multiset{player},
                      receipts := m.receipts + Enriched(ctx, reply.receipts),
                      eventIds := m.eventIds + EventIds(ctx, |reply.receipts|));
    if OwnAction(reply) != JNull {
      DecideIsDecided(env, arena, c, legal, m, reply, counted);
      DecidedCounts(env, arena, c, legal, m, reply, counted);
    } else {
      ClassOfTheCall(reply);
      InterruptionsAreTheFourteen(ClassOf(reply));
      var kind := ClassOf(reply);
      var failed := counted.(agentErrors := m.agentErrors + multiset{player},
                             codes := AddCode(AddCode(m.codes, AgentError), kind));
      var policy := if Interrupts(kind) then InvalidMatch else c.onAgentError;
      if policy != Fallback {
        RejectFollows(env, arena, c, m, failed, reply, kind, called.markers, policy);
        RejectKeepsCounters(env, arena, failed, player, kind, called.markers, called.action, policy);
      } else {
        DecideIsDecided(env, arena, c, legal, m, reply, failed);
        DecidedCounts(env, arena, c, legal, m, reply, failed);
      }
    }
  }

  lemma DecidedCounts(env: Env, arena: Arena, c: Config, legal: seq<Json>, m: Match, reply: Reply,
                      booked: Match)
    requires m.state.turn.JInt? && m.state.turn.i >= 0 && m.state.activePlayer.JStr?
    requires SameRecord(booked, m) && booked.reason == m.reason && booked.valid == m.valid
    requires booked.logicalActions == m.logicalActions + multiset{m.state.activePlayer.s}
    requires booked.agentErrors
             == m.agentErrors + Once(m.state.activePlayer.s, OwnAction(reply) == JNull)
    requires booked.illegalActions == m.illegalActions
    requires booked.fallbackActions == m.fallbackActions
    requires forall t :: t in booked.codes <==>
               t in m.codes || (OwnAction(reply) == JNull && (t == AgentError || t == ClassOf(reply)))
    ensures var course := CourseOf(arena, c, legal, m.state, reply);
            forall step :: Decided(env, arena, c, m, reply, booked, course, step) ==>
              && !step.Raised? && Follows(env, arena, c, m, reply, course.fate, step)
              && Counts(m, step.m, course, ClassOf(reply)) && Blames(env, m, step.m, course)
  {
    hide Follows, ClassOf, CourseOf;
    FailedMeansNoAction(arena, c, legal, m.state, reply);
  }

  /** A legal action that applies is played, whatever the policies, and taints nothing. */
  lemma LegalActionIsPlayed(env: Env, arena: Arena, c: Config, legal: seq<Json>, m: Match,
                            reply: Reply, next: State)
    requires WellTyped(arena, m.state)
    requires GapFree(Context(env, c, m), reply.receipts, m.eventIds)
    requires OwnAction(reply) != JNull && OwnAction(reply) in legal
    requires arena.apply(m.state, m.state.activePlayer, OwnAction(reply)) == Some(next)
    ensures var step := TakeTurn(env, arena, c, legal, m, reply);
            && step.Continued? && step.m.state == next
            && |step.m.history| == |m.history| + 1 && m.history <= step.m.history
            && step.m.history[|m.history|].action == OwnAction(reply)
            && step.m.valid == m.valid && step.m.reason == m.reason
  {
    hide TakeTurn, WellTyped, GapFree, ClassOf, Counts, MoveRows;
    TypedPlayer(arena, m.state);
    TurnFollowsThePolicies(env, arena, c, legal, m, reply);
    PlayedIsRecorded(env, arena, c, m, TakeTurn(env, arena, c, legal, m, reply).m, OwnAction(reply),
                     CourseOf(arena, c, legal, m.state, reply).fate.origin);
  }

  lemma PlayedIsRecorded(env: Env, arena: Arena, c: Config, m: Match, after: Match, action: Json,
                         origin: Provenance)
    requires m.state.turn.JInt? && m.state.turn.i >= 0 && m.state.activePlayer.JStr?
    requires RecordsMove(env, arena, c, m, after, action, origin)
    ensures |after.history| == |m.history| + 1 && after.history[|m.history|].action == action
  {
  }
}
