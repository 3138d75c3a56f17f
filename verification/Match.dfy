/**
 One match between untrusted agents, as a function from agent replies to the
 record that is written. `Runner` runs it with local variables and a loop;
 here each decision of the loop body is a function of the match so far.
 */
module Match {
  import opened Options
  import opened Json
  import opened Arenas
  import opened Events
  import opened Receipts

  /** Markers, failure classes and invalid-reason codes; `Other` is any text not named in the code. */
  datatype Tag =
    | Timeout | AgentCrash | NoAction | AgentError | IllegalAction | FallbackUsed
    | FallbackActionUsed | IllegalActionNoFallback | RunTruncated
    | TransportError | RequestRejected | Refused | SchemaMismatch | Unparseable | NotLegal
    | ApplyError | AuthFailed | PermissionFailed | RateLimited | ProviderTimeout
    | OperatorCancelled | OutputTruncated | PendingResponse | Cancelled | Interrupted | Unavailable
    | Other(text: string)

  /** The values of the failure class enumeration. */
  predicate IsFailureClass(t: Tag) {
    t in {TransportError, RequestRejected, Refused, SchemaMismatch, Unparseable, NotLegal,
          ApplyError, AuthFailed, PermissionFailed, RateLimited, ProviderTimeout,
          OperatorCancelled, OutputTruncated, PendingResponse, Cancelled, Interrupted, Unavailable}
  }

  /** Failures that always invalidate the match, whatever the configured policy. */
  predicate IsInterruption(t: Tag) {
    IsFailureClass(t) && t !in {Unparseable, NotLegal, ApplyError}
  }

  datatype Policy = InvalidMatch | Forfeit | Fallback

  datatype Config = Config(
    runId: string, caseId: Option<string>, caseAttempt: nat, maxTurns: nat,
    onAgentError: Policy, onIllegalAction: Policy,
    providerSeats: set<string>, expectedModels: map<string, string>)

  /**
   What the run takes from outside its own code: the digest, the wording of a
   reason, the event id of a provider attempt, and the receipt contract.
   */
  datatype Env = Env(
    hash: StateHasher, describe: (string, Tag, seq<Tag>) -> string,
    eventId: (string, int) -> string, receiptInvalid: ReceiptRow -> bool)

  datatype HistoryEntry = HistoryEntry(turn: int, player: string, action: Json, revealTurn: int,
                                       stateHash: string, provenance: Provenance)

  /** What an agent is shown. It names the turn, so no two requests of a run are equal. */
  datatype Request = Request(turn: int, player: string, legal: seq<Json>,
                             history: seq<HistoryEntry>, stateHash: string,
                             logicalActionId: string)

  /** How the agent call ended. */
  datatype Ending =
    | Answered(action: Json, errorKind: Option<Tag>)
    | WasCancelled
    | TimedOut
    | ProviderFailed(kind: Tag)
    | BadProtocol
    | Crashed

  /** `late` is a call that ended by itself but used more than its time budget. */
  datatype Reply = Reply(ending: Ending, late: bool, receipts: seq<Receipt>)

  /** An agent is any function of its request: within a run this is any behaviour at all. */
  type Agent = Request -> Reply

  datatype Called = Called(action: Json, markers: seq<Tag>, errorKind: Option<Tag>)

  /** `_call_agent`, after the call has ended. */
  function CallAgent(reply: Reply): Called {
    var first := match reply.ending
      case Answered(action, kind) => Called(action, [], kind)
      case WasCancelled => Called(JNull, [AgentError, OperatorCancelled], Some(OperatorCancelled))
      case TimedOut => Called(JNull, [Timeout, ProviderTimeout], Some(ProviderTimeout))
      case ProviderFailed(kind) => Called(JNull, [AgentError, kind], Some(kind))
      case BadProtocol => Called(JNull, [AgentError, Unparseable], Some(Unparseable))
      case Crashed => Called(JNull, [AgentCrash], Some(AgentCrash));
    var second := if reply.late && Timeout !in first.markers
                  then Called(JNull, first.markers + [Timeout], Some(ProviderTimeout))
                  else first;
    if second.action == JNull then second.(markers := second.markers + [NoAction]) else second
  }

  predicate HasAgentError(markers: seq<Tag>) {
    Timeout in markers || AgentCrash in markers || NoAction in markers
  }

  /** A call counts as an agent error exactly when it produced no action. */
  lemma AgentErrorMeansNoAction(reply: Reply)
    ensures HasAgentError(CallAgent(reply).markers) <==> CallAgent(reply).action == JNull
  {
    var called := CallAgent(reply);
    if called.action == JNull {
      assert called.markers[|called.markers| - 1] == NoAction;
    }
  }

  function FirstFailureClass(markers: seq<Tag>): Tag {
    if markers == [] then AgentError
    else if IsFailureClass(markers[0]) then markers[0]
    else FirstFailureClass(markers[1..])
  }

  /** `_failure_class_from_response`. */
  function FailureClassOf(called: Called): Tag {
    if called.errorKind.Some? && called.errorKind.value != Other("") then called.errorKind.value
    else FirstFailureClass(called.markers)
  }

  // ----- forfeits -----

  function Digits(n: nat): string {
    if n < 10 then [('0' as int + n) as char] else Digits(n / 10) + Digits(n % 10)
  }

  function Zeros(n: nat): string {
    seq(n, _ => '0')
  }

  /** `{n:06d}` for a non-negative number. */
  function Pad6(n: nat): string {
    var d := Digits(n);
    if |d| < 6 then Zeros(6 - |d|) + d else d
  }

  function Score(scores: Object, seat: Key): real {
    if seat in scores && Num(scores[seat]).Some? then Num(scores[seat]).value else 0.0
  }

  /** The first of the given seats with the highest score. */
  function Leader(scores: Object, seats: seq<Key>): Key
    requires seats != []
  {
    if |seats| == 1 then seats[0]
    else
      var rest := Leader(scores, seats[1..]);
      if Score(scores, seats[0]) >= Score(scores, rest) then seats[0] else rest
  }

  /** `_unique_high_score_winner`. */
  function UniqueLeader(scores: Object, seats: seq<Key>): Option<Key> {
    if seats == [] then None
    else
      var leader := Leader(scores, seats);
      if exists k | k in seats :: k != leader && Score(scores, k) >= Score(scores, leader) then None
      else Some(leader)
  }

  function Without(seats: seq<Key>, seat: Key): seq<Key> {
    if seats == [] then []
    else (if seats[0] == seat then [] else [seats[0]]) + Without(seats[1..], seat)
  }

  function SeatName(k: Key): string {
    match k case Name(t) => t case _ => ""
  }

  function WinnerJson(w: Option<Key>): Json {
    if w.Some? then JStr(SeatName(w.value)) else JNull
  }

  function ForfeitWinner(arena: Arena, s: State, seat: Key): Option<Key>
    requires s.scores.JObj?
  {
    var seats := arena.seatOrder(s);
    var remaining := Without(seats, seat);
    if |seats| <= 2 then (if remaining == [] then None else Some(remaining[0]))
    else UniqueLeader(ForfeitScores(arena, s, seat), remaining)
  }

  function ForfeitScores(arena: Arena, s: State, seat: Key): Object
    requires s.scores.JObj?
  {
    var seats := arena.seatOrder(s);
    var remaining := Without(seats, seat);
    if |seats| <= 2 then
      map k | k in s.scores.fields ::
        JReal(if remaining != [] && k == remaining[0] then 1.0 else 0.0)
    else if seat in s.scores.fields then s.scores.fields[seat := JReal(0.0)]
    else s.scores.fields
  }

  function ForfeitOutcome(arena: Arena, s: State, seat: Key, reason: string): Object
    requires s.scores.JObj?
  {
    var base := map[Winner := WinnerJson(ForfeitWinner(arena, s, seat)),
                    ReasonKey := JStr("forfeit"), InvalidReasonKey := JStr(reason)];
    if |arena.seatOrder(s)| <= 2 then base
    else
      var remaining := Without(arena.seatOrder(s), seat);
      base[ForfeitedPlayer := JStr(SeatName(seat))]
          [RemainingPlayers := JList(seq(|remaining|, i requires 0 <= i < |remaining| =>
                                           JStr(SeatName(remaining[i]))))]
  }

  function ForfeitPublic(arena: Arena, s: State, seat: Key): Object
    requires s.publicState.JObj? && s.scores.JObj?
  {
    var m := s.publicState.fields[TerminalReason := JStr("forfeit")]
                                 [Winner := WinnerJson(ForfeitWinner(arena, s, seat))];
    if Get(m, FinalValidation).JObj? then
      m[FinalValidation :=
          JObj(m[FinalValidation].fields[ScoreKey := JObj(ForfeitScores(arena, s, seat))])]
    else m
  }

  function ForfeitStateId(turn: nat): (id: string)
    ensures id != ""
  {
    "state_" + Pad6(turn) + "_forfeit"
  }

  /** `_forfeit_state`. */
  function ForfeitState(arena: Arena, s: State, player: string, reason: string): State
    requires WellTyped(arena, s)
  {
    var seat := Name(player);
    State(
      JStr(ForfeitStateId(s.turn.i + 1)), JInt(s.turn.i + 1), s.activePlayer,
      JObj(ForfeitPublic(arena, s, seat)), s.privateState,
      JObj(map k | k in s.legalActions.fields :: JList([])),
      JObj(ForfeitScores(arena, s, seat)), JBool(true),
      JObj(ForfeitOutcome(arena, s, seat, reason)), s.rng, s.renderHints,
      JObj(s.metadata.fields[ForfeitedPlayer := JStr(player)]))
  }

  // ----- the match so far -----

  /** The local variables of the run. Per-player counters are multisets of players. */
  datatype Match = Match(
    state: State, trace: seq<TraceEvent>, replay: seq<ReplayRow>, history: seq<HistoryEntry>,
    receipts: seq<ReceiptRow>, eventIds: set<string>,
    agentErrors: multiset<string>, illegalActions: multiset<string>,
    fallbackActions: multiset<string>, providerActions: multiset<string>,
    logicalActions: multiset<string>,
    valid: bool, reason: Option<string>, codes: seq<Tag>)

  function Opening(env: Env, arena: Arena, s: State): Match {
    Match(s, [], [MakeReplay(env.hash, arena, s, JNull, JNull, None, None, None)], [], [], {},
          multiset{}, multiset{}, multiset{}, multiset{}, multiset{}, true, None, [])
  }

  function AddCode(codes: seq<Tag>, t: Tag): seq<Tag> {
    if t in codes then codes else codes + [t]
  }

  function LogicalId(c: Config, player: string, turn: nat): string {
    c.runId + ":episode_001:" + player + ":" + Pad6(turn)
  }

  /** `_request`: sealed moves of the past are left out until they may be revealed. */
  function Visible(history: seq<HistoryEntry>, turn: int): seq<HistoryEntry> {
    if history == [] then []
    else
      var last := |history| - 1;
      Visible(history[..last], turn)
      + if history[last].revealTurn <= turn then [history[last]] else []
  }

  function MakeRequest(env: Env, c: Config, legal: seq<Json>, m: Match): Request
    requires m.state.turn.JInt? && m.state.turn.i >= 0 && m.state.activePlayer.JStr?
  {
    Request(m.state.turn.i, m.state.activePlayer.s, legal, Visible(m.history, m.state.turn.i),
            env.hash(m.state), LogicalId(c, m.state.activePlayer.s, m.state.turn.i))
  }

  /** The bookkeeping of a failure that ends the match, with the forfeit row if there is one. */
  function Reject(env: Env, arena: Arena, m: Match, player: string, tag: Tag, markers: seq<Tag>,
                  action: Json, policy: Policy): Match
    requires WellTyped(arena, m.state)
  {
    var reason := env.describe(player, tag, markers);
    var m1 := m.(reason := Some(reason), valid := false);
    if policy != Forfeit then m1
    else
      var next := ForfeitState(arena, m.state, player, reason);
      m1.(state := next,
          trace := m.trace + [MakeTrace(env.hash, arena, m.state, next, action, "forfeit",
                                        None, None, None)],
          replay := m.replay + [MakeReplay(env.hash, arena, next, action, m.state.activePlayer,
                                           None, None, None)])
  }

  /** The effect of letting a fallback action stand in for the agent's own. */
  function UseFallback(env: Env, m: Match, player: string, markers: seq<Tag>): Match {
    m.(fallbackActions := m.fallbackActions + multiset{player},
       valid := false,
       reason := if m.reason.Some? then m.reason
                 else Some(env.describe(player, FallbackActionUsed, markers)),
       codes := AddCode(m.codes, FallbackActionUsed))
  }

  /** The decision about which action to apply, before it is applied. */
  datatype Choice =
    | Ended(m: Match)
    | Play(m: Match, action: Json, markers: seq<Tag>, provenance: Provenance)

  /** The agent's action, or the failure action when it gave none. */
  function FirstChoice(env: Env, c: Config, legal: seq<Json>, m: Match, player: string,
                       called: Called): Choice
  {
    var own := if player in c.providerSeats then ProviderAction else LocalAction;
    if called.action != JNull then Play(m, called.action, called.markers, own)
    else
      var substitute := FailureAction(legal);
      if substitute == JNull then Play(m, JNull, called.markers, own)
      else
        var markers := called.markers + [FallbackUsed];
        Play(UseFallback(env, m, player, markers), substitute, markers, FallbackAction)
  }

  /** The illegal-action policy. */
  function Legalise(env: Env, arena: Arena, c: Config, legal: seq<Json>, player: string,
                    choice: Choice): Choice
    requires choice.Play? && WellTyped(arena, choice.m.state)
  {
    if choice.action != JNull && IsLegal(legal, choice.action) then choice
    else
      var markers := choice.markers + [IllegalAction, NotLegal];
      var m := choice.m.(illegalActions := choice.m.illegalActions + multiset{player},
                         codes := AddCode(choice.m.codes, NotLegal));
      if c.onIllegalAction != Fallback then
        Ended(Reject(env, arena, m, player, IllegalAction, markers, choice.action,
                     c.onIllegalAction))
      else
        var substitute := FailureAction(legal);
        if substitute == JNull || !IsLegal(legal, substitute) then
          Ended(m.(valid := false,
                   reason := Some(env.describe(player, IllegalActionNoFallback, markers))))
        else
          var marked := markers + [FallbackUsed];
          Play(UseFallback(env, m, player, marked), substitute, marked, FallbackAction)
  }

  /** Applying the chosen action and recording the move. */
  function Commit(env: Env, arena: Arena, c: Config, player: string, choice: Choice): Step
    requires choice.Play? && WellTyped(arena, choice.m.state)
  {
    var m := choice.m;
    var applied := arena.apply(m.state, m.state.activePlayer, choice.action);
    if applied == None then
      Broke(m.(valid := false,
               reason := Some(env.describe(player, ApplyError, choice.markers + [ApplyError])),
               codes := m.codes + [ApplyError]))
    else
      Continued(Record(env, arena, c, m, player, choice.action, choice.provenance, applied.value))
  }

  function Record(env: Env, arena: Arena, c: Config, m: Match, player: string, action: Json,
                  provenance: Provenance, next: State): Match
    requires WellTyped(arena, m.state)
  {
    var id := LogicalId(c, player, m.state.turn.i);
    var receipts := if provenance == ProviderAction then MarkApplied(m.receipts, id) else m.receipts;
    var attempt := AppliedEventId(receipts, id);
    m.(state := next,
       receipts := receipts,
       providerActions := if provenance == ProviderAction && attempt.Some?
                          then m.providerActions + multiset{player} else m.providerActions,
       trace := m.trace + [MakeTrace(env.hash, arena, m.state, next, action, "action",
                                     Some(provenance), Some(id), attempt)],
       replay := m.replay + [MakeReplay(env.hash, arena, next, action, m.state.activePlayer,
                                        Some(provenance), Some(id), attempt)],
       history := m.history + [HistoryEntry(m.state.turn.i, player, action,
                                            RevealTurn(arena, next), env.hash(next), provenance)])
  }

  /** `action_reveal_turn` for a state whose turn is a number. */
  function RevealTurn(arena: Arena, after: State): int {
    (if after.turn.JInt? then after.turn.i else 0) + if Pending(arena, after) then 1 else 0
  }

  /** One pass of the loop: an exception, a `break`, or the next iteration. */
  datatype Step = Raised | Broke(m: Match) | Continued(m: Match)

  function Context(env: Env, c: Config, m: Match): TurnContext
    requires m.state.turn.JInt? && m.state.turn.i >= 0 && m.state.activePlayer.JStr?
  {
    var id := LogicalId(c, m.state.activePlayer.s, m.state.turn.i);
    TurnContext(id, m.state.activePlayer.s, OptionalText(c.caseId), c.caseAttempt,
                index => env.eventId(id, index))
  }

  /** The loop body, once the agent has replied. */
  function TakeTurn(env: Env, arena: Arena, c: Config, legal: seq<Json>, m: Match, reply: Reply): Step
    requires WellTyped(arena, m.state)
  {
    var player := m.state.activePlayer.s;
    var called := CallAgent(reply);
    var ctx := Context(env, c, m);
    if !GapFree(ctx, reply.receipts, m.eventIds) then Raised
    else
      var counted := m.(logicalActions := m.logicalActions + multiset{player},
                        receipts := m.receipts + Enriched(ctx, reply.receipts),
                        eventIds := m.eventIds + EventIds(ctx, |reply.receipts|));
      if HasAgentError(called.markers) then
        var kind := FailureClassOf(called);
        var failed := counted.(agentErrors := m.agentErrors + multiset{player},
                               codes := AddCode(AddCode(m.codes, AgentError), kind));
        var policy := if IsInterruption(kind) then InvalidMatch else c.onAgentError;
        if policy != Fallback then
          Broke(Reject(env, arena, failed, player, kind, called.markers, called.action, policy))
        else Decide(env, arena, c, legal, failed, player, called)
      else Decide(env, arena, c, legal, counted, player, called)
  }

  function Decide(env: Env, arena: Arena, c: Config, legal: seq<Json>, m: Match, player: string,
                  called: Called): Step
    requires WellTyped(arena, m.state)
  {
    match Legalise(env, arena, c, legal, player, FirstChoice(env, c, legal, m, player, called))
    case Ended(ended) => Broke(ended)
    case Play(m', action, markers, provenance) =>
      Commit(env, arena, c, player, Play(m', action, markers, provenance))
  }
}
