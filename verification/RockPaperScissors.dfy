/** A sealed two-seat arena: the first move waits in a private field until the second is made. */
module RockPaperScissors {
  import opened Options
  import opened Json
  import opened Arenas
  import opened Events
  import opened Receipts
  import opened Match
  import opened Turns
  import opened Runs
  import opened Sealed
  import opened SealedMoves
  import opened Policies

  const FIRST := "player_1"
  const SECOND := "player_2"
  const PENDING := Name("pending_action")
  const SEED := Name("seed")
  const CHOICES: seq<Json> := [JStr("rock"), JStr("paper"), JStr("scissors")]

  /** The players' two actions, once both are made. */
  datatype Reveal = Reveal(one: string, two: string)

  function WinnerOf(r: Reveal): Option<string> {
    if r.one == r.two then None
    else if r in {Reveal("rock", "scissors"), Reveal("paper", "rock"), Reveal("scissors", "paper")}
    then Some(FIRST) else Some(SECOND)
  }

  function OutcomeOf(r: Reveal): Json {
    JObj(map[Winner := OptionalText(WinnerOf(r)),
             ReasonKey := JStr(if WinnerOf(r).None? then "draw" else "beats"),
             Name("actions") := ActionsOf(r)])
  }

  function ActionsOf(r: Reveal): Json {
    JObj(map[Name(FIRST) := JStr(r.one), Name(SECOND) := JStr(r.two)])
  }

  function ScoresOf(shown: Option<Reveal>): Json {
    var first := match shown
      case None => 0.0
      case Some(r) =>
        if WinnerOf(r) == None then 0.5 else if WinnerOf(r) == Some(FIRST) then 1.0 else 0.0;
    var second := if shown.Some? then 1.0 - first else 0.0;
    JObj(map[Name(FIRST) := JReal(first), Name(SECOND) := JReal(second)])
  }

  /** `_state`; `commitment` is the text the arena commits its seed with. */
  function Table(commitment: int -> string, turn: nat, active: string, seed: int,
                 pending: Option<string>, shown: Option<Reveal>): State
  {
    var legal := JList(if shown.Some? then [] else CHOICES);
    var held := if pending.Some? then map[PENDING := JStr(pending.value)] else map[];
    State(JStr("state_" + Pad6(turn)), JInt(turn), JStr(active),
          JObj(map[Name("round") := JInt(1),
                   Name("revealed_actions") := if shown.Some? then ActionsOf(shown.value) else JObj(map[])]),
          JObj(map[Name(FIRST) := JObj(held), Name(SECOND) := JObj(map[])]),
          JObj(map[Name(FIRST) := if active == FIRST then legal else JList([]),
                   Name(SECOND) := if active == SECOND then legal else JList([])]),
          ScoresOf(shown), JBool(shown.Some?),
          if shown.Some? then OutcomeOf(shown.value) else JNull,
          JStr(commitment(seed)), JObj(map[Name("renderer") := JStr("matrix-game")]),
          JObj(map[SEED := JInt(seed)]))
  }

  /** The commitment the second player answers, in the states this arena makes. */
  function PendingOf(s: State): Json {
    if s.privateState.JObj? && Get(s.privateState.fields, Name(FIRST)).JObj?
    then Get(Get(s.privateState.fields, Name(FIRST)).fields, PENDING) else JNull
  }

  function Apply(commitment: int -> string, s: State, player: Json, action: Json): Option<State> {
    var legal := if s.legalActions.JObj? && player.JStr? then Get(s.legalActions.fields, Name(player.s))
                 else JNull;
    if !s.turn.JInt? || s.turn.i < 0 || !action.JStr? || !legal.JList? || !IsLegal(legal.items, action)
       || !s.metadata.JObj? || !Get(s.metadata.fields, SEED).JInt?
    then None
    else
      var seed := Get(s.metadata.fields, SEED).i;
      if player == JStr(FIRST) then
        Some(Table(commitment, s.turn.i + 1, SECOND, seed, Some(action.s), None))
      else if !PendingOf(s).JStr? then None
      else Some(Table(commitment, s.turn.i + 1, FIRST, seed, None, Some(Reveal(PendingOf(s).s, action.s))))
  }

  function Items(j: Json): Option<seq<Json>> {
    if j.JList? then Some(j.items) else None
  }

  /** The seats as the score object lists them: a winner comes first. */
  function Seats(s: State): seq<Key> {
    if s.scores.JObj? && Get(s.scores.fields, Name(SECOND)) == JReal(1.0)
    then [Name(SECOND), Name(FIRST)] else [Name(FIRST), Name(SECOND)]
  }

  function Rps(commitment: int -> string): Arena {
    Arena("rock-paper-scissors", {FIRST, SECOND}, Some(PENDING),
          seed => Table(commitment, 0, FIRST, seed, None, None),
          (s, player, action) => Apply(commitment, s, player, action), Items, Seats)
  }

  // ----- the arena meets the contract -----

  predicate Seated(active: string) {
    active == FIRST || active == SECOND
  }

  lemma TableIsWellTyped(commitment: int -> string, turn: nat, active: string, seed: int,
                         pending: Option<string>, shown: Option<Reveal>)
    requires Seated(active)
    ensures WellTyped(Rps(commitment), Table(commitment, turn, active, seed, pending, shown))
  {
    hide WinnerOf, OutcomeOf, ActionsOf;
    var s := Table(commitment, turn, active, seed, pending, shown);
    assert s.stateId.s[0] == 's' && |FIRST| == 8 && |SECOND| == 8;
    assert s.outcome.JNull? || s.outcome.JObj? by { OutcomeIsClean(shown); }
  }

  lemma OutcomeIsClean(shown: Option<Reveal>)
    ensures shown.Some? ==> OutcomeOf(shown.value).JObj? && NoTiming(OutcomeOf(shown.value))
    ensures shown.Some? ==> NoTiming(ActionsOf(shown.value))
  {
    hide WinnerOf;
    if shown.Some? {
      assert NoTiming(ActionsOf(shown.value));
      assert NoTiming(OptionalText(WinnerOf(shown.value)));
    }
  }

  lemma ChoicesAreClean()
    ensures NoTiming(JList(CHOICES)) && NoTiming(JList([])) && Unconfused(CHOICES)
  {
    assert "rock"[0] == 'r' && "paper"[0] == 'p' && "scissors"[0] == 's';
  }

  lemma SeatsAreClean(one: Json, two: Json)
    requires NoTiming(one) && NoTiming(two)
    ensures NoTiming(JObj(map[Name(FIRST) := one, Name(SECOND) := two]))
  {
  }

  lemma BoardIsClean(actions: Json)
    requires NoTiming(actions)
    ensures NoTiming(JObj(map[Name("round") := JInt(1), Name("revealed_actions") := actions]))
  {
  }

  lemma LegalListsAreClean(turn: nat, active: string, shown: Option<Reveal>)
    ensures var legal := JList(if shown.Some? then [] else CHOICES);
            var one := if active == FIRST then legal else JList([]);
            var two := if active == SECOND then legal else JList([]);
            && NoTiming(one) && NoTiming(two) && Unconfused(one.items) && Unconfused(two.items)
  {
    ChoicesAreClean();
    hide CHOICES;
  }

  lemma TableIsTimingFree(commitment: int -> string, turn: nat, active: string, seed: int,
                          pending: Option<string>, shown: Option<Reveal>)
    ensures TimingFree(Table(commitment, turn, active, seed, pending, shown))
  {
    hide NoTiming, OutcomeOf, ActionsOf, ScoresOf, CHOICES, Pad6;
    OutcomeIsClean(shown);
    ScoresAreClean(shown);
    LegalListsAreClean(turn, active, shown);
    LeavesAreClean(turn, seed, pending, commitment(seed));
    var s := Table(commitment, turn, active, seed, pending, shown);
    BoardIsClean(if shown.Some? then ActionsOf(shown.value) else JObj(map[]));
    SeatsAreClean(s.privateState.fields[Name(FIRST)], JObj(map[]));
    SeatsAreClean(s.legalActions.fields[Name(FIRST)], s.legalActions.fields[Name(SECOND)]);
  }

  lemma ScoresAreClean(shown: Option<Reveal>)
    ensures NoTiming(ScoresOf(shown))
  {
    hide WinnerOf;
    assert forall r: real :: NoTiming(JReal(r));
  }

  lemma LeavesAreClean(turn: nat, seed: int, pending: Option<string>, text: string)
    ensures NoTiming(JNull) && NoTiming(JObj(map[])) && NoTiming(JInt(turn)) && NoTiming(JStr(text))
    ensures forall t :: NoTiming(JStr(t))
    ensures forall b :: NoTiming(JBool(b))
    ensures NoTiming(JObj(map[SEED := JInt(seed)]))
    ensures NoTiming(JObj(map[Name("renderer") := JStr("matrix-game")]))
    ensures pending.Some? ==> NoTiming(JObj(map[PENDING := JStr(pending.value)]))
  {
  }

  lemma TableIsGood(commitment: int -> string, turn: nat, active: string, seed: int,
                    pending: Option<string>, shown: Option<Reveal>)
    requires Seated(active)
    ensures GoodState(Rps(commitment), Table(commitment, turn, active, seed, pending, shown))
  {
    hide WellTyped, TimingFree, CHOICES, OutcomeOf, ActionsOf, WinnerOf, Unconfused, Seats;
    TableIsWellTyped(commitment, turn, active, seed, pending, shown);
    TableIsTimingFree(commitment, turn, active, seed, pending, shown);
    LegalListsAreClean(turn, active, shown);
  }

  lemma RpsMeetsTheContract(commitment: int -> string)
    ensures Contract(Rps(commitment))
  {
    hide GoodState, Table;
    var arena := Rps(commitment);
    forall seed ensures GoodState(arena, arena.initial(seed)) {
      TableIsGood(commitment, 0, FIRST, seed, None, None);
    }
    forall s, p, a | GoodState(arena, s) && arena.apply(s, p, a).Some?
      ensures GoodState(arena, arena.apply(s, p, a).value)
      ensures arena.apply(s, p, a).value.turn == JInt(s.turn.i + 1)
    {
      var seed := Get(s.metadata.fields, SEED).i;
      if p == JStr(FIRST) {
        TableIsGood(commitment, s.turn.i + 1, SECOND, seed, Some(a.s), None);
        TableCounts(commitment, s.turn.i + 1, SECOND, seed, Some(a.s), None);
      } else {
        var shown := Some(Reveal(PendingOf(s).s, a.s));
        TableIsGood(commitment, s.turn.i + 1, FIRST, seed, None, shown);
        TableCounts(commitment, s.turn.i + 1, FIRST, seed, None, shown);
      }
    }
  }

  lemma TableCounts(commitment: int -> string, turn: nat, active: string, seed: int,
                    pending: Option<string>, shown: Option<Reveal>)
    ensures Table(commitment, turn, active, seed, pending, shown).turn == JInt(turn)
  {
  }

  // ----- the first move is sealed -----

  /** A commitment is one, and it is gone from the revealed table. */
  lemma TableIsCommitted(commitment: int -> string, turn: nat, active: string, seed: int,
                         pending: Option<string>, shown: Option<Reveal>)
    ensures Committed(Rps(commitment), Table(commitment, turn, active, seed, pending, shown))
            <==> pending.Some?
  {
    hide ScoresOf, OutcomeOf, ActionsOf;
    var s := Table(commitment, turn, active, seed, pending, shown);
    if pending.Some? {
      assert Holds(s, PENDING, Name(FIRST));
    }
    assert !Holds(s, PENDING, Name(SECOND));
  }

  function OpeningRequest(env: Env, arena: Arena, c: Config, seed: int): Request
    requires Contract(arena)
  {
    var m := Opening(env, arena, arena.initial(seed));
    assert GoodState(arena, m.state);
    MakeRequest(env, c, LegalList(arena, m.state), m)
  }

  /** The first player names one of the three choices in time, with a ledger the runner takes. */
  ghost predicate Opens(env: Env, arena: Arena, c: Config, agent: Agent, seed: int, action: Json)
    requires Contract(arena)
  {
    var m := Opening(env, arena, arena.initial(seed));
    var reply := agent(OpeningRequest(env, arena, c, seed));
    assert GoodState(arena, m.state);
    c.maxTurns > 0 && action in CHOICES && OwnAction(reply) == action
    && GapFree(Context(env, c, m), reply.receipts, {})
  }

  /** The first player may choose any of the three, and the choice is put aside. */
  lemma OpeningOffersTheChoices(commitment: int -> string, seed: int, action: Json)
    ensures var arena := Rps(commitment);
            var s := arena.initial(seed);
            && s.turn == JInt(0) && s.activePlayer == JStr(FIRST) && s.terminal == JBool(false)
            && LegalList(arena, s) == CHOICES
            && (action in CHOICES ==>
                  action.JStr? && arena.apply(s, s.activePlayer, action)
                  == Some(Table(commitment, 1, SECOND, seed, Some(action.s), None)))
  {
    hide ScoresOf, OutcomeOf, ActionsOf;
    LegalIsMembership(CHOICES, action);
  }

  lemma FirstTurn(env: Env, commitment: int -> string, c: Config, agent: Agent, seed: int, action: Json)
    returns (next: Match)
    requires Contract(Rps(commitment)) && Opens(env, Rps(commitment), c, agent, seed, action)
    ensures NextTurn(env, Rps(commitment), c, agent,
                     Opening(env, Rps(commitment), Rps(commitment).initial(seed)), next)
    ensures action.JStr? && next.state == Table(commitment, 1, SECOND, seed, Some(action.s), None)
    ensures |next.history| == 1 && next.history[0].action == action
  {
    hide Contract, GoodState, WellTyped, Table, Apply, TakeTurn, GapFree, CHOICES, OwnAction;
    var arena := Rps(commitment);
    var m := Opening(env, arena, arena.initial(seed));
    OpeningIsPlayable(env, arena, seed);
    OpeningOffersTheChoices(commitment, seed, action);
    var reply := agent(OpeningRequest(env, arena, c, seed));
    LegalActionIsPlayed(env, arena, c, LegalList(arena, m.state), m, reply,
                        Table(commitment, 1, SECOND, seed, Some(action.s), None));
    next := TakeTurn(env, arena, c, LegalList(arena, m.state), m, reply).m;
  }

  lemma OpeningIsPlayable(env: Env, arena: Arena, seed: int)
    requires Contract(arena)
    ensures var m := Opening(env, arena, arena.initial(seed));
            && GoodState(arena, m.state) && WellTyped(arena, m.state)
            && m.state == arena.initial(seed) && m.history == [] && m.eventIds == {}
  {
    assert GoodState(arena, arena.initial(seed));
  }

  lemma TwoPointTrajectory(env: Env, arena: Arena, c: Config, agent: Agent, seed: int, m: Match,
                           next: Match)
    requires m == Opening(env, arena, arena.initial(seed)) && NextTurn(env, arena, c, agent, m, next)
    ensures Trajectory(env, arena, c, agent, seed, [m, next])
  {
  }

  /** The second request and the public rows leave the first move out. */
  ghost predicate FirstMoveWithheld(env: Env, arena: Arena, c: Config, next: Match, action: Json) {
    && WellTyped(arena, next.state) && Committed(arena, next.state)
    && |next.history| == 1 && next.history[0].action == action
    && Shown(env, arena, c, next) == [] && LatestShows(next, JNull, action)
  }

  /**
   Sealing happens: whichever choice the first player makes, the run goes on to a second request
   that does not show it, and neither do the public rows.
   */
  lemma FirstMoveIsSealed(env: Env, commitment: int -> string, c: Config, agent: Agent, seed: int,
                          action: Json)
    returns (ms: seq<Match>)
    requires Contract(Rps(commitment)) && Opens(env, Rps(commitment), c, agent, seed, action)
    ensures |ms| == 2 && Trajectory(env, Rps(commitment), c, agent, seed, ms)
    ensures FirstMoveWithheld(env, Rps(commitment), c, ms[1], action)
  {
    hide Contract, GoodState, Table, Rps, NextTurn, LatestShows, Committed, Trajectory, Opens, WellTyped;
    var arena := Rps(commitment);
    var m := Opening(env, arena, arena.initial(seed));
    var next := FirstTurn(env, commitment, c, agent, seed, action);
    ms := [m, next];
    TableIsCommitted(commitment, 1, SECOND, seed, Some(action.s), None);
    TwoPointTrajectory(env, arena, c, agent, seed, m, next);
    WithheldExactlyWhileCommitted(env, arena, c, agent, seed, ms, 1);
  }

  /** Such a player exists. */
  lemma RockOpens(env: Env, commitment: int -> string, c: Config, seed: int)
    requires Contract(Rps(commitment)) && c.maxTurns > 0
    ensures Opens(env, Rps(commitment), c, _ => Reply(Answered(JStr("rock"), None), false, []), seed,
                  JStr("rock"))
  {
    hide Contract, Table, Rps;
    assert CHOICES[0] == JStr("rock");
  }
}
