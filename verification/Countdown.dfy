/** A small arena that meets the contract, so that what is proved of all arenas is proved of some. */
module Countdown {
  import opened Options
  import opened Json
  import opened Arenas

  const LENGTH: nat := 4
  const FIRST := Name("a")
  const SECOND := Name("b")
  const PASS := JStr("pass")

  function Mover(turn: nat): Key {
    if turn % 2 == 0 then FIRST else SECOND
  }

  function Board(turn: nat): State {
    State(JStr("countdown"), JInt(turn), JStr(Mover(turn).text), JObj(map[]), JObj(map[]),
          JObj(if turn < LENGTH then map[Mover(turn) := JList([PASS])] else map[]),
          JObj(map[FIRST := JReal(0.0), SECOND := JReal(0.0)]), JBool(turn >= LENGTH), JNull,
          JStr("none"), JObj(map[]), JObj(map[]))
  }

  function Apply(s: State, player: Json, action: Json): Option<State> {
    if s.turn.JInt? && 0 <= s.turn.i < LENGTH && player == s.activePlayer && action == PASS
    then Some(Board(s.turn.i + 1)) else None
  }

  function Items(j: Json): Option<seq<Json>> {
    if j.JList? then Some(j.items) else None
  }

  const ARENA := Arena("countdown", {"a", "b"}, None, (seed: int) => Board(0), Apply, Items,
                       (s: State) => [FIRST, SECOND])

  lemma BoardCounts(turn: nat)
    ensures Board(turn).turn == JInt(turn)
  {
  }

  lemma BoardIsWellTyped(turn: nat)
    ensures WellTyped(ARENA, Board(turn))
  {
    assert Truthy(Board(turn).stateId) && Mover(turn).text in ARENA.players;
  }

  lemma BoardIsTimingFree(turn: nat)
    ensures TimingFree(Board(turn))
  {
    assert NoTiming(JList([PASS]));
    assert NoTiming(JReal(0.0));
    assert NoTiming(Board(turn).legalActions);
    assert NoTiming(Board(turn).scores);
  }

  lemma BoardIsGood(turn: nat)
    ensures GoodState(ARENA, Board(turn))
  {
    BoardIsWellTyped(turn);
    BoardIsTimingFree(turn);
    hide WellTyped, TimingFree;
    var s := Board(turn);
    assert Unconfused([PASS]);
    assert forall k | k in s.legalActions.fields :: s.legalActions.fields[k].items == [PASS];
  }

  /** The arena contract can be met by an arena that plays: four moves, one player after the other. */
  lemma CountdownMeetsTheContract()
    ensures Contract(ARENA)
    ensures forall turn: nat | turn < LENGTH ::
              ARENA.apply(Board(turn), Board(turn).activePlayer, PASS) == Some(Board(turn + 1))
  {
    hide GoodState, Board;
    forall seed ensures GoodState(ARENA, ARENA.initial(seed)) {
      BoardIsGood(0);
    }
    forall s, p, a | GoodState(ARENA, s) && ARENA.apply(s, p, a).Some?
      ensures GoodState(ARENA, ARENA.apply(s, p, a).value) && ARENA.apply(s, p, a).value.turn == JInt(s.turn.i + 1)
    {
      BoardIsGood(s.turn.i + 1);
      BoardCounts(s.turn.i + 1);
    }
    forall turn: nat | turn < LENGTH
      ensures ARENA.apply(Board(turn), Board(turn).activePlayer, PASS) == Some(Board(turn + 1))
    {
      BoardCounts(turn);
    }
  }
}
