/** Calls on which `step_session` and `core_step` do disagree, in an arena of one player and one move. */
module SessionGaps {
  import opened Options
  import opened Json
  import opened Arenas
  import opened Sessions
  import Countdown

  /** Player "a" may always make the one move. */
  function Board(move: Json, turn: nat): State {
    State(JStr("solo"), JInt(turn), JStr("a"), JObj(map[]), JObj(map[]),
          JObj(map[Name("a") := JList([move])]), JObj(map[Name("a") := JReal(0.0)]), JBool(false), JNull,
          JStr("none"), JObj(map[]), JObj(map[]))
  }

  function Play(move: Json, s: State): Option<State> {
    if s.turn.JInt? && s.turn.i >= 0 then Some(Board(move, s.turn.i + 1)) else None
  }

  function Solo(move: Json): Arena {
    Arena("solo", {"a"}, None, (seed: int) => Board(move, 0), (s: State, p: Json, a: Json) => Play(move, s),
          Countdown.Items, (s: State) => [Name("a")])
  }

  lemma BoardIsWellTyped(move: Json, turn: nat)
    ensures WellTyped(Solo(move), Board(move, turn))
  {
    assert Truthy(Board(move, turn).stateId);
  }

  lemma SoloIsTyped(move: Json)
    ensures Typed(Solo(move))
  {
    hide WellTyped;
    var arena := Solo(move);
    forall s, p, a | WellTyped(arena, s) && arena.apply(s, p, a).Some?
      ensures WellTyped(arena, arena.apply(s, p, a).value) && arena.apply(s, p, a).value.turn == JInt(s.turn.i + 1)
    {
      BoardIsWellTyped(move, s.turn.i + 1);
    }
  }

  lemma OnlyMove(canon: Json -> string, move: Json, turn: nat)
    ensures LegalList(Solo(move), Board(move, turn)) == [move]
    ensures Denoted(canon, [move], ActionToken(canon, move)) == Some(move)
  {
    assert Seat(Board(move, turn).activePlayer) == Name("a");
  }

  /** A null move is refused by the session under its own token and played by `core_step`. */
  lemma NullMoveSplits(canon: Json -> string, bare: bool)
    requires canon(JNull) != ""
    ensures Typed(Solo(JNull)) && WellTyped(Solo(JNull), Board(JNull, 0))
    ensures !Agree(Solo(JNull), canon, Board(JNull, 0), Call("a", canon(JNull)), bare)
  {
    SoloIsTyped(JNull);
    BoardIsWellTyped(JNull, 0);
    OnlyMove(canon, JNull, 0);
    SessionAgreesWithCore(Solo(JNull), canon, Board(JNull, 0), Call("a", canon(JNull)), bare);
    hide Typed, WellTyped, Agree, LegalList, Denoted;
  }

  /** A move named by the empty string is played by the session and not found by `core_step` as an action id. */
  lemma EmptyTokenSplits(canon: Json -> string)
    ensures Typed(Solo(JStr(""))) && WellTyped(Solo(JStr("")), Board(JStr(""), 0))
    ensures !Agree(Solo(JStr("")), canon, Board(JStr(""), 0), Call("a", ""), false)
  {
    var move := JStr("");
    SoloIsTyped(move);
    BoardIsWellTyped(move, 0);
    OnlyMove(canon, move, 0);
    assert ActionToken(canon, move) == "";
    SessionAgreesWithCore(Solo(move), canon, Board(move, 0), Call("a", ""), false);
    hide Typed, WellTyped, Agree, LegalList, Denoted;
  }

  /** An empty player is nobody to the session and the active player to `core_step`. */
  lemma EmptyPlayerSplits(canon: Json -> string, bare: bool)
    ensures Typed(Solo(JStr("go"))) && WellTyped(Solo(JStr("go")), Board(JStr("go"), 0))
    ensures !Agree(Solo(JStr("go")), canon, Board(JStr("go"), 0), Call("", "go"), bare)
  {
    var move := JStr("go");
    SoloIsTyped(move);
    BoardIsWellTyped(move, 0);
    OnlyMove(canon, move, 0);
    assert ActionToken(canon, move) == "go";
    SessionAgreesWithCore(Solo(move), canon, Board(move, 0), Call("", "go"), bare);
    hide Typed, WellTyped, Agree, LegalList, Denoted;
  }
}
