/** Who wins when a player forfeits. */
module Forfeits {
  import opened Options
  import opened Json
  import opened Arenas
  import M = Match
  import L = LogicalIds

  lemma {:induction false} OthersRemain(seats: seq<Key>, seat: Key)
    ensures forall k :: k in M.Without(seats, seat) <==> k in seats && k != seat
    ensures NoDuplicates(seats) ==> |M.Without(seats, seat)| == |seats| - (if seat in seats then 1 else 0)
  {
    if seats != [] {
      OthersRemain(seats[1..], seat);
      assert seats == [seats[0]] + seats[1..];
      if NoDuplicates(seats) {
        forall i, j | 0 <= i < j < |seats[1..]| ensures seats[1..][i] != seats[1..][j] {
          assert seats[i + 1] != seats[j + 1];
        }
        assert seats[0] !in seats[1..];
      }
    }
  }

  lemma {:induction false} LeaderIsHighest(scores: Object, seats: seq<Key>)
    requires seats != []
    ensures M.Leader(scores, seats) in seats
    ensures forall k | k in seats :: M.Score(scores, k) <= M.Score(scores, M.Leader(scores, seats))
  {
    hide M.Score;
    assert seats == [seats[0]] + seats[1..];
    if |seats| > 1 { LeaderIsHighest(scores, seats[1..]); }
  }

  /** Seat `w` scores strictly more than each of the other seats. */
  predicate StrictBest(scores: Object, seats: seq<Key>, w: Key) {
    w in seats && forall k | k in seats && k != w :: M.Score(scores, k) < M.Score(scores, w)
  }

  /** A unique leader is found exactly when one seat is strictly best. */
  lemma UniqueLeaderIsStrictBest(scores: Object, seats: seq<Key>, w: Key)
    ensures M.UniqueLeader(scores, seats) == Some(w) <==> StrictBest(scores, seats, w)
  {
    hide M.Score, M.Leader;
    if seats != [] { LeaderIsHighest(scores, seats); }
  }

  /** Of all seats but `seat`, `w` scores strictly most. */
  predicate BestOfTheRest(scores: Object, seats: seq<Key>, seat: Key, w: Key) {
    w in seats && w != seat &&
    forall k | k in seats && k != seat && k != w :: M.Score(scores, k) < M.Score(scores, w)
  }

  lemma ZeroingOneSeatKeepsTheOrder(before: Object, after: Object, seats: seq<Key>, seat: Key, w: Key)
    requires forall k :: k != seat ==> M.Score(after, k) == M.Score(before, k)
    ensures StrictBest(after, M.Without(seats, seat), w) <==> BestOfTheRest(before, seats, seat, w)
  {
    hide M.Score, M.Without;
    OthersRemain(seats, seat);
    var remaining := M.Without(seats, seat);
    if StrictBest(after, remaining, w) {
      forall k | k in seats && k != seat && k != w ensures M.Score(before, k) < M.Score(before, w) {
        assert k in remaining && M.Score(after, k) < M.Score(after, w);
      }
    }
    if BestOfTheRest(before, seats, seat, w) {
      forall k | k in remaining && k != w ensures M.Score(after, k) < M.Score(after, w) {
        assert M.Score(before, k) < M.Score(before, w);
      }
    }
  }

  /**
   With more than two seats the winner of a forfeit is the seat, other than the
   forfeiting one, whose own score is strictly above all the remaining ones.
   */
  lemma WinnerAmongMany(arena: Arena, s: State, seat: Key, w: Key)
    requires s.scores.JObj? && |arena.seatOrder(s)| > 2
    ensures M.ForfeitWinner(arena, s, seat) == Some(w) <==>
              BestOfTheRest(s.scores.fields, arena.seatOrder(s), seat, w)
  {
    var scores := M.ForfeitScores(arena, s, seat);
    UniqueLeaderIsStrictBest(scores, M.Without(arena.seatOrder(s), seat), w);
    ZeroingOneSeatKeepsTheOrder(s.scores.fields, scores, arena.seatOrder(s), seat, w);
    hide BestOfTheRest, StrictBest, M.UniqueLeader, M.Without;
  }

  /** With two seats the other one wins, with score one against zero. */
  lemma WinnerOfTwo(arena: Arena, s: State, seat: Key, other: Key)
    requires s.scores.JObj? && NoDuplicates(arena.seatOrder(s)) && |arena.seatOrder(s)| == 2
    requires seat in arena.seatOrder(s) && other in arena.seatOrder(s) && other != seat
    requires seat in s.scores.fields && other in s.scores.fields
    ensures M.ForfeitWinner(arena, s, seat) == Some(other)
    ensures M.ForfeitScores(arena, s, seat)[other] == JReal(1.0) && M.ForfeitScores(arena, s, seat)[seat] == JReal(0.0)
  {
    OthersRemain(arena.seatOrder(s), seat);
    var remaining := M.Without(arena.seatOrder(s), seat);
    assert remaining[0] in remaining && other in remaining;
  }

  /** Nobody wins by forfeiting: the forfeiting seat is never the winner and its score is zero. */
  lemma ForfeiterNeverWins(arena: Arena, s: State, seat: Key)
    requires s.scores.JObj? && seat in s.scores.fields
    ensures M.ForfeitWinner(arena, s, seat) != Some(seat)
    ensures M.ForfeitScores(arena, s, seat)[seat] == JReal(0.0)
    ensures M.ForfeitScores(arena, s, seat).Keys == s.scores.fields.Keys
  {
    OthersRemain(arena.seatOrder(s), seat);
    var remaining := M.Without(arena.seatOrder(s), seat);
    if |arena.seatOrder(s)| > 2 {
      WinnerAmongMany(arena, s, seat, seat);
    } else if remaining != [] {
      assert remaining[0] in remaining;
    }
  }

  // ----- the forfeit state, field by field -----

  /** The seats but this one, in order. */
  function Others(seats: seq<Key>, seat: Key): seq<Key> {
    if seats == [] then []
    else
      var rest := Others(seats[1..], seat);
      if seats[0] == seat then rest else [seats[0]] + rest
  }

  lemma {:induction false} WithoutIsOthers(seats: seq<Key>, seat: Key)
    ensures M.Without(seats, seat) == Others(seats, seat)
  {
    if seats != [] {
      WithoutIsOthers(seats[1..], seat);
    }
  }

  /** A seat as it is named in an outcome. */
  predicate Names(name: Json, seat: Key) {
    name.JStr? && (seat.Name? ==> name.s == seat.text)
  }

  /** Whom the forfeit makes the winner: the other of two, or the strictly best of the rest. */
  predicate IsWinner(arena: Arena, s: State, seat: Key, winner: Json)
    requires s.scores.JObj?
  {
    var order := arena.seatOrder(s);
    var rest := Others(order, seat);
    if |order| <= 2 then (if rest == [] then winner == JNull else Names(winner, rest[0]))
    else if exists w | w in order :: BestOfTheRest(s.scores.fields, order, seat, w)
    then exists w | w in order :: BestOfTheRest(s.scores.fields, order, seat, w) && Names(winner, w)
    else winner == JNull
  }

  /** One point for the other of two; among more, the forfeiting seat loses its own. */
  predicate ScoresRight(arena: Arena, s: State, seat: Key, scores: Object)
    requires s.scores.JObj?
  {
    var order, was := arena.seatOrder(s), s.scores.fields;
    && scores.Keys == was.Keys
    && forall k | k in scores ::
         if |order| <= 2 then
           scores[k] == JReal(if Others(order, seat) != [] && k == Others(order, seat)[0] then 1.0 else 0.0)
         else scores[k] == if k == seat then JReal(0.0) else was[k]
  }

  /** Three fields for two seats, five for more. */
  predicate OutcomeRight(arena: Arena, s: State, player: string, reason: string, outcome: Object) {
    var order := arena.seatOrder(s);
    && outcome.Keys == {Winner, ReasonKey, InvalidReasonKey}
                       + (if |order| <= 2 then {} else {ForfeitedPlayer, RemainingPlayers})
    && outcome[ReasonKey] == JStr("forfeit") && outcome[InvalidReasonKey] == JStr(reason)
    && (|order| > 2 ==>
          && outcome[ForfeitedPlayer] == JStr(player)
          && outcome[RemainingPlayers].JList?
          && var rest := Others(order, Name(player));
             && |outcome[RemainingPlayers].items| == |rest|
             && forall i | 0 <= i < |rest| :: Names(outcome[RemainingPlayers].items[i], rest[i]))
  }

  /** The public state says how it ended, who won, and the final scores where it validates them. */
  predicate PublicRight(was: Object, now: Object, winner: Json, scores: Json) {
    && now.Keys == was.Keys + {TerminalReason, Winner}
    && now[TerminalReason] == JStr("forfeit") && now[Winner] == winner
    && forall k | k in was && k != TerminalReason && k != Winner ::
         now[k] == if k == FinalValidation && was[k].JObj? then JObj(was[k].fields[ScoreKey := scores]) else was[k]
  }

  lemma WinnerIsRight(arena: Arena, s: State, seat: Key)
    requires s.scores.JObj?
    ensures IsWinner(arena, s, seat, M.WinnerJson(M.ForfeitWinner(arena, s, seat)))
  {
    hide M.Without, M.UniqueLeader, M.ForfeitScores, BestOfTheRest;
    WithoutIsOthers(arena.seatOrder(s), seat);
    if |arena.seatOrder(s)| > 2 {
      forall w ensures M.ForfeitWinner(arena, s, seat) == Some(w)
                       <==> BestOfTheRest(s.scores.fields, arena.seatOrder(s), seat, w) {
        WinnerAmongMany(arena, s, seat, w);
      }
      hide M.ForfeitWinner;
      if M.ForfeitWinner(arena, s, seat).Some? {
        var w := M.ForfeitWinner(arena, s, seat).value;
        BestIsASeat(s.scores.fields, arena.seatOrder(s), seat, w);
        assert Names(M.WinnerJson(Some(w)), w);
      }
    }
  }

  lemma BestIsASeat(scores: Object, seats: seq<Key>, seat: Key, w: Key)
    requires BestOfTheRest(scores, seats, seat, w)
    ensures w in seats
  {
  }

  lemma ScoresAreRight(arena: Arena, s: State, seat: Key)
    requires s.scores.JObj?
    ensures ScoresRight(arena, s, seat, M.ForfeitScores(arena, s, seat))
  {
    hide M.Without, Others;
    WithoutIsOthers(arena.seatOrder(s), seat);
  }

  lemma OutcomeIsRight(arena: Arena, s: State, player: string, reason: string)
    requires s.scores.JObj?
    ensures OutcomeRight(arena, s, player, reason, M.ForfeitOutcome(arena, s, Name(player), reason))
    ensures M.ForfeitOutcome(arena, s, Name(player), reason)[Winner]
            == M.WinnerJson(M.ForfeitWinner(arena, s, Name(player)))
  {
    hide M.Without, Others, M.ForfeitWinner;
    WithoutIsOthers(arena.seatOrder(s), Name(player));
  }

  lemma PublicIsRight(arena: Arena, s: State, seat: Key)
    requires s.publicState.JObj? && s.scores.JObj?
    ensures PublicRight(s.publicState.fields, M.ForfeitPublic(arena, s, seat),
                        M.WinnerJson(M.ForfeitWinner(arena, s, seat)), JObj(M.ForfeitScores(arena, s, seat)))
  {
    hide M.ForfeitWinner, M.ForfeitScores;
  }

  /** The forfeit state field by field: finished, one turn later, nothing left to play, the seats settled. */
  lemma ForfeitStateIs(arena: Arena, s: State, player: string, reason: string)
    requires WellTyped(arena, s)
    ensures
      var f := M.ForfeitState(arena, s, player, reason);
      && f.turn == JInt(s.turn.i + 1) && f.terminal == JBool(true)
      && (exists d :: L.IsTurnText(d, s.turn.i + 1) && f.stateId == JStr("state_" + d + "_forfeit"))
      && f.activePlayer == s.activePlayer && f.privateState == s.privateState && f.rng == s.rng
      && f.renderHints == s.renderHints
      && f.metadata == JObj(s.metadata.fields[ForfeitedPlayer := JStr(player)])
      && f.legalActions.JObj? && f.legalActions.fields.Keys == s.legalActions.fields.Keys
      && (forall k | k in f.legalActions.fields :: f.legalActions.fields[k] == JList([]))
      && f.scores.JObj? && ScoresRight(arena, s, Name(player), f.scores.fields)
      && f.outcome.JObj? && OutcomeRight(arena, s, player, reason, f.outcome.fields)
      && IsWinner(arena, s, Name(player), f.outcome.fields[Winner])
      && f.publicState.JObj?
      && PublicRight(s.publicState.fields, f.publicState.fields, f.outcome.fields[Winner], f.scores)
  {
    hide M.ForfeitScores, M.ForfeitOutcome, M.ForfeitPublic, M.ForfeitWinner, M.WinnerJson, M.Pad6,
         ScoresRight, IsWinner, PublicRight, L.IsTurnText;
    L.PadIsTurnText(s.turn.i + 1);
    WinnerIsRight(arena, s, Name(player));
    ScoresAreRight(arena, s, Name(player));
    OutcomeIsRight(arena, s, player, reason);
    PublicIsRight(arena, s, Name(player));
  }
}
