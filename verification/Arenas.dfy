/**
 Arena states and the arena interface.
 The rules of a concrete arena are arbitrary functions; what the abstract base
 class computes itself (legality, failure action, reveal turn) is written out.
 */
module Arenas {
  import opened Options
  import opened Json

  /** The canonical state; every field holds whatever JSON the payload carried. */
  datatype State = State(
    stateId: Json, turn: Json, activePlayer: Json, publicState: Json, privateState: Json,
    legalActions: Json, scores: Json, terminal: Json, outcome: Json, rng: Json,
    renderHints: Json, metadata: Json)

  /** sha256 over the canonical JSON of the state fields: any function of the fields. */
  type StateHasher = State -> string

  /** Two given states are told apart by their digests. */
  predicate NoCollision(hash: StateHasher, s: State, t: State) {
    hash(s) == hash(t) ==> s == t
  }

  /** A digest is never the empty string. */
  ghost predicate NonEmpty(hash: StateHasher) {
    forall s :: hash(s) != ""
  }

  /** What the constructor insists on. */
  predicate Constructible(s: State) {
    Num(s.turn).Some? && Num(s.turn).value >= 0.0 && Truthy(s.stateId) && Truthy(s.activePlayer)
  }

  const STATE_FIELDS: set<Key> :=
    {StateId, StateHash, Turn, ActivePlayer, PublicState, PrivateState, LegalActions, Scores,
     Terminal, Outcome, RngCommitment, RenderHints, Metadata}

  function FieldValue(hash: StateHasher, s: State, k: Key): Json {
    match k
    case StateId => s.stateId
    case StateHash => JStr(hash(s))
    case Turn => s.turn
    case ActivePlayer => s.activePlayer
    case PublicState => s.publicState
    case PrivateState => s.privateState
    case LegalActions => s.legalActions
    case Scores => s.scores
    case Terminal => s.terminal
    case Outcome => s.outcome
    case RngCommitment => s.rng
    case RenderHints => s.renderHints
    case Metadata => s.metadata
    case _ => JNull
  }

  /** `to_dict`, which carries the digest beside the fields it covers. */
  function ToObject(hash: StateHasher, s: State): Object {
    map k | k in STATE_FIELDS :: FieldValue(hash, s, k)
  }

  function ToJson(hash: StateHasher, s: State): Json {
    JObj(ToObject(hash, s))
  }

  function FieldsOf(m: Object): State {
    State(Get(m, StateId), Get(m, Turn), Get(m, ActivePlayer), Get(m, PublicState),
          Get(m, PrivateState), Get(m, LegalActions), Get(m, Scores), Get(m, Terminal),
          Get(m, Outcome), Get(m, RngCommitment), Get(m, RenderHints),
          if Metadata in m then m[Metadata] else JObj(map[]))
  }

  const REQUIRED_FIELDS: set<Key> :=
    {StateId, Turn, ActivePlayer, PublicState, PrivateState, LegalActions, Scores, Terminal,
     Outcome, RngCommitment, RenderHints}

  /** `_arena_state_from_payload`: None stands for every error it reports. */
  function FromPayload(hash: StateHasher, payload: Json): Option<State> {
    match payload
    case JObj(m) =>
      var s := FieldsOf(m);
      if REQUIRED_FIELDS <= m.Keys && Constructible(s)
         && (Truthy(Get(m, StateHash)) ==> Get(m, StateHash) == JStr(hash(s)))
      then Some(s) else None
    case _ => None
  }

  lemma ObjectFieldsRoundTrip(hash: StateHasher, s: State)
    ensures FieldsOf(ToObject(hash, s)) == s
    ensures Get(ToObject(hash, s), StateHash) == JStr(hash(s))
    ensures REQUIRED_FIELDS <= ToObject(hash, s).Keys
  {
  }

  /** Serialising and parsing a state gives it back; distinct states serialise differently. */
  lemma StateRoundTrip(hash: StateHasher, s: State)
    requires Constructible(s)
    ensures FromPayload(hash, ToJson(hash, s)) == Some(s)
  {
    ObjectFieldsRoundTrip(hash, s);
  }

  lemma ToJsonInjective(hash: StateHasher, s: State, t: State)
    requires ToJson(hash, s) == ToJson(hash, t)
    ensures s == t
  {
    ObjectFieldsRoundTrip(hash, s);
    ObjectFieldsRoundTrip(hash, t);
  }

  predicate TimingFree(s: State) {
    NoTiming(s.stateId) && NoTiming(s.turn) && NoTiming(s.activePlayer) && NoTiming(s.publicState)
    && NoTiming(s.privateState) && NoTiming(s.legalActions) && NoTiming(s.scores)
    && NoTiming(s.terminal) && NoTiming(s.outcome) && NoTiming(s.rng) && NoTiming(s.renderHints)
    && NoTiming(s.metadata)
  }

  lemma FieldTimingFree(hash: StateHasher, s: State, k: Key)
    requires TimingFree(s) && k in STATE_FIELDS
    ensures NoTiming(FieldValue(hash, s, k)) && !IsTiming(k)
  {
    assert NoTiming(JStr(hash(s)));
  }

  /** A state survives the artifact writer unchanged when none of its fields uses a timing key. */
  lemma TimingFreeStateIsWrittenUnchanged(hash: StateHasher, s: State)
    requires TimingFree(s)
    ensures Canon(ToJson(hash, s)) == ToJson(hash, s)
  {
    hide TimingFree, FieldValue, STATE_FIELDS, IsTiming;
    var m := ToObject(hash, s);
    forall k | k in m ensures !IsTiming(k) && NoTiming(m[k]) {
      FieldTimingFree(hash, s, k);
    }
    assert NoTiming(JObj(m));
    CanonKeepsExactlyTimingFree(JObj(m));
  }

  /** The state whose every field went through the artifact writer. */
  function Cleaned(s: State): State {
    State(Canon(s.stateId), Canon(s.turn), Canon(s.activePlayer), Canon(s.publicState),
          Canon(s.privateState), Canon(s.legalActions), Canon(s.scores), Canon(s.terminal),
          Canon(s.outcome), Canon(s.rng), Canon(s.renderHints), Canon(s.metadata))
  }

  lemma CleanedExactlyWhenTimingFree(s: State)
    ensures Cleaned(s) == s <==> TimingFree(s)
  {
    CanonKeepsExactlyTimingFree(s.stateId);
    CanonKeepsExactlyTimingFree(s.turn);
    CanonKeepsExactlyTimingFree(s.activePlayer);
    CanonKeepsExactlyTimingFree(s.publicState);
    CanonKeepsExactlyTimingFree(s.privateState);
    CanonKeepsExactlyTimingFree(s.legalActions);
    CanonKeepsExactlyTimingFree(s.scores);
    CanonKeepsExactlyTimingFree(s.terminal);
    CanonKeepsExactlyTimingFree(s.outcome);
    CanonKeepsExactlyTimingFree(s.rng);
    CanonKeepsExactlyTimingFree(s.renderHints);
    CanonKeepsExactlyTimingFree(s.metadata);
  }

  lemma WrittenField(hash: StateHasher, s: State, k: Key)
    requires k in STATE_FIELDS
    ensures Canon(ToJson(hash, s)).JObj? && k in Canon(ToJson(hash, s)).fields
    ensures Canon(ToJson(hash, s)).fields[k] == Canon(FieldValue(hash, s, k))
  {
    assert k in ToObject(hash, s) && !IsTiming(k);
  }

  lemma WrittenIdentity(hash: StateHasher, s: State, m: Object)
    requires Canon(ToJson(hash, s)) == JObj(m)
    ensures var t := FieldsOf(m);
            t.stateId == Canon(s.stateId) && t.turn == Canon(s.turn)
            && t.activePlayer == Canon(s.activePlayer) && t.publicState == Canon(s.publicState)
    ensures Get(m, StateHash) == JStr(hash(s))
  {
    WrittenField(hash, s, StateId);
    WrittenField(hash, s, StateHash);
    WrittenField(hash, s, Turn);
    WrittenField(hash, s, ActivePlayer);
    WrittenField(hash, s, PublicState);
  }

  lemma WrittenSeats(hash: StateHasher, s: State, m: Object)
    requires Canon(ToJson(hash, s)) == JObj(m)
    ensures var t := FieldsOf(m);
            t.privateState == Canon(s.privateState) && t.legalActions == Canon(s.legalActions)
            && t.scores == Canon(s.scores) && t.terminal == Canon(s.terminal)
  {
    WrittenField(hash, s, PrivateState);
    WrittenField(hash, s, LegalActions);
    WrittenField(hash, s, Scores);
    WrittenField(hash, s, Terminal);
  }

  lemma WrittenRest(hash: StateHasher, s: State, m: Object)
    requires Canon(ToJson(hash, s)) == JObj(m)
    ensures var t := FieldsOf(m);
            t.outcome == Canon(s.outcome) && t.rng == Canon(s.rng)
            && t.renderHints == Canon(s.renderHints) && t.metadata == Canon(s.metadata)
  {
    WrittenField(hash, s, Outcome);
    WrittenField(hash, s, RngCommitment);
    WrittenField(hash, s, RenderHints);
    WrittenField(hash, s, Metadata);
  }

  /**
   A state written to the auditor trace can be read back exactly when no field
   uses a timing key at any depth: otherwise the cleaned payload no longer
   matches the digest stored beside it, and the validator reports a bad state.
   */
  lemma StateSurvivesExactlyWhenTimingFree(hash: StateHasher, s: State)
    requires NoCollision(hash, Cleaned(s), s) && NonEmpty(hash) && Constructible(s)
    ensures FromPayload(hash, Canon(ToJson(hash, s)))
            == if TimingFree(s) then Some(s) else None
  {
    hide TimingFree, Canon, NoTiming, ToObject, ToJson, FieldsOf, Constructible, Cleaned;
    CleanedExactlyWhenTimingFree(s);
    if TimingFree(s) {
      TimingFreeStateIsWrittenUnchanged(hash, s);
      StateRoundTrip(hash, s);
    } else {
      var m := WrittenIsCleaned(hash, s);
      assert hash(Cleaned(s)) != hash(s);
    }
  }

  /** What is written is the cleaned state under the digest of the original one. */
  lemma WrittenIsCleaned(hash: StateHasher, s: State) returns (m: Object)
    ensures Canon(ToJson(hash, s)) == JObj(m)
    ensures FieldsOf(m) == Cleaned(s) && Get(m, StateHash) == JStr(hash(s))
  {
    m := Canon(ToJson(hash, s)).fields;
    WrittenIdentity(hash, s, m);
    WrittenSeats(hash, s, m);
    WrittenRest(hash, s, m);

  }

  /**
   One arena. `apply` is None where the source raises. `listOf` is Python's
   `list(value)`, needed only because a payload may hold a non-list there.
   `pendingKey` is the private field a sealed arena commits moves in, and
   `seatOrder` the iteration order of a state's score object.
   */
  datatype Arena = Arena(
    id: string, players: set<string>, pendingKey: Option<Key>,
    initial: int -> State,
    apply: (State, Json, Json) -> Option<State>,
    listOf: Json -> Option<seq<Json>>,
    seatOrder: State -> seq<Key>)

  /** The JSON object key a player id is used as. */
  function Seat(player: Json): Key {
    match player case JStr(p) => Name(p) case _ => Name("")
  }

  /** `legal_actions_for`; None where it raises. Only a string can be a key of decoded JSON. */
  function Legal(arena: Arena, s: State, player: Json): Option<seq<Json>> {
    if !s.legalActions.JObj? || player.JList? || player.JObj? then None
    else if player.JStr? && Seat(player) in s.legalActions.fields
    then arena.listOf(s.legalActions.fields[Seat(player)])
    else Some([])
  }

  /** `is_legal` over an already fetched list. */
  predicate IsLegal(legal: seq<Json>, action: Json) {
    exists i | 0 <= i < |legal| :: SameJson(action, legal[i])
  }

  lemma LegalIsMembership(legal: seq<Json>, action: Json)
    ensures IsLegal(legal, action) <==> action in legal
  {
    forall i | 0 <= i < |legal| ensures SameJson(action, legal[i]) <==> action == legal[i] {
      SameJsonIsIdentity(action, legal[i]);
    }
  }

  /** `failure_action`: resignation if offered, else the first legal action, else nothing. */
  function FailureAction(legal: seq<Json>): Json {
    if JStr("resign") in legal then JStr("resign") else if legal != [] then legal[0] else JNull
  }

  lemma FailureActionIsLegalOrNull(legal: seq<Json>)
    ensures FailureAction(legal) != JNull ==> IsLegal(legal, FailureAction(legal))
    ensures legal == [] ==> FailureAction(legal) == JNull
  {
    LegalIsMembership(legal, FailureAction(legal));
  }

  /** Some seat still holds a sealed commitment in this state. */
  predicate Pending(arena: Arena, s: State) {
    arena.pendingKey.Some? && s.privateState.JObj?
    && exists p | p in s.privateState.fields ::
         s.privateState.fields[p].JObj?
         && Get(s.privateState.fields[p].fields, arena.pendingKey.value) != JNull
  }

  /** `public_action`: a sealed move is withheld from public evidence. */
  function PublicAction(arena: Arena, after: State, action: Json): Json {
    if Pending(arena, after) then JNull else action
  }

  /** The shape every state built by arena code has. */
  predicate WellTyped(arena: Arena, s: State) {
    && s.turn.JInt? && s.turn.i >= 0
    && Truthy(s.stateId)
    && s.activePlayer.JStr? && s.activePlayer.s in arena.players && s.activePlayer.s != ""
    && s.publicState.JObj? && s.privateState.JObj? && s.legalActions.JObj? && s.scores.JObj?
    && s.terminal.JBool? && (s.outcome.JNull? || s.outcome.JObj?) && s.metadata.JObj?
    && (forall k | k in s.scores.fields :: Num(s.scores.fields[k]).Some?)
    && (forall k | k in s.legalActions.fields :: s.legalActions.fields[k].JList?)
  }

  /** No two legal actions that Python's `==` would take for one another. */
  predicate Unconfused(legal: seq<Json>) {
    forall i, j | 0 <= i < |legal| && 0 <= j < |legal| && PyEq(legal[i], legal[j]) ::
      legal[i] == legal[j]
  }

  /** What the runner relies on about a state an arena hands out. */
  ghost predicate GoodState(arena: Arena, s: State) {
    && WellTyped(arena, s)
    && TimingFree(s)
    && (s.terminal == JBool(false) ==> s.outcome == JNull)
    && (forall k | k in s.legalActions.fields :: Unconfused(s.legalActions.fields[k].items))
  }

  /** The legal list the runner sees: in a well-typed state it is always a list. */
  function LegalList(arena: Arena, s: State): seq<Json> {
    var legal := Legal(arena, s, s.activePlayer);
    if legal.Some? then legal.value else []
  }

  predicate NoDuplicates<T(==)>(xs: seq<T>) {
    forall i, j | 0 <= i < j < |xs| :: xs[i] != xs[j]
  }

  /** The arena contract: good states stay good, and a move that applies advances the turn by one. */
  ghost predicate Contract(arena: Arena) {
    && (forall seed :: GoodState(arena, arena.initial(seed)))
    && (forall xs :: arena.listOf(JList(xs)) == Some(xs))
    && (forall s, p, a :: GoodState(arena, s) && arena.apply(s, p, a).Some? ==>
          GoodState(arena, arena.apply(s, p, a).value)
          && arena.apply(s, p, a).value.turn == JInt(s.turn.i + 1))
  }

  /** In a good state legality is defined, timing-free and never confuses two actions. */
  lemma GoodLegalList(arena: Arena, s: State)
    requires GoodState(arena, s) && Contract(arena)
    ensures Legal(arena, s, s.activePlayer) == Some(LegalList(arena, s))
    ensures Unconfused(LegalList(arena, s))
    ensures forall a | a in LegalList(arena, s) :: NoTiming(a)
  {
    var seat := Seat(s.activePlayer);
    if seat in s.legalActions.fields {
      var xs := s.legalActions.fields[seat].items;
      assert s.legalActions.fields[seat] == JList(xs);
      assert NoTiming(s.legalActions.fields[seat]);
      assert LegalList(arena, s) == xs;
    }
  }
}
