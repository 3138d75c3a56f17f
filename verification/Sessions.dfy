/** Interactive sessions: `step_session` as a stuttering run of the arena, and its agreement with `core_step`. */
module Sessions {
  import opened Options
  import opened Json
  import opened Arenas

  // ---- tokens and actions ----

  /** The stable token of an action; `canon` is canonical JSON text. */
  function ActionToken(canon: Json -> string, action: Json): string {
    if action.JStr? then action.s else canon(action)
  }

  /** `dict(_token_pairs(legal)).get(token)`: of two actions with one token the later wins. */
  function Denoted(canon: Json -> string, legal: seq<Json>, token: string): Option<Json> {
    if legal == [] then None
    else if ActionToken(canon, legal[|legal| - 1]) == token then Some(legal[|legal| - 1])
    else Denoted(canon, legal[..|legal| - 1], token)
  }

  predicate IsToken(canon: Json -> string, legal: seq<Json>, token: string) {
    exists i | 0 <= i < |legal| :: ActionToken(canon, legal[i]) == token
  }

  predicate IsLastWith(canon: Json -> string, legal: seq<Json>, token: string, i: nat)
    requires i < |legal|
  {
    ActionToken(canon, legal[i]) == token && forall j | i < j < |legal| :: ActionToken(canon, legal[j]) != token
  }

  lemma {:induction false} DenotedIsTheLastWithTheToken(canon: Json -> string, legal: seq<Json>, token: string)
    ensures Denoted(canon, legal, token).Some? <==> IsToken(canon, legal, token)
    ensures Denoted(canon, legal, token).Some? ==>
              exists i: nat | i < |legal| ::
                IsLastWith(canon, legal, token, i) && legal[i] == Denoted(canon, legal, token).value
  {
    hide ActionToken, IsLastWith;
    if legal != [] {
      var last := |legal| - 1;
      var before := legal[..last];
      DenotedIsTheLastWithTheToken(canon, before, token);
      if ActionToken(canon, legal[last]) == token {
        LastIsLastWith(canon, legal, token);
      } else {
        if IsToken(canon, legal, token) {
          var i :| 0 <= i < |legal| && ActionToken(canon, legal[i]) == token;
          assert ActionToken(canon, before[i]) == token;
        }
        if IsToken(canon, before, token) {
          var i :| 0 <= i < |before| && IsLastWith(canon, before, token, i) && before[i] == Denoted(canon, before, token).value;
          LastWithStays(canon, before, legal[last], token, i);
          assert legal == before + [legal[last]] && legal[i] == before[i];
        }
      }
    }
  }

  lemma LastIsLastWith(canon: Json -> string, legal: seq<Json>, token: string)
    requires legal != [] && ActionToken(canon, legal[|legal| - 1]) == token
    ensures IsLastWith(canon, legal, token, |legal| - 1)
  {
  }

  lemma LastWithStays(canon: Json -> string, before: seq<Json>, action: Json, token: string, i: nat)
    requires i < |before| && IsLastWith(canon, before, token, i) && ActionToken(canon, action) != token
    ensures IsLastWith(canon, before + [action], token, i)
  {
    hide ActionToken;
  }

  // ---- one session step ----

  datatype Verdict = Accepted(action: Json) | TerminalState | WrongActor | IllegalAction | TransitionError | Raised

  function Session(s: State): Json {
    if s.metadata.JObj? then Get(s.metadata.fields, SessionKey) else JNull
  }

  function Reattach(s: State, session: Json): State {
    if s.metadata.JObj? then s.(metadata := JObj(s.metadata.fields[SessionKey := session])) else s
  }

  /** A call on a valid envelope: the state it carries, and the player and token of the caller. */
  datatype Call = Call(player: string, token: string)

  function StepSession(arena: Arena, canon: Json -> string, s: State, c: Call): (State, Verdict) {
    if Truthy(s.terminal) then (s, TerminalState)
    else if JStr(c.player) != s.activePlayer then (s, WrongActor)
    else
      var legal := Legal(arena, s, JStr(c.player));
      if legal == None then (s, Raised)
      else
        var action := Denoted(canon, legal.value, c.token);
        if action == None || action.value == JNull then (s, IllegalAction)
        else
          var next := arena.apply(s, JStr(c.player), action.value);
          if next == None then (s, TransitionError)
          else (Reattach(next.value, Session(s)), Accepted(action.value))
  }

  // ---- whole sessions ----

  function RunSession(arena: Arena, canon: Json -> string, s: State, calls: seq<Call>): State
    decreases |calls|
  {
    if calls == [] then s
    else RunSession(arena, canon, StepSession(arena, canon, s, calls[0]).0, calls[1..])
  }

  /** The actions a session accepts, in order. */
  function AcceptedActions(arena: Arena, canon: Json -> string, s: State, calls: seq<Call>): seq<Json>
    decreases |calls|
  {
    if calls == [] then []
    else
      var (next, verdict) := StepSession(arena, canon, s, calls[0]);
      (if verdict.Accepted? then [verdict.action] else []) + AcceptedActions(arena, canon, next, calls[1..])
  }

  /** Playing actions on the arena itself, each by the player whose turn it is. */
  function Play(arena: Arena, s: State, actions: seq<Json>): Option<State>
    decreases |actions|
  {
    if actions == [] then Some(s)
    else
      var next := arena.apply(s, s.activePlayer, actions[0]);
      if next == None then None else Play(arena, Reattach(next.value, Session(s)), actions[1..])
  }

  predicate LegalFor(arena: Arena, s: State, action: Json) {
    action != JNull && !Truthy(s.terminal) &&
    Legal(arena, s, s.activePlayer).Some? && IsLegal(Legal(arena, s, s.activePlayer).value, action)
  }

  predicate AllLegal(arena: Arena, s: State, actions: seq<Json>)
    decreases |actions|
  {
    actions == [] ||
    (LegalFor(arena, s, actions[0]) &&
     var next := arena.apply(s, s.activePlayer, actions[0]);
     next.Some? && AllLegal(arena, Reattach(next.value, Session(s)), actions[1..]))
  }

  lemma StepIsLegalOrStutters(arena: Arena, canon: Json -> string, s: State, c: Call)
    ensures var (next, verdict) := StepSession(arena, canon, s, c);
            if verdict.Accepted?
            then LegalFor(arena, s, verdict.action) &&
                 arena.apply(s, s.activePlayer, verdict.action).Some? &&
                 next == Reattach(arena.apply(s, s.activePlayer, verdict.action).value, Session(s))
            else next == s
  {
    var legal := Legal(arena, s, JStr(c.player));
    if legal.Some? {
      DenotedIsTheLastWithTheToken(canon, legal.value, c.token);
      var action := Denoted(canon, legal.value, c.token);
      if action.Some? { LegalIsMembership(legal.value, action.value); }
    }
  }

  /** A session's state is the arena played with the accepted actions, each of them legal when it was made. */
  lemma {:induction false} SessionIsAnArenaRun(arena: Arena, canon: Json -> string, s: State, calls: seq<Call>)
    ensures var actions := AcceptedActions(arena, canon, s, calls);
            AllLegal(arena, s, actions) && Play(arena, s, actions) == Some(RunSession(arena, canon, s, calls))
    decreases |calls|
  {
    if calls != [] {
      StepIsLegalOrStutters(arena, canon, s, calls[0]);
      var (next, verdict) := StepSession(arena, canon, s, calls[0]);
      SessionIsAnArenaRun(arena, canon, next, calls[1..]);
      var rest := AcceptedActions(arena, canon, next, calls[1..]);
      if verdict.Accepted? { assert ([verdict.action] + rest)[1..] == rest; }
      assert [] + rest == rest;
    }
  }

  /** A terminal session never moves again. */
  lemma {:induction false} TerminalIsAbsorbing(arena: Arena, canon: Json -> string, s: State, calls: seq<Call>)
    requires Truthy(s.terminal)
    ensures RunSession(arena, canon, s, calls) == s && AcceptedActions(arena, canon, s, calls) == []
  {
    if calls != [] { TerminalIsAbsorbing(arena, canon, s, calls[1..]); }
  }

  /** What a session relies on: an arena keeps states well typed and advances the turn by one. */
  ghost predicate Typed(arena: Arena) {
    (forall s, p, a :: WellTyped(arena, s) && arena.apply(s, p, a).Some? ==>
       WellTyped(arena, arena.apply(s, p, a).value) && arena.apply(s, p, a).value.turn == JInt(s.turn.i + 1)) &&
    (forall xs :: arena.listOf(JList(xs)) == Some(xs))
  }

  lemma WellTypedStep(arena: Arena, canon: Json -> string, s: State, c: Call)
    requires Typed(arena) && WellTyped(arena, s) && Session(s) != JNull
    ensures var (next, verdict) := StepSession(arena, canon, s, c);
            WellTyped(arena, next) && Session(next) == Session(s) && !verdict.Raised? &&
            next.turn == JInt(s.turn.i + if verdict.Accepted? then 1 else 0)
  {
    StepIsLegalOrStutters(arena, canon, s, c);
    var (next, verdict) := StepSession(arena, canon, s, c);
    if verdict.Accepted? {
      var moved := arena.apply(s, s.activePlayer, verdict.action).value;
      assert WellTyped(arena, moved) && next == Reattach(moved, Session(s));
    }
    if s.legalActions.JObj? && Seat(JStr(c.player)) in s.legalActions.fields {
      var list := s.legalActions.fields[Seat(JStr(c.player))];
      assert list.JList? && arena.listOf(JList(list.items)) == Some(list.items);
    }
  }

  /** Whatever is called, the session record stays attached and the turn counts the accepted actions. */
  lemma {:induction false} SessionKeepsItsRecord(arena: Arena, canon: Json -> string, s: State, calls: seq<Call>)
    requires Typed(arena) && WellTyped(arena, s) && Session(s) != JNull
    ensures var final := RunSession(arena, canon, s, calls);
            WellTyped(arena, final) && Session(final) == Session(s) &&
            final.turn == JInt(s.turn.i + |AcceptedActions(arena, canon, s, calls)|)
    decreases |calls|
  {
    if calls != [] {
      WellTypedStep(arena, canon, s, calls[0]);
      SessionKeepsItsRecord(arena, canon, StepSession(arena, canon, s, calls[0]).0, calls[1..]);
    }
  }

  // ---- agreement with core_step ----

  function FirstEqual(value: Json, legal: seq<Json>): Option<Json> {
    if legal == [] then None
    else if SameJson(value, legal[0]) then Some(legal[0])
    else FirstEqual(value, legal[1..])
  }

  /** `coerce_action`: a token first, then the first equal action; `None` is `InvalidModelAction`. */
  function CoerceAction(canon: Json -> string, value: Json, legal: seq<Json>): Option<Json> {
    if value.JStr? && Denoted(canon, legal, value.s).Some? then Denoted(canon, legal, value.s)
    else FirstEqual(value, legal)
  }

  function OrElse(a: Json, b: Json): Json { if Truthy(a) then a else b }

  function ResolveCoreAction(canon: Json -> string, action: Json, legal: seq<Json>): Option<Json> {
    if action.JObj? then
      var id := OrElse(Get(action.fields, ActionId), OrElse(Get(action.fields, SnakeActionId), Get(action.fields, Token)));
      if id.JStr? then CoerceAction(canon, id, legal)
      else if Payload in action.fields then CoerceAction(canon, action.fields[Payload], legal)
      else if Compact in action.fields then CoerceAction(canon, action.fields[Compact], legal)
      else CoerceAction(canon, action, legal)
    else CoerceAction(canon, action, legal)
  }

  /** The transition part of `core_step`; an empty or absent actor stands for the active player. */
  function CoreStep(arena: Arena, canon: Json -> string, s: State, actor: Option<string>, action: Json): Option<State> {
    var player := if actor == None || actor.value == "" then s.activePlayer else JStr(actor.value);
    if Truthy(s.terminal) || player != s.activePlayer then None
    else
      var legal := Legal(arena, s, player);
      if legal == None then None
      else
        var raw := ResolveCoreAction(canon, action, legal.value);
        if raw == None then None else arena.apply(s, player, raw.value)
  }

  lemma {:induction false} FirstEqualIsMembership(value: Json, legal: seq<Json>)
    ensures FirstEqual(value, legal) == if value in legal then Some(value) else None
  {
    if legal != [] {
      SameJsonIsIdentity(value, legal[0]);
      FirstEqualIsMembership(value, legal[1..]);
      assert legal == [legal[0]] + legal[1..];
    }
  }

  /** An answer is coerced exactly when it is the token of a legal action or equal to one, and only to a legal action. */
  lemma CoercedExactlyWhenLegal(canon: Json -> string, value: Json, legal: seq<Json>)
    ensures CoerceAction(canon, value, legal).Some? <==> (value.JStr? && IsToken(canon, legal, value.s)) || value in legal
    ensures CoerceAction(canon, value, legal).Some? ==> CoerceAction(canon, value, legal).value in legal
  {
    FirstEqualIsMembership(value, legal);
    if value.JStr? {
      DenotedIsTheLastWithTheToken(canon, legal, value.s);
    }
  }

  function TokenRequest(token: string): Json {
    JObj(map[ActionId := JStr(token)])
  }

  /** A token reaches `core_step` as a bare string or as an action id. */
  function CoreRequest(token: string, bare: bool): Json {
    if bare then JStr(token) else TokenRequest(token)
  }

  /** What the token request leads to: an empty action id is skipped, and the request itself is looked up. */
  function CoreAction(canon: Json -> string, legal: seq<Json>, token: string, bare: bool): Option<Json> {
    if token == "" && !bare then (if TokenRequest("") in legal then Some(TokenRequest("")) else None)
    else Denoted(canon, legal, token)
  }

  lemma CoreRequestResolves(canon: Json -> string, token: string, bare: bool, legal: seq<Json>)
    ensures ResolveCoreAction(canon, CoreRequest(token, bare), legal) == CoreAction(canon, legal, token, bare)
  {
    FirstEqualIsMembership(JStr(token), legal);
    FirstEqualIsMembership(TokenRequest(token), legal);
    DenotedIsTheLastWithTheToken(canon, legal, token);
    if JStr(token) in legal {
      var i :| 0 <= i < |legal| && legal[i] == JStr(token);
      assert ActionToken(canon, legal[i]) == token;
    }
    var fields := TokenRequest(token).fields;
    assert Get(fields, ActionId) == JStr(token) && Get(fields, SnakeActionId) == JNull && Get(fields, Token) == JNull;
    assert Payload !in fields && Compact !in fields;
    hide Denoted, FirstEqual;
  }

  predicate SameButForSession(a: State, b: State) {
    a.metadata.JObj? && b.metadata.JObj? &&
    a.metadata.fields - {SessionKey} == b.metadata.fields - {SessionKey} &&
    a.(metadata := JNull) == b.(metadata := JNull)
  }

  /** Both entry points take the call, or neither, and then their next states differ at most in the session record. */
  predicate Agree(arena: Arena, canon: Json -> string, s: State, c: Call, bare: bool) {
    var (next, verdict) := StepSession(arena, canon, s, c);
    var core := CoreStep(arena, canon, s, Some(c.player), CoreRequest(c.token, bare));
    (verdict.Accepted? <==> core.Some?) && (core.Some? ==> SameButForSession(next, core.value))
  }

  /** The arena applies this action of the player to move. */
  predicate Takes(arena: Arena, s: State, action: Option<Json>) {
    action.Some? && arena.apply(s, s.activePlayer, action.value).Some?
  }

  /** What a session plays for a token: a null action counts as none. */
  function SessionAction(canon: Json -> string, legal: seq<Json>, token: string): Option<Json> {
    var action := Denoted(canon, legal, token);
    if action == Some(JNull) then None else action
  }

  /** Playing the one action or the other is not the same. */
  predicate Differ(arena: Arena, s: State, a: Option<Json>, b: Option<Json>) {
    Takes(arena, s, a) != Takes(arena, s, b) ||
    (Takes(arena, s, a) &&
     !SameButForSession(arena.apply(s, s.activePlayer, a.value).value, arena.apply(s, s.activePlayer, b.value).value))
  }

  /**
   * The calls the two entry points treat differently, in a state that is not terminal. An empty player
   * stands for the active one in `core_step` alone. An empty action id is a token to a session, but leads
   * `core_step` to the action `{actionId: ""}`. Any other token must denote a null action, which
   * `core_step` alone would play.
   */
  predicate Splits(arena: Arena, canon: Json -> string, s: State, c: Call, bare: bool) {
    var legal := LegalList(arena, s);
    !Truthy(s.terminal) &&
    if c.player == "" then Takes(arena, s, CoreAction(canon, legal, c.token, bare))
    else
      JStr(c.player) == s.activePlayer &&
      if c.token == "" && !bare
      then Differ(arena, s, SessionAction(canon, legal, ""), CoreAction(canon, legal, "", false))
      else Denoted(canon, legal, c.token) == Some(JNull) && Takes(arena, s, Some(JNull))
  }

  lemma WellTypedLegal(arena: Arena, s: State)
    requires Typed(arena) && WellTyped(arena, s)
    ensures Legal(arena, s, s.activePlayer) == Some(LegalList(arena, s))
  {
    var seat := Seat(s.activePlayer);
    if seat in s.legalActions.fields {
      var list := s.legalActions.fields[seat];
      assert list == JList(list.items) && arena.listOf(JList(list.items)) == Some(list.items);
    }
  }

  lemma ReattachIsInvisible(arena: Arena, s: State, a: Json, b: Json)
    requires Typed(arena) && WellTyped(arena, s)
    requires Takes(arena, s, Some(a)) && Takes(arena, s, Some(b))
    ensures var x := arena.apply(s, s.activePlayer, a).value;
            var y := arena.apply(s, s.activePlayer, b).value;
            (SameButForSession(Reattach(x, Session(s)), y) <==> SameButForSession(x, y)) &&
            (a == b ==> SameButForSession(x, y))
  {
    var x := arena.apply(s, s.activePlayer, a).value;
    assert WellTyped(arena, x);
    assert Reattach(x, Session(s)).metadata.fields - {SessionKey} == x.metadata.fields - {SessionKey};
  }

  /** For every player, token and form of the request the two entry points agree exactly unless the call splits them. */
  lemma SessionAgreesWithCore(arena: Arena, canon: Json -> string, s: State, c: Call, bare: bool)
    requires Typed(arena) && WellTyped(arena, s)
    ensures Agree(arena, canon, s, c, bare) <==> !Splits(arena, canon, s, c, bare)
  {
    hide ResolveCoreAction, Denoted, Legal, LegalList, SameButForSession, Typed, CoreAction;
    var legal := LegalList(arena, s);
    WellTypedLegal(arena, s);
    CoreRequestResolves(canon, c.token, bare, legal);
    BothLookups(canon, legal, c.token, bare);
    var a, b := SessionAction(canon, legal, c.token), CoreAction(canon, legal, c.token, bare);
    if Takes(arena, s, a) && Takes(arena, s, b) {
      ReattachIsInvisible(arena, s, a.value, b.value);
    }
  }

  /** But for an empty action id both sides look the token up in the same table. */
  lemma BothLookups(canon: Json -> string, legal: seq<Json>, token: string, bare: bool)
    ensures token != "" || bare ==> CoreAction(canon, legal, token, bare) == Denoted(canon, legal, token)
  {
  }

  // ---- each entry point, written out ----

  /** The last legal action that carries the token. */
  ghost predicate LastWithToken(canon: Json -> string, legal: seq<Json>, token: string, action: Json) {
    exists i: nat | i < |legal| :: IsLastWith(canon, legal, token, i) && legal[i] == action
  }

  lemma DenotedExactly(canon: Json -> string, legal: seq<Json>, token: string, action: Json)
    ensures Denoted(canon, legal, token) == Some(action) <==> LastWithToken(canon, legal, token, action)
  {
    hide ActionToken;
    DenotedIsTheLastWithTheToken(canon, legal, token);
    if LastWithToken(canon, legal, token, action) {
      var i: nat :| i < |legal| && IsLastWith(canon, legal, token, i) && legal[i] == action;
      assert IsToken(canon, legal, token);
      var j: nat :| j < |legal| && IsLastWith(canon, legal, token, j)
                    && legal[j] == Denoted(canon, legal, token).value;
    }
  }

  /** The legal actions listed for a player, as the arena reads them. */
  predicate Listed(arena: Arena, s: State, player: string, legal: seq<Json>) {
    s.legalActions.JObj? &&
    if Name(player) in s.legalActions.fields
    then arena.listOf(s.legalActions.fields[Name(player)]) == Some(legal)
    else legal == []
  }

  /**
   A session plays an action exactly when its game is open, the caller is the player to move, and the
   action is the last listed one with the caller's token, not null, and one the arena applies.
   */
  lemma SessionPlaysExactly(arena: Arena, canon: Json -> string, s: State, c: Call, action: Json)
    ensures var verdict := StepSession(arena, canon, s, c).1;
            && (verdict == Accepted(action) <==>
                  !Truthy(s.terminal) && s.activePlayer == JStr(c.player)
                  && (exists legal :: Listed(arena, s, c.player, legal) && LastWithToken(canon, legal, c.token, action))
                  && action != JNull && arena.apply(s, JStr(c.player), action).Some?)
            && (verdict == TerminalState <==> Truthy(s.terminal))
            && (verdict == WrongActor <==> !Truthy(s.terminal) && s.activePlayer != JStr(c.player))
            && (verdict == TransitionError ==>
                  exists legal, refused :: Listed(arena, s, c.player, legal)
                    && LastWithToken(canon, legal, c.token, refused)
                    && arena.apply(s, JStr(c.player), refused).None?)
  {
    hide Denoted, LastWithToken;
    var legal := Legal(arena, s, JStr(c.player));
    if legal.Some? {
      DenotedExactly(canon, legal.value, c.token, action);
      var found := Denoted(canon, legal.value, c.token);
      if found.Some? { DenotedExactly(canon, legal.value, c.token, found.value); }
      assert forall other :: Listed(arena, s, c.player, other) <==> other == legal.value;
    } else {
      assert forall other :: !Listed(arena, s, c.player, other);
    }
  }

  /** What a requested value means: the action of its token, else a listed action equal to it. */
  ghost predicate Means(canon: Json -> string, legal: seq<Json>, value: Json, action: Json) {
    (value.JStr? && LastWithToken(canon, legal, value.s, action))
    || (!(value.JStr? && IsToken(canon, legal, value.s)) && value in legal && action == value)
  }

  lemma CoercedIsMeant(canon: Json -> string, value: Json, legal: seq<Json>, action: Json)
    ensures CoerceAction(canon, value, legal) == Some(action) <==> Means(canon, legal, value, action)
  {
    hide ActionToken, LastWithToken, Denoted, FirstEqual;
    FirstEqualIsMembership(value, legal);
    if value.JStr? {
      DenotedExactly(canon, legal, value.s, action);
      DenotedIsTheLastWithTheToken(canon, legal, value.s);
      if Denoted(canon, legal, value.s).None? {
        assert !LastWithToken(canon, legal, value.s, action);
      }
    }
  }

  /** The field holds something that counts as false. */
  predicate Blank(m: Object, k: Key) {
    k !in m || !Truthy(m[k])
  }

  /** The text a request object names its action by: an action id in either spelling, else a token. */
  predicate NamesAction(m: Object, text: string) {
    || (!Blank(m, ActionId) && m[ActionId] == JStr(text))
    || (Blank(m, ActionId) && !Blank(m, SnakeActionId) && m[SnakeActionId] == JStr(text))
    || (Blank(m, ActionId) && Blank(m, SnakeActionId) && Token in m && m[Token] == JStr(text))
  }

  /** What `core_step` looks up: the named text, else the payload, else the compact form, else the request. */
  predicate Requests(action: Json, value: Json) {
    if !action.JObj? then value == action
    else if exists k | k in {ActionId, SnakeActionId, Token} :: k in action.fields && action.fields[k].JStr? && NamesAction(action.fields, action.fields[k].s)
    then value.JStr? && NamesAction(action.fields, value.s)
    else if Payload in action.fields then value == action.fields[Payload]
    else if Compact in action.fields then value == action.fields[Compact]
    else value == action
  }

  lemma RequestIsLookedUp(canon: Json -> string, action: Json, legal: seq<Json>, value: Json, played: Json)
    requires Requests(action, value)
    ensures ResolveCoreAction(canon, action, legal) == Some(played) <==> Means(canon, legal, value, played)
  {
    hide CoerceAction, Means;
    CoercedIsMeant(canon, value, legal, played);
    if action.JObj? {
      var m := action.fields;
      assert Truthy(JNull) == false;
      var id := OrElse(Get(m, ActionId), OrElse(Get(m, SnakeActionId), Get(m, Token)));
      assert forall text :: NamesAction(m, text) <==> id == JStr(text);
      if id.JStr? {
        assert NamesAction(m, id.s);
        assert value == id;
      }
    }
  }

  /** `core_step` plays exactly what is meant, for the player to move or an unnamed one, while the game is open. */
  lemma CorePlaysExactly(arena: Arena, canon: Json -> string, s: State, actor: Option<string>, action: Json,
                         value: Json, next: State)
    requires Requests(action, value)
    requires s.activePlayer.JStr?
    ensures CoreStep(arena, canon, s, actor, action) == Some(next)
            <==> !Truthy(s.terminal)
                 && (actor == None || actor == Some("") || JStr(actor.value) == s.activePlayer)
                 && exists legal, played :: Listed(arena, s, s.activePlayer.s, legal)
                      && Means(canon, legal, value, played)
                      && arena.apply(s, s.activePlayer, played) == Some(next)
  {
    hide ResolveCoreAction, Means, Requests;
    var legal := Legal(arena, s, s.activePlayer);
    if legal.Some? {
      assert forall other :: Listed(arena, s, s.activePlayer.s, other) <==> other == legal.value;
      forall played
        ensures ResolveCoreAction(canon, action, legal.value) == Some(played)
                <==> Means(canon, legal.value, value, played)
      {
        RequestIsLookedUp(canon, action, legal.value, value, played);
      }
      var raw := ResolveCoreAction(canon, action, legal.value);
      assert raw.Some? ==> Means(canon, legal.value, value, raw.value);
    } else {
      assert forall other :: !Listed(arena, s, s.activePlayer.s, other);
    }
  }
}
