/** Option, the usual Some/None datatype. */
module Options {
  datatype Option<+T> = None | Some(value: T)
}

/**
 JSON values as the runner hashes, writes and reads them back.
 An object key that the modelled code names is a constructor of its own; any
 other key is `Name(text)`. Numbers are exact: Python's float is a real here,
 but int, float and bool stay three different JSON values, because their
 canonical texts differ.
 */
module Json {
  import opened Options

  datatype Key =
    | StateId | StateHash | Turn | ActivePlayer | PublicState | PrivateState | LegalActions
    | Scores | Terminal | Outcome | RngCommitment | RenderHints | Metadata
    | CreatedAt | LatencyMs | ElapsedMs
    | Winner | ReasonKey | InvalidReasonKey | ForfeitedPlayer | RemainingPlayers
    | TerminalReason | FinalValidation | ScoreKey | SessionKey
    | ActionId | SnakeActionId | Token | Payload | Compact
    | Name(text: string)

  datatype Json =
    | JNull
    | JBool(b: bool)
    | JInt(i: int)
    | JReal(r: real)
    | JStr(s: string)
    | JList(items: seq<Json>)
    | JObj(fields: map<Key, Json>)

  type Object = map<Key, Json>

  /** `mapping.get(key)`: an absent key reads as null. */
  function Get(m: Object, k: Key): Json {
    if k in m then m[k] else JNull
  }

  /** Python's `bool(value)`. */
  predicate Truthy(j: Json) {
    match j
    case JNull => false
    case JBool(b) => b
    case JInt(i) => i != 0
    case JReal(r) => r != 0.0
    case JStr(s) => s != ""
    case JList(xs) => xs != []
    case JObj(m) => m != map[]
  }

  /** The number Python compares a value by; bool is a number in Python. */
  function Num(j: Json): Option<real> {
    match j
    case JBool(b) => Some(if b then 1.0 else 0.0)
    case JInt(i) => Some(i as real)
    case JReal(r) => Some(r)
    case _ => None
  }

  /** `isinstance(value, int)`, which a bool satisfies too. */
  function PyInt(j: Json): Option<int> {
    match j
    case JBool(b) => Some(if b then 1 else 0)
    case JInt(i) => Some(i)
    case _ => None
  }

  /** Python's `==` on decoded JSON: 1, 1.0 and true are one value to it. */
  predicate PyEq(a: Json, b: Json)
    decreases a
  {
    if Num(a).Some? && Num(b).Some? then Num(a) == Num(b)
    else match (a, b)
      case (JNull, JNull) => true
      case (JStr(s), JStr(t)) => s == t
      case (JList(xs), JList(ys)) =>
        |xs| == |ys| && forall i | 0 <= i < |xs| :: PyEq(xs[i], ys[i])
      case (JObj(m), JObj(n)) =>
        m.Keys == n.Keys && forall k | k in m :: k in n && PyEq(m[k], n[k])
      case _ => false
  }

  lemma {:induction false} PyEqReflexive(a: Json)
    ensures PyEq(a, a)
  {
    match a
    case JList(xs) =>
      forall i | 0 <= i < |xs| ensures PyEq(xs[i], xs[i]) { PyEqReflexive(xs[i]); }
    case JObj(m) =>
      forall k | k in m ensures PyEq(m[k], m[k]) { PyEqReflexive(m[k]); }
    case _ =>
  }

  /** `_same_json_action`: equality that also compares the JSON type. */
  predicate SameJson(left: Json, right: Json)
    decreases left
  {
    match (left, right)
    case (JObj(m), JObj(n)) =>
      m.Keys == n.Keys && forall k | k in m :: k in n && SameJson(m[k], n[k])
    case (JList(xs), JList(ys)) =>
      |xs| == |ys| && forall i | 0 <= i < |xs| :: SameJson(xs[i], ys[i])
    case (JReal(r), JReal(q)) => r == q
    case (JStr(s), JStr(t)) => s == t
    case (JInt(i), JInt(n)) => i == n
    case (JBool(b), JBool(c)) => b == c
    case (JNull, JNull) => true
    case _ => false
  }

  /** The typed comparison separates exactly the values with different canonical text. */
  lemma {:induction false} SameJsonIsIdentity(left: Json, right: Json)
    ensures SameJson(left, right) <==> left == right
    decreases left
  {
    match (left, right)
    case (JObj(m), JObj(n)) =>
      forall k | k in m && k in n ensures SameJson(m[k], n[k]) <==> m[k] == n[k] {
        SameJsonIsIdentity(m[k], n[k]);
      }
      if SameJson(left, right) {
        assert m == n;
      }
    case (JList(xs), JList(ys)) =>
      forall i | 0 <= i < |xs| && i < |ys| ensures SameJson(xs[i], ys[i]) <==> xs[i] == ys[i] {
        SameJsonIsIdentity(xs[i], ys[i]);
      }
      if SameJson(left, right) {
        assert xs == ys;
      }
    case _ =>
  }

  predicate IsTiming(k: Key) {
    k == CreatedAt || k == LatencyMs || k == ElapsedMs
  }

  /** `_canonical_hashed_payload`: drops the timing keys at every depth. */
  function Canon(j: Json): Json {
    match j
    case JObj(m) => JObj(map k | k in m && !IsTiming(k) :: Canon(m[k]))
    case JList(xs) => JList(seq(|xs|, i requires 0 <= i < |xs| => Canon(xs[i])))
    case _ => j
  }

  predicate NoTiming(j: Json) {
    match j
    case JObj(m) => forall k | k in m :: !IsTiming(k) && NoTiming(m[k])
    case JList(xs) => forall i | 0 <= i < |xs| :: NoTiming(xs[i])
    case _ => true
  }

  /** Writing a payload preserves it exactly when no object in it uses a timing key. */
  lemma {:induction false} CanonKeepsExactlyTimingFree(j: Json)
    ensures Canon(j) == j <==> NoTiming(j)
  {
    match j
    case JObj(m) =>
      forall k | k in m ensures Canon(m[k]) == m[k] <==> NoTiming(m[k]) {
        CanonKeepsExactlyTimingFree(m[k]);
      }
      if Canon(j) == j {
        assert Canon(j).fields == m;
      }
    case JList(xs) =>
      forall i | 0 <= i < |xs| ensures Canon(xs[i]) == xs[i] <==> NoTiming(xs[i]) {
        CanonKeepsExactlyTimingFree(xs[i]);
      }
      if Canon(j) == j {
        assert Canon(j).items == xs;
      }
    case _ =>
  }

  /** What is written is free of timing keys, so a second pass changes nothing. */
  lemma {:induction false} CanonIsTimingFree(j: Json)
    ensures NoTiming(Canon(j)) && Canon(Canon(j)) == Canon(j)
  {
    match j {
      case JObj(m) =>
        forall k | k in m ensures NoTiming(Canon(m[k])) { CanonIsTimingFree(m[k]); }
      case JList(xs) =>
        forall i | 0 <= i < |xs| ensures NoTiming(Canon(xs[i])) { CanonIsTimingFree(xs[i]); }
      case _ =>
    }
    CanonKeepsExactlyTimingFree(Canon(j));
  }

  /** Exactly seven values count as false. */
  lemma FalseValues(j: Json)
    ensures !Truthy(j) <==>
              j in {JNull, JBool(false), JInt(0), JReal(0.0), JStr(""), JList([]), JObj(map[])}
  {
  }

  /** The value with every boolean and integer written as the real number Python compares it by. */
  function Plain(j: Json): Json {
    match j
    case JBool(b) => JReal(if b then 1.0 else 0.0)
    case JInt(i) => JReal(i as real)
    case JList(xs) => JList(seq(|xs|, i requires 0 <= i < |xs| => Plain(xs[i])))
    case JObj(m) => JObj(map k | k in m :: Plain(m[k]))
    case _ => j
  }

  /** Python's equality is equality up to the kind of a number, at every depth. */
  lemma {:induction false} PyEqIsEqualityOfNumbers(a: Json, b: Json)
    ensures PyEq(a, b) <==> Plain(a) == Plain(b)
    decreases a
  {
    match (a, b)
    case (JList(xs), JList(ys)) =>
      forall i | 0 <= i < |xs| && i < |ys| ensures PyEq(xs[i], ys[i]) <==> Plain(xs[i]) == Plain(ys[i]) {
        PyEqIsEqualityOfNumbers(xs[i], ys[i]);
      }
      ListsAreEqual(xs, ys);
    case (JObj(m), JObj(n)) =>
      forall k | k in m && k in n ensures PyEq(m[k], n[k]) <==> Plain(m[k]) == Plain(n[k]) {
        PyEqIsEqualityOfNumbers(m[k], n[k]);
      }
      ObjectsAreEqual(m, n);
    case _ =>
  }

  lemma ListsAreEqual(xs: seq<Json>, ys: seq<Json>)
    ensures Plain(JList(xs)) == Plain(JList(ys))
            <==> |xs| == |ys| && forall i | 0 <= i < |xs| :: Plain(xs[i]) == Plain(ys[i])
  {
    var p, q := Plain(JList(xs)).items, Plain(JList(ys)).items;
    if p == q {
      forall i | 0 <= i < |xs| ensures Plain(xs[i]) == Plain(ys[i]) { assert p[i] == q[i]; }
    }
  }

  lemma ObjectsAreEqual(m: Object, n: Object)
    ensures Plain(JObj(m)) == Plain(JObj(n))
            <==> m.Keys == n.Keys && forall k | k in m && k in n :: Plain(m[k]) == Plain(n[k])
  {
    var p, q := Plain(JObj(m)).fields, Plain(JObj(n)).fields;
    assert p.Keys == m.Keys && q.Keys == n.Keys;
    if p == q {
      forall k | k in m && k in n ensures Plain(m[k]) == Plain(n[k]) { assert p[k] == q[k]; }
    }
  }
}
