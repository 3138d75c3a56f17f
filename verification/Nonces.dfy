/** Replay admission: the in-memory and the SQLite nonce stores. */
module Nonces {
  type Entries = map<string, real>

  datatype Claim = Claim(nonce: string, expires: real, now: real)

  /** A claim that is accepted, recognised as a replay, malformed, refused for lack of room, or not answered. */
  datatype Answer = Fresh | Replay | Invalid | Full | Unavailable

  predicate Valid(c: Claim) {
    1 <= |c.nonce| <= 256 && c.expires >= c.now
  }

  function Pruned(e: Entries, now: real): Entries {
    map k | k in e && e[k] >= now :: e[k]
  }

  /** The decision of both stores on the entries that survive pruning. */
  function Decide(live: Entries, max: nat, c: Claim): Answer {
    if c.nonce in live then Replay else if |live| >= max then Full else Fresh
  }

  function MemoryNext(e: Entries, max: nat, c: Claim): (Entries, Answer) {
    if !Valid(c) then (e, Invalid)
    else
      var live := Pruned(e, c.now);
      var answer := Decide(live, max, c);
      (if answer == Fresh then live[c.nonce := c.expires] else live, answer)
  }

  /** As above, but a capacity error rolls the transaction back, pruning included. */
  function SqliteNext(e: Entries, max: nat, c: Claim): (Entries, Answer) {
    if !Valid(c) then (e, Invalid)
    else
      var live := Pruned(e, c.now);
      var answer := Decide(live, max, c);
      (if answer == Fresh then live[c.nonce := c.expires] else if answer == Replay then live else e, answer)
  }

  class MemoryStore {
    const max: nat
    var entries: Entries

    constructor (max: nat)
      requires max >= 1
      ensures this.max == max && entries == map[]
    {
      this.max, entries := max, map[];
    }

    method ClaimNonce(c: Claim) returns (answer: Answer)
      modifies this
      ensures (entries, answer) == MemoryNext(old(entries), max, c)
    {
      if !Valid(c) { return Invalid; }
      entries := Pruned(entries, c.now);
      if c.nonce in entries { return Replay; }
      if |entries| >= max { return Full; }
      entries := entries[c.nonce := c.expires];
      return Fresh;
    }
  }

  class SqliteStore {
    const max: nat
    var table: Entries

    constructor (max: nat)
      requires max >= 1
      ensures this.max == max && table == map[]
    {
      this.max, table := max, map[];
    }

    /**
     * Statements act on the transaction's copy; only a commit makes it the table. A failing database
     * rolls back, and the claim is not admitted.
     */
    method ClaimNonce(c: Claim, databaseFails: bool) returns (answer: Answer)
      modifies this
      ensures !databaseFails ==> (table, answer) == SqliteNext(old(table), max, c)
      ensures databaseFails ==> table == old(table) && answer == if Valid(c) then Unavailable else Invalid
    {
      if !Valid(c) { return Invalid; }
      if databaseFails { return Unavailable; }
      var transaction := Pruned(table, c.now);
      if c.nonce in transaction {
        table := transaction;
        return Replay;
      }
      if |transaction| >= max { return Full; }
      transaction := transaction[c.nonce := c.expires];
      table := transaction;
      return Fresh;
    }
  }

  // ---- whole histories ----

  function MemoryAfter(max: nat, claims: seq<Claim>): Entries {
    if claims == [] then map[]
    else MemoryNext(MemoryAfter(max, claims[..|claims| - 1]), max, claims[|claims| - 1]).0
  }

  function SqliteAfter(max: nat, claims: seq<Claim>): Entries {
    if claims == [] then map[]
    else SqliteNext(SqliteAfter(max, claims[..|claims| - 1]), max, claims[|claims| - 1]).0
  }

  function MemoryAnswer(max: nat, claims: seq<Claim>, i: nat): Answer
    requires i < |claims|
  {
    MemoryNext(MemoryAfter(max, claims[..i]), max, claims[i]).1
  }

  function SqliteAnswer(max: nat, claims: seq<Claim>, i: nat): Answer
    requires i < |claims|
  {
    SqliteNext(SqliteAfter(max, claims[..i]), max, claims[i]).1
  }

  /** A full store has nothing to prune, so there is nothing a rollback could bring back. */
  lemma FullMeansNothingExpired(e: Entries, max: nat, now: real)
    requires |e| <= max && |Pruned(e, now)| >= max
    ensures Pruned(e, now) == e
  {
    var live := Pruned(e, now);
    assert live.Keys <= e.Keys;
    if live.Keys != e.Keys {
      SmallerSet(live.Keys, e.Keys);
      assert false;
    }
  }

  lemma SmallerSet(a: set<string>, b: set<string>)
    requires a < b
    ensures |a| < |b|
  {
    assert b == a + (b - a);
  }

  lemma PrunedIsSmaller(e: Entries, now: real)
    ensures |Pruned(e, now)| <= |e|
  {
    if Pruned(e, now).Keys != e.Keys { SmallerSet(Pruned(e, now).Keys, e.Keys); }
  }

  lemma {:induction false} EntriesNeverExceedMax(max: nat, claims: seq<Claim>)
    ensures |MemoryAfter(max, claims)| <= max
  {
    if claims != [] {
      EntriesNeverExceedMax(max, claims[..|claims| - 1]);
      PrunedIsSmaller(MemoryAfter(max, claims[..|claims| - 1]), claims[|claims| - 1].now);
    }
  }

  /** The two stores hold the same entries after any claims, whatever the order of their times. */
  lemma {:induction false} StoresHoldTheSame(max: nat, claims: seq<Claim>)
    ensures MemoryAfter(max, claims) == SqliteAfter(max, claims)
  {
    if claims != [] {
      var before := claims[..|claims| - 1];
      StoresHoldTheSame(max, before);
      EntriesNeverExceedMax(max, before);
      if MemoryNext(MemoryAfter(max, before), max, claims[|claims| - 1]).1 == Full {
        FullMeansNothingExpired(MemoryAfter(max, before), max, claims[|claims| - 1].now);
      }
    }
  }

  lemma StoresAnswerTheSame(max: nat, claims: seq<Claim>, i: nat)
    requires i < |claims|
    ensures MemoryAnswer(max, claims, i) == SqliteAnswer(max, claims, i)
    ensures |SqliteAfter(max, claims)| <= max
  {
    StoresHoldTheSame(max, claims[..i]);
    StoresHoldTheSame(max, claims);
    EntriesNeverExceedMax(max, claims);
  }

  // ---- what is remembered, read off the history alone ----

  /** Claim `i` was accepted and no valid claim up to `n` (excluded) had a time past its expiry. */
  predicate Alive(max: nat, claims: seq<Claim>, i: nat, n: nat)
    requires n <= |claims|
  {
    i < n && MemoryAnswer(max, claims, i) == Fresh &&
    forall k | i < k < n :: Valid(claims[k]) ==> claims[k].now <= claims[i].expires
  }

  lemma AfterOne(max: nat, claims: seq<Claim>, n: nat)
    requires n < |claims|
    ensures MemoryAfter(max, claims[..n + 1]) == MemoryNext(MemoryAfter(max, claims[..n]), max, claims[n]).0
  {
    assert claims[..n + 1][..n] == claims[..n];
  }

  predicate LiveClaim(max: nat, claims: seq<Claim>, i: nat, n: nat, nonce: string)
    requires n <= |claims|
  {
    i < n && claims[i].nonce == nonce && Alive(max, claims, i, n)
  }

  /** One more claim keeps an entry, drops it, or writes it. */
  lemma NextEntry(e: Entries, max: nat, c: Claim, nonce: string)
    ensures var (next, answer) := MemoryNext(e, max, c);
            (nonce in next <==> (c.nonce == nonce && answer == Fresh) ||
                                (nonce in e && (Valid(c) ==> c.now <= e[nonce]))) &&
            (c.nonce == nonce && answer == Fresh ==>
               next[nonce] == c.expires && !(nonce in e && c.now <= e[nonce])) &&
            (nonce in next && !(c.nonce == nonce && answer == Fresh) ==> next[nonce] == e[nonce])
  {
  }

  lemma {:induction false} LiveClaimIsEntry(max: nat, claims: seq<Claim>, n: nat, i: nat, nonce: string)
    requires n <= |claims| && LiveClaim(max, claims, i, n, nonce)
    ensures nonce in MemoryAfter(max, claims[..n]) && MemoryAfter(max, claims[..n])[nonce] == claims[i].expires
  {
    AfterOne(max, claims, n - 1);
    NextEntry(MemoryAfter(max, claims[..n - 1]), max, claims[n - 1], nonce);
    hide MemoryNext, MemoryAfter;
    if i < n - 1 {
      assert Alive(max, claims, i, n - 1);
      LiveClaimIsEntry(max, claims, n - 1, i, nonce);
    }
  }

  lemma {:induction false} EntryIsLiveClaim(max: nat, claims: seq<Claim>, n: nat, nonce: string) returns (i: nat)
    requires n <= |claims| && nonce in MemoryAfter(max, claims[..n])
    ensures LiveClaim(max, claims, i, n, nonce)
  {
    assert n > 0;
    AfterOne(max, claims, n - 1);
    NextEntry(MemoryAfter(max, claims[..n - 1]), max, claims[n - 1], nonce);
    hide MemoryNext, MemoryAfter;
    if claims[n - 1].nonce == nonce && MemoryAnswer(max, claims, n - 1) == Fresh {
      i := n - 1;
    } else {
      i := EntryIsLiveClaim(max, claims, n - 1, nonce);
      LiveClaimIsEntry(max, claims, n - 1, i, nonce);
    }
  }

  /** The store holds exactly the nonces of live claims, each with the expiry it was accepted with. */
  lemma EntriesAreLiveClaims(max: nat, claims: seq<Claim>, n: nat, nonce: string)
    requires n <= |claims|
    ensures nonce in MemoryAfter(max, claims[..n]) <==> exists i: nat :: LiveClaim(max, claims, i, n, nonce)
    ensures forall i: nat :: LiveClaim(max, claims, i, n, nonce) ==>
              nonce in MemoryAfter(max, claims[..n]) && MemoryAfter(max, claims[..n])[nonce] == claims[i].expires
  {
    if nonce in MemoryAfter(max, claims[..n]) {
      var i := EntryIsLiveClaim(max, claims, n, nonce);
    }
    forall i: nat | LiveClaim(max, claims, i, n, nonce)
      ensures nonce in MemoryAfter(max, claims[..n]) && MemoryAfter(max, claims[..n])[nonce] == claims[i].expires
    {
      LiveClaimIsEntry(max, claims, n, i, nonce);
    }
  }

  /** Acceptance, characterised by the history: no live claim of the nonce, and room among the live entries. */
  lemma FreshExactlyWhenUnseenAndRoom(max: nat, claims: seq<Claim>, j: nat)
    requires j < |claims|
    ensures MemoryAnswer(max, claims, j) == Fresh <==>
              Valid(claims[j]) &&
              !(exists i: nat :: LiveClaim(max, claims, i, j, claims[j].nonce) && claims[j].now <= claims[i].expires) &&
              |Pruned(MemoryAfter(max, claims[..j]), claims[j].now)| < max
  {
    EntriesAreLiveClaims(max, claims, j, claims[j].nonce);
  }

  /** A nonce is accepted twice only if some valid claim in between had a time past its first expiry. */
  lemma ReacceptedOnlyAfterExpiry(max: nat, claims: seq<Claim>, i: nat, j: nat)
    requires i < j < |claims| && claims[i].nonce == claims[j].nonce
    requires MemoryAnswer(max, claims, i) == Fresh && MemoryAnswer(max, claims, j) == Fresh
    ensures exists k :: i < k <= j && Valid(claims[k]) && claims[k].now > claims[i].expires
  {
    FreshExactlyWhenUnseenAndRoom(max, claims, j);
    if LiveClaim(max, claims, i, j, claims[j].nonce) {
      assert claims[j].now > claims[i].expires;
    } else {
      var k :| i < k < j && Valid(claims[k]) && claims[k].now > claims[i].expires;
    }
  }

  ghost predicate TimesNeverFall(claims: seq<Claim>) {
    forall i, j :: 0 <= i < j < |claims| && Valid(claims[i]) && Valid(claims[j]) ==> claims[i].now <= claims[j].now
  }

  /** With times that never fall, the second acceptance itself comes after the first expiry. */
  lemma ReacceptedLate(max: nat, claims: seq<Claim>, i: nat, j: nat)
    requires TimesNeverFall(claims)
    requires i < j < |claims| && claims[i].nonce == claims[j].nonce
    requires MemoryAnswer(max, claims, i) == Fresh && MemoryAnswer(max, claims, j) == Fresh
    ensures claims[i].expires < claims[j].now
  {
    ReacceptedOnlyAfterExpiry(max, claims, i, j);
  }

  // ---- every answer, by the history ----

  /** A nonce of 1 to 256 characters that has not expired when it is claimed. */
  predicate Proper(c: Claim) {
    |c.nonce| != 0 && |c.nonce| < 257 && !(c.expires < c.now)
  }

  /** Claim `i` was accepted, and no proper claim after it up to claim `j` came later than its expiry. */
  predicate Remembered(max: nat, claims: seq<Claim>, i: nat, j: nat)
    requires i < j < |claims|
  {
    MemoryAnswer(max, claims, i) == Fresh &&
    forall k | i < k <= j && Proper(claims[k]) :: claims[k].now <= claims[i].expires
  }

  ghost function HeldNonces(max: nat, claims: seq<Claim>, j: nat): set<string>
    requires j < |claims|
  {
    set i | 0 <= i < j && Remembered(max, claims, i, j) :: claims[i].nonce
  }

  lemma HeldNoncesSurvivePruning(max: nat, claims: seq<Claim>, j: nat)
    requires j < |claims| && Proper(claims[j])
    ensures Pruned(MemoryAfter(max, claims[..j]), claims[j].now).Keys == HeldNonces(max, claims, j)
  {
    hide MemoryAfter, MemoryAnswer;
    var e := MemoryAfter(max, claims[..j]);
    forall nonce ensures nonce in Pruned(e, claims[j].now) <==> nonce in HeldNonces(max, claims, j) {
      EntriesAreLiveClaims(max, claims, j, nonce);
      if nonce in Pruned(e, claims[j].now) {
        var i: nat :| LiveClaim(max, claims, i, j, nonce);
        assert Remembered(max, claims, i, j);
      }
      if nonce in HeldNonces(max, claims, j) {
        var i: nat :| i < j && Remembered(max, claims, i, j) && claims[i].nonce == nonce;
        assert LiveClaim(max, claims, i, j, nonce);
      }
    }
  }

  /** Both stores refuse malformed claims, then recognise held nonces, then refuse for lack of room. */
  lemma EveryAnswerByTheHistory(max: nat, claims: seq<Claim>, j: nat)
    requires j < |claims|
    ensures MemoryAnswer(max, claims, j) == SqliteAnswer(max, claims, j)
    ensures var held := HeldNonces(max, claims, j);
            MemoryAnswer(max, claims, j)
            == if |claims[j].nonce| == 0 || |claims[j].nonce| > 256 || claims[j].expires < claims[j].now then Invalid
               else if claims[j].nonce in held then Replay
               else if |held| >= max then Full
               else Fresh
  {
    StoresAnswerTheSame(max, claims, j);
    if Proper(claims[j]) {
      HeldNoncesSurvivePruning(max, claims, j);
      SameSize(Pruned(MemoryAfter(max, claims[..j]), claims[j].now));
    }
    hide MemoryAfter, SqliteAnswer, HeldNonces, Pruned;
  }

  lemma SameSize(e: Entries)
    ensures |e| == |e.Keys|
  {
  }
}
