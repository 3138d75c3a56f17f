/** What a finished run claims for itself: the receipts valid for its case, and its eligibility. */
module Scoring {
  import opened Options
  import opened Json
  import opened Arenas
  import opened Events
  import opened Receipts
  import opened Match
  import opened ReplayCheck
  import opened Runs

  /** The provider itself named the model, or a pinned endpoint did, or the mock attests to it. */
  predicate Identified(r: ReceiptRow) {
    && r.lockedModelId.JStr? && |r.lockedModelId.s| > 0
    && (|| r.identitySource == JStr("provider_response")
        || (r.identitySource == JStr("pinned_endpoint") && r.model == r.lockedModelId)
        || (r.identitySource == JStr("mock_attested") && r.provider == JStr("mock")))
  }

  predicate OkOf(r: ReceiptRow, player: string) {
    r.outcome == JStr("ok") && r.activePlayer == JStr(player)
  }

  /** Receipt i, if it is an ok one of the player, identifies the model expected of it. */
  predicate Vouches(c: Config, r: ReceiptRow, player: string) {
    OkOf(r, player) ==>
      Identified(r) && (player in c.expectedModels ==> r.lockedModelId == JStr(c.expectedModels[player]))
  }

  /** Every provider seat has an ok receipt, and all of them vouch for its model. */
  ghost predicate SeatsIdentified(c: Config, receipts: seq<ReceiptRow>) {
    forall p | p in c.providerSeats ::
      && (exists i | 0 <= i < |receipts| :: OkOf(receipts[i], p))
      && (forall i | 0 <= i < |receipts| :: Vouches(c, receipts[i], p))
  }

  lemma IdentityMeansVouched(c: Config, receipts: seq<ReceiptRow>)
    ensures IdentityVerified(c, receipts) <==> SeatsIdentified(c, receipts)
  {
    forall r ensures TrustedIdentity(r) <==> Identified(r) { TrustedIsIdentified(r); }
    hide TrustedIdentity, Identified;
    if SeatsIdentified(c, receipts) {
      forall p | p in c.providerSeats
        ensures exists i | 0 <= i < |receipts| :: receipts[i].outcome == OK && receipts[i].activePlayer == JStr(p)
        ensures forall i | 0 <= i < |receipts| && receipts[i].outcome == OK && receipts[i].activePlayer == JStr(p) ::
                  TrustedIdentity(receipts[i])
                  && (p in c.expectedModels ==> receipts[i].lockedModelId == JStr(c.expectedModels[p]))
      {
        var i :| 0 <= i < |receipts| && OkOf(receipts[i], p);
        forall i | 0 <= i < |receipts| && receipts[i].outcome == OK && receipts[i].activePlayer == JStr(p)
          ensures TrustedIdentity(receipts[i])
                  && (p in c.expectedModels ==> receipts[i].lockedModelId == JStr(c.expectedModels[p]))
        {
          assert Vouches(c, receipts[i], p);
        }
      }
    }
    if IdentityVerified(c, receipts) {
      forall p | p in c.providerSeats
        ensures exists i | 0 <= i < |receipts| :: OkOf(receipts[i], p)
        ensures forall i | 0 <= i < |receipts| :: Vouches(c, receipts[i], p)
      {
        var i :| 0 <= i < |receipts| && receipts[i].outcome == OK && receipts[i].activePlayer == JStr(p);
        assert OkOf(receipts[i], p);
      }
    }
  }

  lemma TrustedIsIdentified(r: ReceiptRow)
    ensures TrustedIdentity(r) <==> Identified(r)
  {
  }

  /** The game was still open when the turn limit was reached. */
  predicate Truncated(c: Config, m: Match) {
    m.state.terminal != JBool(true) && m.state.turn.JInt? && !(m.state.turn.i < c.maxTurns)
  }

  /** What is true of a run once the loop has ended: a truncated one does not score. */
  ghost predicate Closes(c: Config, m: Match, done: Match) {
    && done.state == m.state && done.trace == m.trace && done.replay == m.replay
    && done.history == m.history && done.agentErrors == m.agentErrors
    && done.illegalActions == m.illegalActions && done.fallbackActions == m.fallbackActions
    && done.providerActions == m.providerActions && done.logicalActions == m.logicalActions
    && (if Truncated(c, m) then
          && !done.valid && done.codes == m.codes + [RunTruncated]
          && done.reason == Some(if m.reason.Some? then m.reason.value else "run_truncated")
        else done.valid == m.valid && done.codes == m.codes && done.reason == m.reason)
  }

  /**
   A receipt is valid for its case exactly when its action was applied, the match counts, it has a
   case, and every provider seat is vouched for; closing a run changes nothing else in a receipt.
   */
  lemma CaseValidExactlyWhen(env: Env, c: Config, m: Match)
    requires Finalise(env, c, m).Some?
    ensures var done := Finalise(env, c, m).value;
            && Closes(c, m, done) && |done.receipts| == |m.receipts|
            && forall i | 0 <= i < |m.receipts| ::
                 && done.receipts[i] == m.receipts[i].(caseValid := done.receipts[i].caseValid)
                 && done.receipts[i].caseValid
                    == JBool(m.receipts[i].actionApplied == JBool(true) && done.valid
                             && c.caseId != None && c.caseId != Some("")
                             && IdentityVerified(c, m.receipts))
                 && !env.receiptInvalid(done.receipts[i])
    ensures IdentityVerified(c, m.receipts) <==> SeatsIdentified(c, m.receipts)
  {
    hide IdentityVerified, SeatsIdentified;
    IdentityMeansVouched(c, m.receipts);
  }

  /** The artifact claims what the match is: valid or not, and eligible only when it is valid. */
  lemma ArtifactClaims(arena: Arena, version: string, m: Match, eligible: bool)
    ensures var a := WrittenArtifact(arena, version, m, eligible);
            && a.score.ScoreFile? && a.score.arenaId == JStr(arena.id) && a.score.matchValid == JBool(m.valid)
            && a.score.outcome == Canon(m.state.outcome)
            && a.manifest.matchValid == JBool(m.valid) && a.manifest.arenaVersion == JStr(version)
            && (a.manifest.perCase == JBool(true) <==> m.valid && eligible)
            && (a.manifest.proofRow == JBool(true) <==> m.valid && eligible)
            && a.manifest.aggregate == JBool(false)
            && a.manifest.deterministic
               == Some(ReplayMetadata(JStr("recorded"), JStr("eslams-deterministic-replay-v1"), JInt(|m.trace|),
                                      JInt(|m.replay|)))
            && a.replay == Some(m.replay) && a.auditor.Some? && |a.auditor.value| == |m.trace|
            && forall i | 0 <= i < |m.trace| :: a.auditor.value[i] == CanonRow(View(m.trace[i], Auditor))
  {
  }
}
