/**
 * Three places where the controller's undo and new-set commands do not do
 * what the rest of the controller evidently intends, each shown on the
 * commands as written (MatchServer) and beside a corrected definition with
 * the intended property proved about it.
 */
module MatchFindings {
  import opened Wrappers
  import opened Types
  import opened GameRules
  import opened MatchServer
  import opened MatchInvariants

  const Example: MatchConfig :=
    MatchConfig(Simple, "Alice", "Bob", None, None, A, Gauche, Droite)

  /**
   * As written, undo gives the restored server two serves whatever the
   * score: after A serves the first two points and the second is undone,
   * A has two serves left instead of one and serves three points in a row.
   */
  lemma UndoForgetsServeCount()
    ensures var m1 := ScorePoint(CreateNewMatch(Example, 0), A, "1", 1);
            var m2 := ScorePoint(m1, A, "2", 2);
            var u := UndoPoint(m2);
            m1.servicesRestants == 1 && m2.serveur == B &&
            u.scoreActuel == m1.scoreActuel && u.serveur == A && u.servicesRestants == 2 &&
            OnSchedule(m2) && !OnSchedule(u) &&
            ScorePoint(u, B, "3", 3).serveur == A
  {
  }

  /** In general, undoing a point scored on the second of two serves leaves one serve too many. */
  lemma UndoServeCountOffByOne(m: MatchState, joueur: Player, id: string, timestamp: int)
    requires WellFormed(m) && OnSchedule(m) && m.status == Playing
    requires !(m.scoreActuel.a >= 10 && m.scoreActuel.b >= 10)
    requires (m.scoreActuel.a + m.scoreActuel.b) % 2 == 1
    requires ScorePoint(m, joueur, id, timestamp).status == Playing
    ensures UndoPoint(ScorePoint(m, joueur, id, timestamp)).servicesRestants == m.servicesRestants + 1
  {
  }

  /**
   * As written, undo keeps a finished match finished while it takes back
   * points of the final set (the set number never moved on), so the final
   * set stays in the set history while the live score goes back to a score
   * that had not won it: the result is no longer a well-formed match.
   */
  lemma UndoKeepsMatchFinished(m: MatchState)
    requires WellFormed(m) && m.status == Finished
    ensures UndoPoint(m).status == Finished
    ensures UndoPoint(m).setsHistory == m.setsHistory && UndoPoint(m).mancheActuelle == m.mancheActuelle
    ensures UndoPoint(m).scoreActuel != Last(UndoPoint(m).setsHistory)
    ensures !WellFormed(UndoPoint(m))
  {
  }

  /**
   * Once every point of the final set is undone, the next undo crosses into
   * the previous set and pops only one set: the match is playing again with
   * the set it is replaying already counted as won.
   */
  lemma UndoPastFinalSetMiscounts(m: MatchState)
    requires m.status == Finished && |m.setsHistory| == m.mancheActuelle
    requires |m.historique| > 0 && Last(m.historique).manche + 1 == m.mancheActuelle
    ensures UndoPoint(m).status == Playing
    ensures |UndoPoint(m).setsHistory| == UndoPoint(m).mancheActuelle
    ensures !WellFormed(UndoPoint(m))
  {
  }

  /**
   * Undo as intended: the serve count comes from the service order at the
   * restored score, and undoing the match-ending point reopens the match and
   * takes the final set out of the set history.
   */
  function IntendedUndo(m: MatchState): (r: MatchState)
    ensures |m.historique| > 0 ==> r.servicesRestants == ScheduledServes(Last(m.historique).avant)
    ensures |m.historique| > 0 && m.status == Finished ==> r.status == Playing
  {
    if |m.historique| == 0 then m
    else
      var lastPoint := Last(m.historique);
      var reopened :=
        if lastPoint.manche != m.mancheActuelle || m.status == Finished then
          m.(mancheActuelle := lastPoint.manche, setsHistory := Pop(m.setsHistory), status := Playing)
        else m;
      reopened.(scoreActuel := lastPoint.avant,
                serveur := lastPoint.serveur,
                servicesRestants := ScheduledServes(lastPoint.avant),
                historique := m.historique[..|m.historique| - 1])
  }

  /**
   * The intended undo is a left inverse of scoring a point, the match-ending
   * point included: only the sides and the fifth-set flag are not restored.
   */
  lemma IntendedUndoTakesBackPoint(m: MatchState, joueur: Player, id: string, timestamp: int)
    requires WellFormed(m) && OnSchedule(m) && m.status == Playing
    ensures var u := IntendedUndo(ScorePoint(m, joueur, id, timestamp));
      u == m.(coteActuel := u.coteActuel, changementCoteEffectue := u.changementCoteEffectue)
  {
  }

  /** The intended undo keeps a match well formed, finished or not. */
  lemma IntendedUndoKeepsWellFormed(m: MatchState)
    requires WellFormed(m)
    ensures WellFormed(IntendedUndo(m))
  {
  }

  /** The intended undo keeps the service on schedule. */
  lemma IntendedUndoKeepsSchedule(m: MatchState)
    requires WellFormed(m) && OnSchedule(m)
    ensures OnSchedule(IntendedUndo(m))
  {
  }

  /**
   * As written, the manual new set is opened by the side that opened the
   * set just left, never by the side the scoring rules give the new set.
   */
  lemma NewSetServerOffSchedule(m: MatchState)
    ensures NewSet(m).serveur != SetOpener(m, NewSet(m).mancheActuelle)
    ensures !OnSchedule(NewSet(m))
  {
  }

  /** The manual new set as intended: opened by the rules' first server of the new set number. */
  function IntendedNewSet(m: MatchState): (r: MatchState)
    ensures r.mancheActuelle == m.mancheActuelle + 1
    ensures r.serveur == GetFirstServerNextSet(m.config.premierServeur, r.mancheActuelle)
  {
    var manche := m.mancheActuelle + 1;
    m.(mancheActuelle := manche,
       scoreActuel := Score(0, 0),
       serveur := GetFirstServerNextSet(m.config.premierServeur, manche),
       servicesRestants := 2,
       status := Playing)
  }

  /** The intended new set starts on schedule and keeps the recorded servers on schedule. */
  lemma IntendedNewSetOnSchedule(m: MatchState)
    requires OnSchedule(m)
    ensures OnSchedule(IntendedNewSet(m))
  {
  }
}
