/**
 * The match controller of the referee server (server/src/index.ts): the one
 * current match and the four commands that change it. Each command is given
 * as a function from the old snapshot to the new one, and as a method of
 * MatchController that updates the held match the way the handler does.
 */
module MatchServer {
  import opened Wrappers
  import opened Types
  import opened GameRules

  /** The last element of a non-empty sequence. */
  function Last<T>(s: seq<T>): T
    requires |s| > 0
  {
    s[|s| - 1]
  }

  /** `Array.prototype.pop` on the set history: drops the last pair, if any. */
  function Pop(s: seq<Score>): (r: seq<Score>)
    ensures |s| > 0 ==> r == s[..|s| - 1]
    ensures |s| == 0 ==> r == []
  {
    if |s| == 0 then s else s[..|s| - 1]
  }

  /** A fresh match in its first set, as a configure command creates it. */
  function CreateNewMatch(config: MatchConfig, startTime: int): (m: MatchState)
    ensures m.config == config && m.startTime == startTime
    ensures m.mancheActuelle == 1 && m.scoreActuel == Score(0, 0)
    ensures m.setsHistory == [] && m.historique == []
    ensures m.serveur == config.premierServeur && m.servicesRestants == 2
    ensures m.status == Playing
    ensures m.coteActuel == Sides(config.coteInitialA, config.coteInitialB) && !m.changementCoteEffectue
  {
    MatchState(
      config := config,
      mancheActuelle := 1,
      scoreActuel := Score(0, 0),
      setsHistory := [],
      serveur := config.premierServeur,
      servicesRestants := 2,
      historique := [],
      status := Playing,
      startTime := startTime,
      coteActuel := Sides(config.coteInitialA, config.coteInitialB),
      changementCoteEffectue := false)
  }

  /** The history entry recorded when `joueur` wins a point in `m`. */
  function PointRecord(m: MatchState, joueur: Player, id: string, timestamp: int): HistoriquePoint {
    HistoriquePoint(
      id := id,
      timestamp := timestamp,
      manche := m.mancheActuelle,
      avant := m.scoreActuel,
      apres := AddPoint(m.scoreActuel, joueur),
      gagnant := joueur,
      serveur := m.serveur,
      typePoint := Normal)
  }

  /** The snapshot once the score, the service and the history take the point in. */
  function Scored(m: MatchState, joueur: Player, id: string, timestamp: int): MatchState {
    var serviceState := UpdateServiceState(m, joueur);
    m.(scoreActuel := AddPoint(m.scoreActuel, joueur),
       serveur := serviceState.serveur,
       servicesRestants := serviceState.servicesRestants,
       historique := m.historique + [PointRecord(m, joueur, id, timestamp)])
  }

  /** The fifth-set swap, applied when ShouldChangeSides says so; it latches the flag in set 5 only. */
  function SwapIfDue(before: MatchState, after: MatchState): MatchState {
    if ShouldChangeSides(before, after) then
      after.(coteActuel := ChangeSides(after),
             changementCoteEffectue := after.mancheActuelle == 5 || after.changementCoteEffectue)
    else after
  }

  /**
   * The end of a set whose score `m.scoreActuel` is won: the score joins the
   * set history, then either the match is over or the next set begins.
   */
  function CloseSet(m: MatchState): MatchState {
    var sets := m.setsHistory + [m.scoreActuel];
    if IsMatchFinished(sets) then
      m.(setsHistory := sets, status := Finished)
    else
      var manche := m.mancheActuelle + 1;
      var next := m.(setsHistory := sets,
                     mancheActuelle := manche,
                     scoreActuel := Score(0, 0),
                     serveur := GetFirstServerNextSet(m.config.premierServeur, manche),
                     servicesRestants := 2,
                     coteActuel := ChangeSides(m));
      if manche == 5 then next.(changementCoteEffectue := false) else next
  }

  /** The point-scored command: ignored unless the match is being played. */
  function ScorePoint(m: MatchState, joueur: Player, id: string, timestamp: int): (r: MatchState)
    ensures m.status != Playing ==> r == m
    ensures m.status == Playing ==>
      r.historique == m.historique + [PointRecord(m, joueur, id, timestamp)] &&
      r.config == m.config && r.startTime == m.startTime
    ensures m.status == Playing && !IsSetWon(AddPoint(m.scoreActuel, joueur)) ==>
      r.scoreActuel == AddPoint(m.scoreActuel, joueur) &&
      r.serveur == UpdateServiceState(m, joueur).serveur &&
      r.servicesRestants == UpdateServiceState(m, joueur).servicesRestants &&
      r.mancheActuelle == m.mancheActuelle && r.setsHistory == m.setsHistory && r.status == Playing
    ensures m.status == Playing && IsSetWon(AddPoint(m.scoreActuel, joueur)) ==>
      r.setsHistory == m.setsHistory + [AddPoint(m.scoreActuel, joueur)]
    ensures m.status == Playing && IsSetWon(AddPoint(m.scoreActuel, joueur)) &&
            IsMatchFinished(m.setsHistory + [AddPoint(m.scoreActuel, joueur)]) ==>
      r.status == Finished && r.mancheActuelle == m.mancheActuelle &&
      r.scoreActuel == AddPoint(m.scoreActuel, joueur)
    ensures m.status == Playing && IsSetWon(AddPoint(m.scoreActuel, joueur)) &&
            !IsMatchFinished(m.setsHistory + [AddPoint(m.scoreActuel, joueur)]) ==>
      r.status == Playing && r.mancheActuelle == m.mancheActuelle + 1 &&
      r.scoreActuel == Score(0, 0) && r.servicesRestants == 2 &&
      r.serveur == GetFirstServerNextSet(m.config.premierServeur, m.mancheActuelle + 1)
    ensures m.status == Playing && m.mancheActuelle != 5 && !IsSetWon(AddPoint(m.scoreActuel, joueur)) ==>
      r.coteActuel == m.coteActuel && r.changementCoteEffectue == m.changementCoteEffectue
    ensures m.status == Playing && m.mancheActuelle == 5 && !IsSetWon(AddPoint(m.scoreActuel, joueur)) ==>
      var fires := !m.changementCoteEffectue && MaxScore(m.scoreActuel) < 5 && MaxScore(AddPoint(m.scoreActuel, joueur)) == 5;
      r.coteActuel == (if fires then ChangeSides(m) else m.coteActuel) &&
      r.changementCoteEffectue == (fires || m.changementCoteEffectue)
    ensures m.status == Playing && IsSetWon(AddPoint(m.scoreActuel, joueur)) &&
            !IsMatchFinished(m.setsHistory + [AddPoint(m.scoreActuel, joueur)]) ==>
      r.coteActuel == ChangeSides(m) &&
      r.changementCoteEffectue == (if m.mancheActuelle + 1 == 5 then false else m.changementCoteEffectue)
    ensures m.status == Playing && IsSetWon(AddPoint(m.scoreActuel, joueur)) &&
            IsMatchFinished(m.setsHistory + [AddPoint(m.scoreActuel, joueur)]) ==>
      r.coteActuel == m.coteActuel && r.changementCoteEffectue == m.changementCoteEffectue &&
      r.serveur == UpdateServiceState(m, joueur).serveur &&
      r.servicesRestants == UpdateServiceState(m, joueur).servicesRestants
  {
    if m.status != Playing then m
    else
      var swapped := SwapIfDue(m, Scored(m, joueur, id, timestamp));
      if IsSetWon(AddPoint(m.scoreActuel, joueur)) then CloseSet(swapped) else swapped
  }

  /**
   * The undo command: drops the last history entry and restores its score
   * and server; the serve count is recomputed from the restored score. A
   * set number that moved on since that point is rolled back with the set
   * history, and the match is reopened. Sides and the fifth-set flag stay.
   */
  function UndoPoint(m: MatchState): (r: MatchState)
    ensures |m.historique| == 0 ==> r == m
    ensures |m.historique| > 0 ==>
      r.historique == m.historique[..|m.historique| - 1] &&
      r.scoreActuel == Last(m.historique).avant &&
      r.serveur == Last(m.historique).serveur &&
      r.servicesRestants == GetServicesPerPlayer(Last(m.historique).avant.a, Last(m.historique).avant.b) &&
      r.coteActuel == m.coteActuel && r.changementCoteEffectue == m.changementCoteEffectue &&
      r.config == m.config && r.startTime == m.startTime
    ensures |m.historique| > 0 && Last(m.historique).manche != m.mancheActuelle ==>
      r.mancheActuelle == Last(m.historique).manche && r.setsHistory == Pop(m.setsHistory) && r.status == Playing
    ensures |m.historique| > 0 && Last(m.historique).manche == m.mancheActuelle ==>
      r.mancheActuelle == m.mancheActuelle && r.setsHistory == m.setsHistory && r.status == m.status
  {
    if |m.historique| == 0 then m
    else
      var lastPoint := Last(m.historique);
      var rolledBack :=
        if lastPoint.manche != m.mancheActuelle then
          m.(mancheActuelle := lastPoint.manche, setsHistory := Pop(m.setsHistory), status := Playing)
        else m;
      rolledBack.(scoreActuel := lastPoint.avant,
                  serveur := lastPoint.serveur,
                  servicesRestants := GetServicesPerPlayer(lastPoint.avant.a, lastPoint.avant.b),
                  historique := m.historique[..|m.historique| - 1])
  }

  /**
   * The manual new-set command: the next set number, a 0-0 score, two
   * serves and a playing match, whatever the status was. The server follows
   * the parity of the set number before it is incremented.
   */
  function NewSet(m: MatchState): (r: MatchState)
    ensures r.mancheActuelle == m.mancheActuelle + 1 && r.scoreActuel == Score(0, 0)
    ensures r.servicesRestants == 2 && r.status == Playing
    ensures r.serveur == GetFirstServerNextSet(m.config.premierServeur, m.mancheActuelle)
    ensures r.setsHistory == m.setsHistory && r.historique == m.historique
    ensures r.coteActuel == m.coteActuel && r.changementCoteEffectue == m.changementCoteEffectue
    ensures r.config == m.config && r.startTime == m.startTime
  {
    m.(mancheActuelle := m.mancheActuelle + 1,
       scoreActuel := Score(0, 0),
       serveur := GetFirstServerNextSet(m.config.premierServeur, m.mancheActuelle),
       servicesRestants := 2,
       status := Playing)
  }

  /** The server's single current match and its command handlers. */
  class MatchController {
    var currentMatch: Option<MatchState>

    constructor ()
      ensures currentMatch == None
    {
      currentMatch := None;
    }

    /** Configure: a new match replaces whatever was there. */
    method OnMatchConfig(config: MatchConfig, startTime: int)
      modifies this
      ensures currentMatch == Some(CreateNewMatch(config, startTime))
    {
      currentMatch := Some(CreateNewMatch(config, startTime));
    }

    method OnPointScored(joueur: Player, id: string, timestamp: int)
      modifies this
      ensures old(currentMatch).None? ==> currentMatch == None
      ensures old(currentMatch).Some? && old(currentMatch).value.status != Playing ==>
        currentMatch == old(currentMatch)
      ensures old(currentMatch).Some? ==>
        currentMatch == Some(ScorePoint(old(currentMatch).value, joueur, id, timestamp))
    {
      if currentMatch.None? || currentMatch.value.status != Playing {
        return;
      }
      var oldState := currentMatch.value;
      var m := oldState;
      var newScore := AddPoint(m.scoreActuel, joueur);
      var pointHistorique := PointRecord(m, joueur, id, timestamp);
      var serviceState := UpdateServiceState(m, joueur);
      m := m.(scoreActuel := newScore,
              serveur := serviceState.serveur,
              servicesRestants := serviceState.servicesRestants,
              historique := m.historique + [pointHistorique]);

      if ShouldChangeSides(oldState, m) {
        m := m.(coteActuel := ChangeSides(m));
        if m.mancheActuelle == 5 {
          m := m.(changementCoteEffectue := true);
        }
      }

      if IsSetWon(newScore) {
        m := m.(setsHistory := m.setsHistory + [newScore]);
        if IsMatchFinished(m.setsHistory) {
          m := m.(status := Finished);
        } else {
          m := m.(mancheActuelle := m.mancheActuelle + 1);
          m := m.(scoreActuel := Score(0, 0));
          m := m.(serveur := GetFirstServerNextSet(m.config.premierServeur, m.mancheActuelle));
          m := m.(servicesRestants := 2);
          m := m.(coteActuel := ChangeSides(m));
          if m.mancheActuelle == 5 {
            m := m.(changementCoteEffectue := false);
          }
        }
      }
      currentMatch := Some(m);
    }

    method OnUndoPoint()
      modifies this
      ensures old(currentMatch).None? ==> currentMatch == None
      ensures old(currentMatch).Some? && |old(currentMatch).value.historique| == 0 ==>
        currentMatch == old(currentMatch)
      ensures old(currentMatch).Some? ==> currentMatch == Some(UndoPoint(old(currentMatch).value))
    {
      if currentMatch.None? || |currentMatch.value.historique| == 0 {
        return;
      }
      var m := currentMatch.value;
      var lastPoint := m.historique[|m.historique| - 1];
      if lastPoint.manche != m.mancheActuelle {
        m := m.(mancheActuelle := lastPoint.manche);
        m := m.(setsHistory := Pop(m.setsHistory));
        m := m.(status := Playing);
      }
      m := m.(scoreActuel := lastPoint.avant,
              serveur := lastPoint.serveur,
              servicesRestants := GetServicesPerPlayer(lastPoint.avant.a, lastPoint.avant.b),
              historique := m.historique[..|m.historique| - 1]);
      currentMatch := Some(m);
    }

    method OnNewSet()
      modifies this
      ensures old(currentMatch).None? ==> currentMatch == None
      ensures old(currentMatch).Some? ==> currentMatch == Some(NewSet(old(currentMatch).value))
    {
      if currentMatch.None? {
        return;
      }
      var m := currentMatch.value;
      currentMatch := Some(m.(mancheActuelle := m.mancheActuelle + 1,
                              scoreActuel := Score(0, 0),
                              serveur := GetFirstServerNextSet(m.config.premierServeur, m.mancheActuelle),
                              servicesRestants := 2,
                              status := Playing));
    }
  }
}
