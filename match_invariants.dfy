/**
 * What the controller keeps true of the match from one command to the next:
 * the shape of a best-of-five match and its history, the service order, and
 * the side assignment with its fifth-set flag.
 */
module MatchInvariants {
  import opened Types
  import opened GameRules
  import opened MatchServer

  /** The side that opens set `manche` of match `m`. */
  function SetOpener(m: MatchState, manche: nat): Player {
    GetFirstServerNextSet(m.config.premierServeur, manche)
  }

  /** Every recorded point is one point of a set that had not been won, in set order. */
  predicate HistoryWellFormed(m: MatchState) {
    var h := m.historique;
    (forall i | 0 <= i < |h| :: 1 <= h[i].manche <= m.mancheActuelle) &&
    (forall i | 0 <= i < |h| :: h[i].apres == AddPoint(h[i].avant, h[i].gagnant)) &&
    (forall i | 0 <= i < |h| :: !IsSetWon(h[i].avant)) &&
    (forall i, j | 0 <= i < j < |h| :: h[i].manche <= h[j].manche) &&
    (forall i | 0 < i < |h| :: h[i].manche <= h[i - 1].manche + 1) &&
    (|h| > 0 ==>
      Last(h).manche == m.mancheActuelle ||
      (Last(h).manche + 1 == m.mancheActuelle && m.status == Playing))
  }

  /**
   * A best-of-five match: while playing, one completed (won) set per earlier
   * set number and a live score that is not yet a won set; once finished,
   * the final set is in the set history and decided the match, and it is
   * both the live score and the score after the last recorded point.
   */
  predicate WellFormed(m: MatchState) {
    1 <= m.mancheActuelle <= 5 &&
    (m.status == Playing || m.status == Finished) &&
    1 <= m.servicesRestants <= 2 &&
    (forall i | 0 <= i < |m.setsHistory| :: IsSetWon(m.setsHistory[i])) &&
    (m.status == Playing ==>
      |m.setsHistory| + 1 == m.mancheActuelle &&
      !IsMatchFinished(m.setsHistory) && !IsSetWon(m.scoreActuel)) &&
    (m.status == Finished ==>
      |m.setsHistory| == m.mancheActuelle && IsMatchFinished(m.setsHistory) &&
      !IsMatchFinished(m.setsHistory[..|m.setsHistory| - 1]) &&
      m.scoreActuel == Last(m.setsHistory) &&
      |m.historique| > 0 && Last(m.historique).apres == Last(m.setsHistory)) &&
    HistoryWellFormed(m)
  }

  /** The current server and serve count, and every recorded server, follow the service order. */
  predicate OnSchedule(m: MatchState) {
    m.serveur == ScheduledServer(SetOpener(m, m.mancheActuelle), m.scoreActuel) &&
    m.servicesRestants == ScheduledServes(m.scoreActuel) &&
    forall i | 0 <= i < |m.historique| ::
      m.historique[i].serveur == ScheduledServer(SetOpener(m, m.historique[i].manche), m.historique[i].avant)
  }

  /** Each player's end after `swaps` changes of sides from the configured ends. */
  function SidesAfterSwaps(c: MatchConfig, swaps: nat): Sides {
    if swaps % 2 == 0 then Sides(c.coteInitialA, c.coteInitialB)
    else Sides(Opposite(c.coteInitialA), Opposite(c.coteInitialB))
  }

  /**
   * While playing: one change of sides per completed set plus the fifth-set
   * change, whose flag is down before set 5 and, in set 5, up exactly when
   * the leading score has reached 5.
   */
  predicate SidesAgree(m: MatchState) {
    m.status == Playing ==>
      m.mancheActuelle >= 1 &&
      (m.mancheActuelle < 5 ==> !m.changementCoteEffectue) &&
      (m.mancheActuelle == 5 ==> (m.changementCoteEffectue <==> MaxScore(m.scoreActuel) >= 5)) &&
      m.coteActuel == SidesAfterSwaps(m.config, m.mancheActuelle - 1 + (if m.changementCoteEffectue then 1 else 0))
  }

  predicate Consistent(m: MatchState) {
    WellFormed(m) && OnSchedule(m) && SidesAgree(m)
  }

  /** A configured match starts consistent. */
  lemma NewMatchConsistent(config: MatchConfig, startTime: int)
    ensures Consistent(CreateNewMatch(config, startTime))
  {
  }

  lemma AppendPrefix(s: seq<Score>, x: Score)
    ensures (s + [x])[..|s|] == s
  {
  }

  /** A point keeps history entries ordered and linked to the set number. */
  lemma ScorePointKeepsHistory(m: MatchState, joueur: Player, id: string, timestamp: int)
    requires WellFormed(m) && m.status == Playing
    ensures HistoryWellFormed(ScorePoint(m, joueur, id, timestamp))
  {
    var r := ScorePoint(m, joueur, id, timestamp);
    var rec := PointRecord(m, joueur, id, timestamp);
    var h := r.historique;
    assert h == m.historique + [rec];
    assert r.mancheActuelle == m.mancheActuelle || (r.mancheActuelle == m.mancheActuelle + 1 && r.status == Playing);
    assert forall i | 0 <= i < |m.historique| :: h[i] == m.historique[i];
    assert Last(h) == rec && rec.manche == m.mancheActuelle;
  }

  /**
   * Scoring a point keeps a well-formed match well formed: in particular no
   * sixth set is ever opened, because five won sets decide the match.
   */
  lemma ScorePointKeepsWellFormed(m: MatchState, joueur: Player, id: string, timestamp: int)
    requires WellFormed(m)
    ensures WellFormed(ScorePoint(m, joueur, id, timestamp))
  {
    if m.status == Playing {
      var newScore := AddPoint(m.scoreActuel, joueur);
      var sets := m.setsHistory + [newScore];
      ScorePointKeepsHistory(m, joueur, id, timestamp);
      if IsSetWon(newScore) {
        AppendPrefix(m.setsHistory, newScore);
        assert forall i | 0 <= i < |sets| :: IsSetWon(sets[i]) by {
          forall i | 0 <= i < |sets| ensures IsSetWon(sets[i]) {
            if i < |m.setsHistory| { assert sets[i] == m.setsHistory[i]; }
          }
        }
        if m.mancheActuelle == 5 {
          BestOfFive(sets);
        }
      }
    }
  }

  /** Scoring a point keeps the service on schedule, across the end of a set too. */
  lemma ScorePointKeepsSchedule(m: MatchState, joueur: Player, id: string, timestamp: int)
    requires WellFormed(m) && OnSchedule(m)
    ensures OnSchedule(ScorePoint(m, joueur, id, timestamp))
  {
    if m.status == Playing {
      var r := ScorePoint(m, joueur, id, timestamp);
      var newScore := AddPoint(m.scoreActuel, joueur);
      if !IsSetWon(newScore) || IsMatchFinished(m.setsHistory + [newScore]) {
        ServiceRotation(SetOpener(m, m.mancheActuelle), m, joueur);
      }
      var h := r.historique;
      assert h == m.historique + [PointRecord(m, joueur, id, timestamp)];
      forall i | 0 <= i < |h|
        ensures h[i].serveur == ScheduledServer(SetOpener(r, h[i].manche), h[i].avant)
      {
        if i < |m.historique| { assert h[i] == m.historique[i]; }
      }
    }
  }

  /** Scoring a point keeps the sides and the fifth-set flag in step with the match. */
  lemma ScorePointKeepsSides(m: MatchState, joueur: Player, id: string, timestamp: int)
    requires WellFormed(m) && SidesAgree(m)
    ensures SidesAgree(ScorePoint(m, joueur, id, timestamp))
  {
    if m.status == Playing {
      ScorePointKeepsWellFormed(m, joueur, id, timestamp);
    }
  }

  /**
   * In the fifth set the ends change on exactly one point: the one that
   * takes the leading score from 4 to 5. The set's last point swaps nothing,
   * since a won fifth set always ends the match.
   */
  lemma FifthSetSwapsOnce(m: MatchState, joueur: Player, id: string, timestamp: int)
    requires WellFormed(m) && SidesAgree(m) && m.status == Playing && m.mancheActuelle == 5
    ensures ScorePoint(m, joueur, id, timestamp).coteActuel != m.coteActuel <==>
      MaxScore(m.scoreActuel) == 4 && MaxScore(AddPoint(m.scoreActuel, joueur)) == 5
    ensures ScorePoint(m, joueur, id, timestamp).changementCoteEffectue <==>
      MaxScore(AddPoint(m.scoreActuel, joueur)) >= 5
  {
    var newScore := AddPoint(m.scoreActuel, joueur);
    if IsSetWon(newScore) {
      var sets := m.setsHistory + [newScore];
      AppendPrefix(m.setsHistory, newScore);
      assert forall i | 0 <= i < |sets| :: IsSetWon(sets[i]) by {
        forall i | 0 <= i < |sets| ensures IsSetWon(sets[i]) {
          if i < |m.setsHistory| { assert sets[i] == m.setsHistory[i]; }
        }
      }
      BestOfFive(sets);
    }
  }

  /** Undo during play keeps the match well formed, across a set boundary too. */
  lemma UndoKeepsWellFormed(m: MatchState)
    requires WellFormed(m) && m.status == Playing
    ensures WellFormed(UndoPoint(m))
  {
  }

  /**
   * Undo takes back the previous point: score, server, history, set number,
   * set history and status are those before it, unless that point ended the
   * match. The serve count is the one the restored score implies.
   */
  lemma UndoTakesBackPoint(m: MatchState, joueur: Player, id: string, timestamp: int)
    requires m.status == Playing
    requires ScorePoint(m, joueur, id, timestamp).status == Playing
    ensures var u := UndoPoint(ScorePoint(m, joueur, id, timestamp));
      u.scoreActuel == m.scoreActuel && u.serveur == m.serveur &&
      u.historique == m.historique && u.mancheActuelle == m.mancheActuelle &&
      u.setsHistory == m.setsHistory && u.status == m.status &&
      u.servicesRestants == GetServicesPerPlayer(m.scoreActuel.a, m.scoreActuel.b)
  {
  }

  /**
   * Undoing the point that ended the match restores its score and server but
   * leaves the match finished, with the final set still in the set history.
   */
  lemma UndoMatchPointStaysFinished(m: MatchState, joueur: Player, id: string, timestamp: int)
    requires m.status == Playing
    requires ScorePoint(m, joueur, id, timestamp).status == Finished
    ensures var u := UndoPoint(ScorePoint(m, joueur, id, timestamp));
      u.status == Finished && u.scoreActuel == m.scoreActuel && u.serveur == m.serveur &&
      u.historique == m.historique && u.mancheActuelle == m.mancheActuelle &&
      u.setsHistory == m.setsHistory + [AddPoint(m.scoreActuel, joueur)]
  {
  }

  /** A configuration the setup form accepts puts the two players on opposite ends. */
  lemma ValidConfigSidesOpposite(config: MatchConfig, startTime: int)
    requires ValidConfig(config)
    ensures CreateNewMatch(config, startTime).coteActuel.a != CreateNewMatch(config, startTime).coteActuel.b
  {
  }

  /** Sides that start on opposite ends stay on opposite ends, whatever the command. */
  lemma SidesStayOpposite(m: MatchState, joueur: Player, id: string, timestamp: int)
    requires m.coteActuel.a != m.coteActuel.b
    ensures ScorePoint(m, joueur, id, timestamp).coteActuel.a != ScorePoint(m, joueur, id, timestamp).coteActuel.b
    ensures UndoPoint(m).coteActuel.a != UndoPoint(m).coteActuel.b
    ensures NewSet(m).coteActuel.a != NewSet(m).coteActuel.b
  {
  }

  /** A point to be scored, with the identifier and time the server gives it. */
  datatype PointInput = PointInput(joueur: Player, id: string, timestamp: int)

  /** The match after the points of `points`, scored in order. */
  function Replay(m: MatchState, points: seq<PointInput>): MatchState
    decreases |points|
  {
    if |points| == 0 then m
    else
      var p := points[0];
      Replay(ScorePoint(m, p.joueur, p.id, p.timestamp), points[1..])
  }

  /**
   * However many points are scored from a freshly configured match, the
   * match stays consistent: at most five sets, the service on schedule, the
   * sides and the fifth-set flag in step.
   */
  lemma {:induction false} ReplayConsistent(m: MatchState, points: seq<PointInput>)
    requires Consistent(m)
    ensures Consistent(Replay(m, points))
    decreases |points|
  {
    if |points| > 0 {
      var p := points[0];
      ScorePointKeepsWellFormed(m, p.joueur, p.id, p.timestamp);
      ScorePointKeepsSchedule(m, p.joueur, p.id, p.timestamp);
      ScorePointKeepsSides(m, p.joueur, p.id, p.timestamp);
      ReplayConsistent(ScorePoint(m, p.joueur, p.id, p.timestamp), points[1..]);
    }
  }

  /** Every match played from a configuration by scoring points alone is consistent. */
  lemma PlayedMatchConsistent(config: MatchConfig, startTime: int, points: seq<PointInput>)
    ensures Consistent(Replay(CreateNewMatch(config, startTime), points))
    ensures Replay(CreateNewMatch(config, startTime), points).mancheActuelle <= 5
  {
    NewMatchConsistent(config, startTime);
    ReplayConsistent(CreateNewMatch(config, startTime), points);
  }
}
