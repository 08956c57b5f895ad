/**
 * The entities of the referee server (server/src/types.ts), as values.
 * Times and identifiers are opaque: the server takes them from the clock.
 */
module Types {
  import opened Wrappers

  /** The two competing sides of the table. */
  datatype Player = A | B

  /** A player's end of the table. */
  datatype Side = Gauche | Droite

  datatype MatchKind = Simple | Double

  datatype PointKind = Normal | Service | Faute

  datatype Status = Setup | Playing | Paused | Finished

  /** An in-set score pair: points of A, points of B. */
  datatype Score = Score(a: nat, b: nat)

  /** The current end of each player (`coteActuel`). */
  datatype Sides = Sides(a: Side, b: Side)

  datatype MatchConfig = MatchConfig(
    typeMatch: MatchKind,
    joueurA: string,
    joueurB: string,
    equipierA: Option<string>,
    equipierB: Option<string>,
    premierServeur: Player,
    coteInitialA: Side,
    coteInitialB: Side)

  /** One committed point of the history. */
  datatype HistoriquePoint = HistoriquePoint(
    id: string,
    timestamp: int,
    manche: nat,
    avant: Score,
    apres: Score,
    gagnant: Player,
    serveur: Player,
    typePoint: PointKind)

  /** The single authoritative match snapshot. */
  datatype MatchState = MatchState(
    config: MatchConfig,
    mancheActuelle: nat,
    scoreActuel: Score,
    setsHistory: seq<Score>,
    serveur: Player,
    servicesRestants: int,
    historique: seq<HistoriquePoint>,
    status: Status,
    startTime: int,
    coteActuel: Sides,
    changementCoteEffectue: bool)

  /** The score after `winner` takes one more point. */
  function AddPoint(s: Score, winner: Player): (r: Score)
    ensures winner == A ==> r.a == s.a + 1 && r.b == s.b
    ensures winner == B ==> r.b == s.b + 1 && r.a == s.a
  {
    if winner == A then Score(s.a + 1, s.b) else Score(s.a, s.b + 1)
  }

  /** The higher of the two scores (`Math.max(score[0], score[1])`). */
  function MaxScore(s: Score): (r: nat)
    ensures r >= s.a && r >= s.b && (r == s.a || r == s.b)
  {
    if s.a >= s.b then s.a else s.b
  }

  /**
   * What the configuration form demands before it sends a configuration
   * (client/src/pages/Setup.tsx): both primary names filled in, and the two
   * players on opposite ends (the radio buttons always set both ends at once).
   */
  predicate ValidConfig(c: MatchConfig) {
    |c.joueurA| > 0 && |c.joueurB| > 0 && c.coteInitialA != c.coteInitialB
  }
}
