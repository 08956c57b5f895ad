/**
 * The loader of persisted snapshots on the client
 * (client/src/utils/stateCompatibility.ts): it refuses a snapshot without a
 * configuration or a score and fills in, on the object itself, the side
 * fields that older snapshots lack.
 */
module StateCompatibility {
  import opened Wrappers
  import opened Types

  /** The configuration object of a persisted snapshot; older ones lack the initial ends. */
  class SavedConfig {
    var typeMatch: MatchKind
    var joueurA: string
    var joueurB: string
    var equipierA: Option<string>
    var equipierB: Option<string>
    var premierServeur: Player
    var coteInitialA: Option<Side>
    var coteInitialB: Option<Side>

    function Ends(): ConfigEnds
      reads this
    {
      ConfigEnds(coteInitialA, coteInitialB)
    }
  }

  /**
   * A persisted snapshot as read back: `config` may be missing (null), and so
   * may the score, the current ends and the fifth-set flag.
   */
  class SavedState {
    var config: SavedConfig?
    var mancheActuelle: nat
    var scoreActuel: Option<Score>
    var setsHistory: seq<Score>
    var serveur: Player
    var servicesRestants: int
    var historique: seq<HistoriquePoint>
    var status: Status
    var startTime: Option<int>
    var coteActuel: Option<Sides>
    var changementCoteEffectue: Option<bool>

    /** The fields the loader looks at or fills in. */
    function View(): SnapshotView
      reads this, config
    {
      SnapshotView(
        if config == null then None else Some(config.Ends()),
        scoreActuel, coteActuel, changementCoteEffectue)
    }
  }

  datatype ConfigEnds = ConfigEnds(coteInitialA: Option<Side>, coteInitialB: Option<Side>)

  datatype SnapshotView = SnapshotView(
    config: Option<ConfigEnds>,
    scoreActuel: Option<Score>,
    coteActuel: Option<Sides>,
    changementCoteEffectue: Option<bool>)

  /**
   * The loader on the fields it concerns: None for an incompatible snapshot,
   * otherwise the snapshot with the missing side fields filled in.
   */
  function Migrated(v: SnapshotView): (r: Option<SnapshotView>)
    ensures r.None? <==> v.config.None? || v.scoreActuel.None?
    ensures r.Some? ==> r.value.scoreActuel == v.scoreActuel
    ensures r.Some? && v.coteActuel.Some? ==> r.value.coteActuel == v.coteActuel
    ensures r.Some? && v.coteActuel.None? ==>
      r.value.coteActuel ==
        Some(Sides(v.config.value.coteInitialA.GetOr(Gauche), v.config.value.coteInitialB.GetOr(Droite)))
    ensures r.Some? ==>
      r.value.changementCoteEffectue ==
        (if v.changementCoteEffectue.None? then Some(false) else v.changementCoteEffectue)
    ensures r.Some? && v.config.value.coteInitialA.None? ==>
      r.value.config == Some(ConfigEnds(Some(Gauche), Some(Droite)))
    ensures r.Some? && v.config.value.coteInitialA.Some? ==> r.value.config == v.config
  {
    if v.config.None? || v.scoreActuel.None? then None
    else
      var ends := v.config.value;
      var coteActuel :=
        if v.coteActuel.None? then Some(Sides(ends.coteInitialA.GetOr(Gauche), ends.coteInitialB.GetOr(Droite)))
        else v.coteActuel;
      var flag := if v.changementCoteEffectue.None? then Some(false) else v.changementCoteEffectue;
      var config := if ends.coteInitialA.None? then ConfigEnds(Some(Gauche), Some(Droite)) else ends;
      Some(SnapshotView(Some(config), v.scoreActuel, coteActuel, flag))
  }

  /** A migrated snapshot has its current ends, its flag and its first player's initial end. */
  predicate Complete(v: SnapshotView) {
    v.config.Some? && v.scoreActuel.Some? && v.coteActuel.Some? &&
    v.changementCoteEffectue.Some? && v.config.value.coteInitialA.Some?
  }

  lemma MigratedComplete(v: SnapshotView)
    requires Migrated(v).Some?
    ensures Complete(Migrated(v).value)
  {
  }

  /** Loading a snapshot that was already loaded changes nothing. */
  lemma MigrateIdempotent(v: SnapshotView)
    requires Migrated(v).Some?
    ensures Migrated(Migrated(v).value) == Migrated(v)
  {
  }

  /**
   * `migrateMatchState`: null for a missing or non-object snapshot (both
   * stand as `null` here) and for one without configuration or score;
   * otherwise the same object, completed in place.
   */
  method MigrateMatchState(savedState: SavedState?) returns (r: SavedState?)
    modifies savedState, if savedState != null && savedState.config != null then {savedState.config} else {}
    ensures savedState == null ==> r == null
    ensures savedState != null ==> (r == null <==> Migrated(old(savedState.View())).None?)
    ensures r != null ==> r == savedState && r.View() == Migrated(old(savedState.View())).value
    ensures savedState != null && r == null ==> savedState.View() == old(savedState.View())
    ensures savedState != null ==>
      savedState.config == old(savedState.config) &&
      savedState.mancheActuelle == old(savedState.mancheActuelle) &&
      savedState.setsHistory == old(savedState.setsHistory) &&
      savedState.serveur == old(savedState.serveur) &&
      savedState.servicesRestants == old(savedState.servicesRestants) &&
      savedState.historique == old(savedState.historique) &&
      savedState.status == old(savedState.status) &&
      savedState.startTime == old(savedState.startTime)
    ensures savedState != null && savedState.config != null ==>
      savedState.config.typeMatch == old(savedState.config.typeMatch) &&
      savedState.config.joueurA == old(savedState.config.joueurA) &&
      savedState.config.joueurB == old(savedState.config.joueurB) &&
      savedState.config.equipierA == old(savedState.config.equipierA) &&
      savedState.config.equipierB == old(savedState.config.equipierB) &&
      savedState.config.premierServeur == old(savedState.config.premierServeur)
  {
    if savedState == null {
      return null;
    }
    if savedState.config == null || savedState.scoreActuel.None? {
      return null;
    }
    if savedState.coteActuel.None? {
      savedState.coteActuel := Some(Sides(
        savedState.config.coteInitialA.GetOr(Gauche),
        savedState.config.coteInitialB.GetOr(Droite)));
    }
    if savedState.changementCoteEffectue.None? {
      savedState.changementCoteEffectue := Some(false);
    }
    if savedState.config.coteInitialA.None? {
      savedState.config.coteInitialA := Some(Gauche);
      savedState.config.coteInitialB := Some(Droite);
    }
    return savedState;
  }
}
