/**
 * The scoring rules engine (server/src/utils/gameRules.ts): total functions
 * over score pairs, set histories and match snapshots, with no state of
 * their own.
 */
module GameRules {
  import opened Types

  function Abs(x: int): nat {
    if x < 0 then -x else x
  }

  function Opposite(s: Side): Side {
    if s == Gauche then Droite else Gauche
  }

  /** A set is over once a side has 11 points and a lead of two. */
  function IsSetWon(score: Score): (r: bool)
    ensures r <==> (score.a >= 11 && score.a >= score.b + 2) || (score.b >= 11 && score.b >= score.a + 2)
  {
    (score.a >= 11 || score.b >= 11) && Abs(score.a - score.b) >= 2
  }

  /** `p` is strictly ahead in a completed set; a tied pair counts for nobody. */
  predicate WonBy(pair: Score, p: Player) {
    if p == A then pair.a > pair.b else pair.b > pair.a
  }

  /** How many pairs of the set history `p` is strictly ahead in (the `filter(...).length`). */
  function SetsWon(sets: seq<Score>, p: Player): (n: nat)
    ensures n <= |sets|
  {
    if |sets| == 0 then 0
    else SetsWon(sets[..|sets| - 1], p) + (if WonBy(sets[|sets| - 1], p) then 1 else 0)
  }

  /** Best of five: the match is over once a side has three sets. */
  function IsMatchFinished(setsHistory: seq<Score>): (r: bool)
    ensures r ==> |setsHistory| >= 3
    ensures !r ==> SetsWon(setsHistory, A) <= 2 && SetsWon(setsHistory, B) <= 2
  {
    SetsWon(setsHistory, A) >= 3 || SetsWon(setsHistory, B) >= 3
  }

  /** When no pair is tied, every completed set is counted for exactly one side. */
  lemma {:induction false} SetsWonPartition(sets: seq<Score>)
    requires forall i | 0 <= i < |sets| :: sets[i].a != sets[i].b
    ensures SetsWon(sets, A) + SetsWon(sets, B) == |sets|
  {
    if |sets| > 0 {
      SetsWonPartition(sets[..|sets| - 1]);
    }
  }

  /** Five won sets always decide a best-of-five match. */
  lemma BestOfFive(sets: seq<Score>)
    requires |sets| == 5
    requires forall i | 0 <= i < |sets| :: IsSetWon(sets[i])
    ensures IsMatchFinished(sets)
  {
    SetsWonPartition(sets);
  }

  /** A finished match stays finished whatever set is appended. */
  lemma MatchFinishedPersists(sets: seq<Score>, next: Score)
    requires IsMatchFinished(sets)
    ensures IsMatchFinished(sets + [next])
  {
  }

  /** Two serves each, one each once both sides have reached 10. */
  function GetServicesPerPlayer(scoreA: nat, scoreB: nat): (r: int)
    ensures r == 1 || r == 2
    ensures r == 1 <==> scoreA >= 10 && scoreB >= 10
  {
    if scoreA >= 10 && scoreB >= 10 then 1 else 2
  }

  /** The hand-over test looks only at the remaining serves; the score is ignored. */
  function ShouldChangeServer(servicesRestants: int, scoreA: nat, scoreB: nat): bool
  {
    servicesRestants <= 0
  }

  /** Whatever the two scores are, the hand-over decision for a given serve count is the same. */
  lemma HandOverIgnoresScore(servicesRestants: int, scoreA: nat, scoreB: nat, otherA: nat, otherB: nat)
    ensures ShouldChangeServer(servicesRestants, scoreA, scoreB) == ShouldChangeServer(servicesRestants, otherA, otherB)
  {
  }

  function GetNextServer(currentServer: Player): (r: Player)
    ensures r != currentServer
  {
    if currentServer == A then B else A
  }

  /** Odd sets open with the match's first server, even sets with the other side. */
  function GetFirstServerNextSet(currentFirstServer: Player, setNumber: nat): (r: Player)
    ensures r == currentFirstServer <==> setNumber % 2 == 1
  {
    if setNumber % 2 == 1 then currentFirstServer else GetNextServer(currentFirstServer)
  }

  /** Consecutive sets are opened by different sides. */
  lemma FirstServersAlternate(first: Player, setNumber: nat)
    ensures GetFirstServerNextSet(first, setNumber + 1) != GetFirstServerNextSet(first, setNumber)
  {
  }

  datatype ServiceState = ServiceState(serveur: Player, servicesRestants: int)

  /**
   * The server and remaining serves after `pointWinner` scores in `state`.
   * The post-point score decides only how many serves the next server gets;
   * the score itself is committed by the caller.
   */
  function UpdateServiceState(state: MatchState, pointWinner: Player): (r: ServiceState)
    ensures state.servicesRestants - 1 <= 0 ==>
      r.serveur == GetNextServer(state.serveur) &&
      r.servicesRestants == (var s := AddPoint(state.scoreActuel, pointWinner); GetServicesPerPlayer(s.a, s.b))
    ensures state.servicesRestants - 1 > 0 ==>
      r.serveur == state.serveur && r.servicesRestants == state.servicesRestants - 1
    ensures 1 <= state.servicesRestants <= 2 ==> 1 <= r.servicesRestants <= 2
  {
    var newScore := AddPoint(state.scoreActuel, pointWinner);
    var servicesPerPlayer := GetServicesPerPlayer(newScore.a, newScore.b);
    var newServicesRestants := state.servicesRestants - 1;
    if ShouldChangeServer(newServicesRestants, newScore.a, newScore.b) then
      ServiceState(GetNextServer(state.serveur), servicesPerPlayer)
    else
      ServiceState(state.serveur, newServicesRestants)
  }

  /**
   * The table-tennis service order as a function of the score alone, for a
   * set opened by `first`: blocks of two serves, then one each from 10-10.
   */
  function ScheduledServer(first: Player, s: Score): Player {
    var n := s.a + s.b;
    if s.a >= 10 && s.b >= 10 then
      (if n % 2 == 0 then first else GetNextServer(first))
    else
      (if (n / 2) % 2 == 0 then first else GetNextServer(first))
  }

  /** The serves the scheduled server still has at score `s`. */
  function ScheduledServes(s: Score): int {
    if s.a >= 10 && s.b >= 10 then 1 else 2 - (s.a + s.b) % 2
  }

  /**
   * One point played from an on-schedule state leaves the service on
   * schedule: the rotation rule of UpdateServiceState is the service order.
   */
  lemma ServiceRotation(first: Player, state: MatchState, pointWinner: Player)
    requires !IsSetWon(state.scoreActuel)
    requires state.serveur == ScheduledServer(first, state.scoreActuel)
    requires state.servicesRestants == ScheduledServes(state.scoreActuel)
    ensures var s := AddPoint(state.scoreActuel, pointWinner);
            var r := UpdateServiceState(state, pointWinner);
            r.serveur == ScheduledServer(first, s) && r.servicesRestants == ScheduledServes(s)
  {
    var s0 := state.scoreActuel;
    var s := AddPoint(s0, pointWinner);
    var n := s0.a + s0.b;
    assert s.a + s.b == n + 1;
    if !(s.a >= 10 && s.b >= 10) {
      if n % 2 == 0 {
        assert (n + 1) / 2 == n / 2;
      } else {
        assert (n + 1) / 2 == n / 2 + 1;
      }
    } else if !(s0.a >= 10 && s0.b >= 10) {
      assert n == 19;
    }
  }

  /**
   * The side-change decision between two snapshots: the end-of-set swap when
   * the set number went up, or the single extra swap of the fifth set on the
   * point where the leading score first reaches 5.
   */
  function ShouldChangeSides(oldState: MatchState, newState: MatchState): (r: bool)
    ensures oldState.mancheActuelle < newState.mancheActuelle ==> r
    ensures oldState.mancheActuelle >= newState.mancheActuelle ==>
      (r <==> newState.mancheActuelle == 5 && !newState.changementCoteEffectue &&
              MaxScore(newState.scoreActuel) == 5 && MaxScore(oldState.scoreActuel) < 5)
    ensures oldState.mancheActuelle >= newState.mancheActuelle && newState.changementCoteEffectue ==> !r
  {
    if oldState.mancheActuelle < newState.mancheActuelle then true
    else if newState.mancheActuelle == 5 && !newState.changementCoteEffectue then
      var maxScore := MaxScore(newState.scoreActuel);
      var oldMaxScore := MaxScore(oldState.scoreActuel);
      maxScore == 5 && oldMaxScore < 5
    else false
  }

  /** Both players move to the other end. */
  function ChangeSides(state: MatchState): (r: Sides)
    ensures r.a != state.coteActuel.a && r.b != state.coteActuel.b
    ensures (r.a == r.b) <==> (state.coteActuel.a == state.coteActuel.b)
  {
    Sides(Opposite(state.coteActuel.a), Opposite(state.coteActuel.b))
  }

  /** Changing sides twice brings both players back. */
  lemma ChangeSidesTwice(state: MatchState)
    ensures ChangeSides(state.(coteActuel := ChangeSides(state))) == state.coteActuel
  {
  }

  // Each banner's leading symbol is written as its own literal, so that the
  // banners are told apart by their first character.

  const NextPointWarning: string :=
    "\U{26A0}" + "\U{FE0F} ATTENTION : Changement de c\U{F4}t\U{E9} au prochain point !"

  const SwapDoneMessage: string :=
    "\U{2705}" + " Changement de c\U{F4}t\U{E9} effectu\U{E9}"

  function CountdownMessage(maxScore: nat): (r: string)
    ensures |r| > 0 && r[0] == '\U{1F504}'
  {
    "\U{1F504}" + (" Changement de c\U{F4}t\U{E9} \U{E0} 5 points (actuellement " + NatToString(maxScore) + ")")
  }

  function DigitChar(d: nat): char
    requires d < 10
  {
    "0123456789"[d]
  }

  /** Decimal rendering of `n`, as a template literal prints it. */
  function NatToString(n: nat): string {
    if n < 10 then [DigitChar(n)] else NatToString(n / 10) + [DigitChar(n % 10)]
  }

  /** The referee's fifth-set side-change banner; no banner outside set 5. */
  function GetSideChangeMessage(state: MatchState): (r: string)
    ensures r == NextPointWarning <==>
      state.mancheActuelle == 5 && !state.changementCoteEffectue && MaxScore(state.scoreActuel) == 4
    ensures state.mancheActuelle == 5 && !state.changementCoteEffectue && MaxScore(state.scoreActuel) != 4 ==>
      r == CountdownMessage(MaxScore(state.scoreActuel))
    ensures state.mancheActuelle == 5 && state.changementCoteEffectue ==> r == SwapDoneMessage
    ensures r == "" <==> state.mancheActuelle != 5
  {
    if state.mancheActuelle == 5 && !state.changementCoteEffectue then
      var maxScore := MaxScore(state.scoreActuel);
      if maxScore == 4 then NextPointWarning
      else
        assert NextPointWarning[0] == '\U{26A0}';
        CountdownMessage(maxScore)
    else if state.mancheActuelle == 5 && state.changementCoteEffectue then
      SwapDoneMessage
    else
      ""
  }
}
