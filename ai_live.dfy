/** The web draft's live move choice (`get_ai_move` in app/ai.py): score every
    move the live engine ranks, from the player's cached profile and the
    move's rank, and draw one of them. The exponential weighting and the
    random draw are one injected function, `sample`, from the score list to
    an index. */
module LiveSelector {
  import opened Wrappers
  import opened Chess
  import opened MoveLists
  import opened StyleProfile

  /** The score of a candidate at index `i` of the ranking: a base of 0.01,
      plus 10 x aggression for a capture or check, plus 0.1 x the preference
      count of the moved piece (when it has one), minus i x (1 - precision). */
  function MoveScore(profile: Profile, aggressive: bool, pieceKey: char, i: nat): real {
    var aggressionBonus := if aggressive then profile.aggression * 10.0 else 0.0;
    var preferenceBonus :=
      if pieceKey in profile.piecePreference then profile.piecePreference[pieceKey] as real * 0.1 else 0.0;
    0.01 + aggressionBonus + preferenceBonus - i as real * (1.0 - profile.precision)
  }

  /** Moving a candidate from index `i` to index `j`, other things equal,
      changes its score by (j - i) x (1 - precision). */
  lemma RankPenalty(profile: Profile, aggressive: bool, pieceKey: char, i: nat, j: nat)
    ensures MoveScore(profile, aggressive, pieceKey, i) - MoveScore(profile, aggressive, pieceKey, j)
            == (j as real - i as real) * (1.0 - profile.precision)
  {
  }

  /** With precision 1.0 the rank penalty vanishes: the index does not matter. */
  lemma PerfectPrecisionIgnoresRank(profile: Profile, aggressive: bool, pieceKey: char, i: nat, j: nat)
    requires profile.precision == 1.0
    ensures MoveScore(profile, aggressive, pieceKey, i) == MoveScore(profile, aggressive, pieceKey, j)
  {
    RankPenalty(profile, aggressive, pieceKey, i, j);
  }

  /** A capture or check scores exactly 10 x aggression more than a quiet move. */
  lemma AggressionBonus(profile: Profile, pieceKey: char, i: nat)
    ensures MoveScore(profile, true, pieceKey, i) - MoveScore(profile, false, pieceKey, i)
            == 10.0 * profile.aggression
  {
  }

  /** A preferred piece scores 0.1 x its count more than a piece with no entry. */
  lemma PreferenceBonus(profile: Profile, aggressive: bool, preferred: char, other: char, i: nat)
    requires preferred in profile.piecePreference && other !in profile.piecePreference
    ensures MoveScore(profile, aggressive, preferred, i) - MoveScore(profile, aggressive, other, i)
            == 0.1 * profile.piecePreference[preferred] as real
  {
  }

  /** Every ranked move has a piece on its from-square (`get_ai_move` in app/ai.py raises otherwise). */
  predicate PiecesKnown<P, M(==)>(rules: Rules<P, M>, pos: P, ranked: seq<M>) {
    forall m :: m in ranked ==> rules.pieceAt(pos, m).Some?
  }

  /** The score a ranked move ends up with in `move_scores`: that of its last
      occurrence, since a later assignment to the same key overwrites. */
  function CandidateScore<P, M(==)>(rules: Rules<P, M>, profile: Profile, pos: P, ranked: seq<M>, m: M): real
    requires m in ranked && rules.pieceAt(pos, m).Some?
  {
    MoveScore(profile, rules.isCapture(pos, m) || rules.givesCheck(pos, m),
              Upper(Symbol(rules.pieceAt(pos, m).value)), LastIndex(ranked, m))
  }

  /** The scores of `order`, position by position (`list(probabilities.values())`). */
  function ScoreList<P, M(==)>(rules: Rules<P, M>, profile: Profile, pos: P, ranked: seq<M>, order: seq<M>)
    : (weights: seq<real>)
    requires PiecesKnown(rules, pos, ranked)
    requires forall m :: m in order ==> m in ranked
  {
    seq(|order|, j requires 0 <= j < |order| => CandidateScore(rules, profile, pos, ranked, order[j]))
  }

  /** `profile_cache.get(username, default)` */
  function CachedProfile(cache: map<string, Profile>, username: string): Profile {
    if username in cache then cache[username] else DefaultProfile()
  }

  /** The move the weighted draw picks: the candidates are the distinct
      ranked moves in first-occurrence order (the dict's key order), each
      weighted by its score. */
  function Draw<P, M(==)>(rules: Rules<P, M>, profile: Profile, pos: P, ranked: seq<M>, sample: seq<real> -> nat)
    : (m: M)
    requires ranked != [] && PiecesKnown(rules, pos, ranked)
    ensures m in ranked
  {
    var order := AppendMissing([], ranked);
    AppendMissingElements([], ranked);
    assert ranked[0] in order;
    order[sample(ScoreList(rules, profile, pos, ranked, order)) % |order|]
  }

  lemma CandidateScoreStep<P, M>(rules: Rules<P, M>, profile: Profile, pos: P, ranked: seq<M>, i: nat, m: M)
    requires i < |ranked| && m in ranked[..i + 1] && rules.pieceAt(pos, m).Some?
    ensures m != ranked[i] ==> m in ranked[..i]
    ensures CandidateScore(rules, profile, pos, ranked[..i + 1], m)
            == if m == ranked[i]
               then MoveScore(profile, rules.isCapture(pos, m) || rules.givesCheck(pos, m),
                              Upper(Symbol(rules.pieceAt(pos, m).value)), i)
               else CandidateScore(rules, profile, pos, ranked[..i], m)
  {
    var s := ranked[..i + 1];
    assert s[..|s| - 1] == ranked[..i];
    assert s[|s| - 1] == ranked[i];
    if m != ranked[i] {
      var k :| 0 <= k < |s| && s[k] == m;
      assert ranked[..i][k] == m;
    }
  }

  /** What the score table holds after the first `i` ranked moves. */
  predicate TableAfter<P, M(==)>(rules: Rules<P, M>, profile: Profile, pos: P, ranked: seq<M>, i: nat,
                                 order: seq<M>, scores: map<M, real>)
    requires i <= |ranked| && PiecesKnown(rules, pos, ranked)
  {
    && order == AppendMissing([], ranked[..i])
    && scores.Keys == Elements(ranked[..i])
    && (forall m :: m in ranked[..i] ==> scores[m] == CandidateScore(rules, profile, pos, ranked[..i], m))
  }

  /** Storing the score of `ranked[i]` extends the table to `i + 1` moves. */
  lemma TableStep<P, M>(rules: Rules<P, M>, profile: Profile, pos: P, ranked: seq<M>, i: nat,
                        order: seq<M>, scores: map<M, real>)
    requires i < |ranked| && PiecesKnown(rules, pos, ranked)
    requires TableAfter(rules, profile, pos, ranked, i, order, scores)
    ensures var m := ranked[i];
            TableAfter(rules, profile, pos, ranked, i + 1,
                       if m in scores then order else order + [m],
                       scores[m := MoveScore(profile, rules.isCapture(pos, m) || rules.givesCheck(pos, m),
                                             Upper(Symbol(rules.pieceAt(pos, m).value)), i)])
  {
    var m := ranked[i];
    assert m in ranked;
    var scores' := scores[m := MoveScore(profile, rules.isCapture(pos, m) || rules.givesCheck(pos, m),
                                         Upper(Symbol(rules.pieceAt(pos, m).value)), i)];
    AppendMissingElements([], ranked[..i]);
    assert ranked[..i + 1][..i] == ranked[..i];
    assert ranked[..i + 1] == ranked[..i] + [m];
    assert Elements(ranked[..i + 1]) == Elements(ranked[..i]) + {m};
    assert (m in scores) == (m in AppendMissing([], ranked[..i]));
    forall x | x in ranked[..i + 1]
      ensures scores'[x] == CandidateScore(rules, profile, pos, ranked[..i + 1], x)
    {
      assert x in ranked;
      CandidateScoreStep(rules, profile, pos, ranked, i, x);
    }
  }

  /** The scoring of one candidate at index `i`, step by step as the loop body
      of app/ai.py computes it. It is proved equal to `MoveScore`, and the
      score lemmas above are stated about that function. */
  method ScoreCandidate<P, M>(rules: Rules<P, M>, profile: Profile, pos: P, m: M, i: nat) returns (score: real)
    requires rules.pieceAt(pos, m).Some?
    ensures score == MoveScore(profile, rules.isCapture(pos, m) || rules.givesCheck(pos, m),
                               Upper(Symbol(rules.pieceAt(pos, m).value)), i)
  {
    score := 0.01;
    if rules.isCapture(pos, m) || rules.givesCheck(pos, m) {
      score := score + profile.aggression * 10.0;
    }
    var moved := Upper(Symbol(rules.pieceAt(pos, m).value));
    if moved in profile.piecePreference {
      score := score + profile.piecePreference[moved] as real * 0.1;
    }
    score := score - i as real * (1.0 - profile.precision);
  }

  /** The `move_scores` loop: score each ranked move in turn and store it
      under the move, which appends the move to the key order the first time. */
  method ScoreMoves<P, M(==)>(rules: Rules<P, M>, profile: Profile, pos: P, ranked: seq<M>)
    returns (order: seq<M>, scores: map<M, real>)
    requires PiecesKnown(rules, pos, ranked)
    ensures order == AppendMissing([], ranked)
    ensures forall m :: m in scores <==> m in ranked
    ensures forall m :: m in ranked ==> scores[m] == CandidateScore(rules, profile, pos, ranked, m)
  {
    order, scores := [], map[];
    for i := 0 to |ranked|
      invariant TableAfter(rules, profile, pos, ranked, i, order, scores)
    {
      var m := ranked[i];
      assert m in ranked;
      var score := ScoreCandidate(rules, profile, pos, m, i);
      TableStep(rules, profile, pos, ranked, i, order, scores);
      if m !in scores {
        order := order + [m];
      }
      scores := scores[m := score];
    }
    assert ranked[..|ranked|] == ranked;
  }

  /** Score the ranked moves and draw one, weighted by the scores in key order. */
  method ScoreAndDraw<P, M(==)>(rules: Rules<P, M>, profile: Profile, pos: P, ranked: seq<M>,
                                sample: seq<real> -> nat)
    returns (chosen: M)
    requires ranked != [] && PiecesKnown(rules, pos, ranked)
    ensures chosen in ranked
    ensures chosen == Draw(rules, profile, pos, ranked, sample)
  {
    var order, scores := ScoreMoves(rules, profile, pos, ranked);
    AppendMissingElements([], ranked);
    assert ranked[0] in order;
    assert forall m :: m in order ==> m in scores;
    var weights := seq(|order|, j requires 0 <= j < |order| => scores[order[j]]);
    assert weights == ScoreList(rules, profile, pos, ranked, order) by {
      var expected := ScoreList(rules, profile, pos, ranked, order);
      assert forall j :: 0 <= j < |order| ==> weights[j] == expected[j];
    }
    chosen := order[sample(weights) % |order|];
  }

  /** `get_ai_move(board, username)` with the live engine given as `engine`
      (`None` when it failed to start). Callers invoke it only on positions
      that still have legal moves: the fallbacks index the first one. */
  method AiMove<P, M(==)>(rules: Rules<P, M>, engine: Option<Oracle<P, M>>, cache: map<string, Profile>,
                          username: string, pos: P, sample: seq<real> -> nat)
    returns (chosen: M)
    requires rules.legalMoves(pos) != []
    requires engine.Some? ==> PiecesKnown(rules, pos, engine.value(pos, |rules.legalMoves(pos)|))
    ensures engine.None? ==> chosen == rules.legalMoves(pos)[0]
    ensures engine.Some? && engine.value(pos, |rules.legalMoves(pos)|) == [] ==> chosen == rules.legalMoves(pos)[0]
    ensures engine.Some? && engine.value(pos, |rules.legalMoves(pos)|) != [] ==>
              var ranked := engine.value(pos, |rules.legalMoves(pos)|);
              && chosen in ranked
              && chosen == Draw(rules, CachedProfile(cache, username), pos, ranked, sample)
  {
    var legal := rules.legalMoves(pos);
    if engine.None? {
      return legal[0];
    }
    var profile := CachedProfile(cache, username);
    var ranked := engine.value(pos, |legal|);
    if ranked == [] {
      return legal[0];
    }
    chosen := ScoreAndDraw(rules, profile, pos, ranked, sample);
  }
}
