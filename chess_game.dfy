/** The console draft: the ranked-move completion, the move logger and the
    aggregation over the logged history. The console loop itself (input,
    screen output, the engine's own move) is not modelled. */
module ChessGame {
  import opened Wrappers
  import opened Chess
  import opened MoveLists
  import opened MoveRecords

  /** The most moves the engine is asked to rank. */
  const TopMovesLimit: nat := 15

  function Min(a: nat, b: nat): (m: nat)
    ensures m <= a && m <= b && (m == a || m == b)
  {
    if a <= b then a else b
  }

  /** The engine's answer when asked for min(#legal, 15) moves. */
  function EngineTop<P, M>(rules: Rules<P, M>, engine: Oracle<P, M>, pos: P): seq<M> {
    engine(pos, Min(|rules.legalMoves(pos)|, TopMovesLimit))
  }

  /** `get_ranked_moves`: the engine's top moves, then every legal move the
      engine left out, in enumeration order. */
  method RankedMoves<P, M(==)>(rules: Rules<P, M>, engine: Oracle<P, M>, pos: P) returns (ranked: seq<M>)
    ensures ranked == AppendMissing(EngineTop(rules, engine, pos), rules.legalMoves(pos))
    ensures var top := EngineTop(rules, engine, pos);
      |top| <= |ranked| && ranked[..|top|] == top
    ensures forall m :: m in ranked <==> m in EngineTop(rules, engine, pos) || m in rules.legalMoves(pos)
    ensures NoDup(EngineTop(rules, engine, pos)) ==> NoDup(ranked)
    ensures NoDup(rules.legalMoves(pos)) ==>
              ranked == EngineTop(rules, engine, pos)
                        + Without(rules.legalMoves(pos), EngineTop(rules, engine, pos))
    ensures var top, legal := EngineTop(rules, engine, pos), rules.legalMoves(pos);
      NoDup(top) && NoDup(legal) && (forall m :: m in top ==> m in legal) ==> |ranked| == |legal|
  {
    var legal := rules.legalMoves(pos);
    ranked := engine(pos, Min(|legal|, TopMovesLimit));
    ghost var top := ranked;
    for i := 0 to |legal|
      invariant ranked == AppendMissing(top, legal[..i])
    {
      assert legal[..i + 1][..i] == legal[..i];
      if legal[i] !in ranked {
        ranked := ranked + [legal[i]];
      }
    }
    assert legal[..|legal|] == legal;
    AppendMissingKeepsPrefix(top, legal);
    AppendMissingElements(top, legal);
    if NoDup(top) {
      AppendMissingNoDup(top, legal);
    }
    if NoDup(legal) {
      AppendMissingIsPrefixThenMissing(top, legal);
    }
    if NoDup(top) && NoDup(legal) && (forall m :: m in top ==> m in legal) {
      MergedLength(top, legal);
    }
  }

  /** `ranked_moves.index(move_uci) + 1`: the 1-based position of the move in
      the completed ranking (the library raises when it is absent). */
  function LoggedRank<M(==)>(ranked: seq<M>, m: M): (rank: nat)
    requires m in ranked
    ensures 1 <= rank <= |ranked|
    ensures ranked[rank - 1] == m && m !in ranked[..rank - 1]
  {
    IndexOf(ranked, m) + 1
  }

  /** The logging step of the player's turn: parse the typed move, rank it in
      the completed ranking, and record it. `None` stands for the exception
      path that rejects the input ("Illegal or invalid move"). */
  method LogMove<P, M(==)>(rules: Rules<P, M>, engine: Oracle<P, M>, pos: P, san: string)
    returns (rec: Option<MoveRecord>)
    ensures rec.Some? ==> rules.parseSan(pos, san).Some?
    ensures rec.Some? ==> WellRanked(rec.value) && rec.value.totalOptions > 0 && IsSymbol(rec.value.piece)
    ensures rec.Some? ==>
              var m := rules.parseSan(pos, san).value;
              var ranked := AppendMissing(EngineTop(rules, engine, pos), rules.legalMoves(pos));
              && rules.pieceAt(pos, m).Some?
              && rec.value.piece == Symbol(rules.pieceAt(pos, m).value)
              && rec.value.totalOptions == |ranked|
              && ranked[rec.value.rank - 1] == m && m !in ranked[..rec.value.rank - 1]
              && rec.value.isCapture == rules.isCapture(pos, m)
              && rec.value.isCheck == rules.givesCheck(pos, m)
    ensures (rules.parseSan(pos, san).Some?
             && rules.parseSan(pos, san).value in rules.legalMoves(pos)
             && rules.pieceAt(pos, rules.parseSan(pos, san).value).Some?) ==> rec.Some?
  {
    var ranked := RankedMoves(rules, engine, pos);
    var parsed := rules.parseSan(pos, san);
    if parsed.None? {
      return None;
    }
    var m := parsed.value;
    assert ranked == AppendMissing(EngineTop(rules, engine, pos), rules.legalMoves(pos));
    if m !in ranked {
      return None;
    }
    var rank := LoggedRank(ranked, m);
    var piece := rules.pieceAt(pos, m);
    if piece.None? {
      return None;
    }
    rec := Some(MoveRecord(rank, |ranked|, Symbol(piece.value), rules.isCapture(pos, m), rules.givesCheck(pos, m)));
  }

  /** The console draft's profile. */
  datatype StyleSummary = StyleSummary(aggression: real, avgRankPercent: real, piecePreference: map<char, nat>)

  /** `analyze_player_style(history)` over logged records. It divides by every
      record's `total_options`, so callers pass records made against a
      non-empty ranking, as `LogMove` produces. */
  method AnalyzeHistory(history: seq<MoveRecord>) returns (s: StyleSummary)
    requires AllOffered(history)
    ensures history == [] ==> s == StyleSummary(0.0, 0.0, map[])
    ensures history != [] ==>
              && s.aggression == Aggression(history)
              && s.avgRankPercent == MeanRankPercent(history)
              && s.piecePreference == PieceTally(history)
    ensures 0.0 <= s.aggression <= 1.0
    ensures history != [] && AllWellRanked(history) ==> 0.0 < s.avgRankPercent <= 1.0
    ensures AllSymbols(history) ==>
              && SixKindTotal(s.piecePreference) == |history|
              && forall k :: k in s.piecePreference ==> k in "PNBRQK"
  {
    if history == [] {
      return StyleSummary(0.0, 0.0, map[]);
    }
    var aggression := Aggression(history);
    var avgRankPercent := MeanRankPercent(history);
    var counts := PieceCounts(history);
    s := StyleSummary(aggression, avgRankPercent, counts);
    if AllSymbols(history) {
      PieceTallyTotals(history);
    }
  }
}
