/** The web draft's profile builder (`analyze_player_style` in app/ai.py):
    replay each stored game from the starting position, rank every move at an
    even ply against the analysis engine, and aggregate the records. */
module StyleProfile {
  import opened Wrappers
  import opened Chess
  import opened MoveLists
  import opened MoveRecords

  datatype Profile = Profile(aggression: real, precision: real, piecePreference: map<char, nat>)

  /** The fixed profile used when there is nothing to analyse. */
  function DefaultProfile(): Profile {
    Profile(0.2, 0.8, map[])
  }

  /** A stored game: the `move_san` of each ply, in order. */
  type GameMoves = seq<string>

  /** `ranked_moves.index(uci) + 1` if the move is ranked, else `len(ranked_moves)`. */
  function RankOf<M(==)>(ranked: seq<M>, m: M): (rank: nat)
    ensures m in ranked ==> 1 <= rank <= |ranked| && ranked[rank - 1] == m && m !in ranked[..rank - 1]
    ensures m !in ranked ==> rank == |ranked|
    ensures ranked != [] ==> 1 <= rank <= |ranked|
    ensures ranked == [] ==> rank == 0
  {
    if m in ranked then IndexOf(ranked, m) + 1 else |ranked|
  }

  /** The record made at a player ply, or `None` where the Python `try`
      block fails (the SAN does not parse, or there is no piece on the
      move's from-square) and the ply is skipped by `continue`. */
  function PlyRecord<P, M(==)>(rules: Rules<P, M>, engine: Oracle<P, M>, pos: P, san: string): (r: Option<MoveRecord>)
    ensures r.Some? ==> rules.parseSan(pos, san).Some?
    ensures r.Some? ==> WellRanked(r.value) && IsSymbol(r.value.piece)
    ensures r.Some? ==> r.value.totalOptions == |engine(pos, |rules.legalMoves(pos)|)|
    ensures r.None? <==> rules.parseSan(pos, san).None? || rules.pieceAt(pos, rules.parseSan(pos, san).value).None?
  {
    var ranked := engine(pos, |rules.legalMoves(pos)|);
    match rules.parseSan(pos, san)
    case None => None
    case Some(m) =>
      match rules.pieceAt(pos, m)
      case None => None
      case Some(piece) =>
        Some(MoveRecord(RankOf(ranked, m), |ranked|, Symbol(piece), rules.isCapture(pos, m), rules.givesCheck(pos, m)))
  }

  /** The number of even indices in [i, n). */
  function EvenPlies(i: nat, n: nat): nat {
    if i >= n then 0 else (n + 1) / 2 - (i + 1) / 2
  }

  /** The records a game contributes from ply `i` on, with the replay board at
      `pos`: a player ply whose record fails is skipped without advancing the
      board; any other ply advances it with `push_san`, and a failing
      `push_san` ends the game's replay. */
  function GameRecords<P, M(==)>(rules: Rules<P, M>, engine: Oracle<P, M>, game: GameMoves, pos: P, i: nat)
    : (records: seq<MoveRecord>)
    ensures |records| <= EvenPlies(i, |game|)
    decreases |game| - i
  {
    if i >= |game| then []
    else if i % 2 == 0 && PlyRecord(rules, engine, pos, game[i]).None? then
      GameRecords(rules, engine, game, pos, i + 1)
    else
      var own := if i % 2 == 0 then [PlyRecord(rules, engine, pos, game[i]).value] else [];
      var rest := match rules.parseSan(pos, game[i])
        case None => []
        case Some(m) => GameRecords(rules, engine, game, rules.push(pos, m), i + 1);
      assert forall k :: |own| <= k < |own + rest| ==> (own + rest)[k] == rest[k - |own|];
      own + rest
  }

  /** Every replayed record satisfies the rank invariant and names a piece symbol. */
  lemma {:induction false} GameRecordsWellFormed<P, M>(rules: Rules<P, M>, engine: Oracle<P, M>,
                                                           game: GameMoves, pos: P, i: nat)
    ensures var records := GameRecords(rules, engine, game, pos, i);
      AllWellRanked(records) && AllSymbols(records)
    decreases |game| - i
  {
    if i < |game| {
      if i % 2 == 0 && PlyRecord(rules, engine, pos, game[i]).None? {
        GameRecordsWellFormed(rules, engine, game, pos, i + 1);
      } else if rules.parseSan(pos, game[i]).Some? {
        GameRecordsWellFormed(rules, engine, game, rules.push(pos, rules.parseSan(pos, game[i]).value), i + 1);
      }
    }
  }

  /** The records of all games, pooled in game order. */
  function AllRecords<P, M(==)>(rules: Rules<P, M>, engine: Oracle<P, M>, games: seq<GameMoves>)
    : (records: seq<MoveRecord>)
    ensures AllWellRanked(records) && AllSymbols(records)
    decreases |games|
  {
    if games == [] then []
    else
      var before := AllRecords(rules, engine, games[..|games| - 1]);
      var last := GameRecords(rules, engine, games[|games| - 1], rules.initial, 0);
      GameRecordsWellFormed(rules, engine, games[|games| - 1], rules.initial, 0);
      assert forall k :: |before| <= k < |before + last| ==> (before + last)[k] == last[k - |before|];
      before + last
  }

  /** Games are analysed independently: the records of a list of games are
      those of its parts, one after the other, so a game whose replay stops
      early takes nothing away from the others. */
  lemma {:induction false} AllRecordsAppend<P, M>(rules: Rules<P, M>, engine: Oracle<P, M>,
                                                      a: seq<GameMoves>, b: seq<GameMoves>)
    ensures AllRecords(rules, engine, a + b) == AllRecords(rules, engine, a) + AllRecords(rules, engine, b)
    decreases |b|
  {
    if b != [] {
      var b' := b[..|b| - 1];
      assert (a + b)[..|a + b| - 1] == a + b';
      assert (a + b)[|a + b| - 1] == b[|b| - 1];
      AllRecordsAppend(rules, engine, a, b');
    } else {
      assert a + b == a;
    }
  }

  lemma PrefixAfterSame<T>(own: seq<T>, a: seq<T>, b: seq<T>)
    requires a <= b
    ensures own + a <= own + b
  {
    assert (own + b)[..|own + a|] == own + b[..|a|];
  }

  /** A record, once made, is never undone by what follows: the records of a
      truncated game are a prefix of the records of the whole game, whatever
      the later plies hold (including one that stops the replay). */
  lemma {:induction false} GameRecordsPrefix<P, M>(rules: Rules<P, M>, engine: Oracle<P, M>,
                                                       game: GameMoves, k: nat, pos: P, i: nat)
    requires i <= k <= |game|
    ensures GameRecords(rules, engine, game[..k], pos, i) <= GameRecords(rules, engine, game, pos, i)
    decreases |game| - i
  {
    if i == k {
      assert GameRecords(rules, engine, game[..k], pos, i) == [];
    } else {
      var short := game[..k];
      assert short[i] == game[i];
      if i % 2 == 0 && PlyRecord(rules, engine, pos, game[i]).None? {
        GameRecordsPrefix(rules, engine, game, k, pos, i + 1);
        SkipStep(rules, engine, short, pos, i);
        SkipStep(rules, engine, game, pos, i);
      } else {
        var own := if i % 2 == 0 then [PlyRecord(rules, engine, pos, game[i]).value] else [];
        if rules.parseSan(pos, game[i]).None? {
          StopStep(rules, engine, short, pos, i, own);
          StopStep(rules, engine, game, pos, i, own);
        } else {
          var next := rules.push(pos, rules.parseSan(pos, game[i]).value);
          GameRecordsPrefix(rules, engine, game, k, next, i + 1);
          PushStep(rules, engine, short, pos, i, own, next);
          PushStep(rules, engine, game, pos, i, own, next);
          PrefixAfterSame(own, GameRecords(rules, engine, short, next, i + 1), GameRecords(rules, engine, game, next, i + 1));
        }
      }
    }
  }

  /** The aggregate profile of a set of records. */
  function ProfileOf(records: seq<MoveRecord>): (p: Profile)
    ensures records == [] ==> p == DefaultProfile()
    ensures records != [] ==>
              && p.aggression == Aggression(records)
              && p.precision == 1.0 - MeanRankPercent(records)
              && p.piecePreference == PieceTally(records)
    ensures 0.0 <= p.aggression <= 1.0
    ensures AllWellRanked(records) ==> 0.0 <= p.precision <= 1.0
    ensures records != [] && AllWellRanked(records) && AllOffered(records) ==> p.precision < 1.0
    ensures AllSymbols(records) ==>
              && SixKindTotal(p.piecePreference) == |records|
              && forall k :: k in p.piecePreference ==> k in "PNBRQK"
  {
    if records == [] then DefaultProfile()
    else
      PieceTallyTotalsIf(records);
      Profile(Aggression(records), 1.0 - MeanRankPercent(records), PieceTally(records))
  }

  lemma PieceTallyTotalsIf(records: seq<MoveRecord>)
    ensures AllSymbols(records) ==>
              && SixKindTotal(PieceTally(records)) == |records|
              && forall k :: k in PieceTally(records) ==> k in "PNBRQK"
  {
    if AllSymbols(records) {
      PieceTallyTotals(records);
    }
  }

  /** A player who always picked the engine's top move out of `t` options.
      The formula gives 1 - 1/t, never 1.0, because the top rank is 1. */
  lemma TopMovePrecision(t: nat)
    requires t > 0
    ensures ProfileOf([MoveRecord(1, t, 'P', false, false)]).precision == 1.0 - 1.0 / t as real
    ensures ProfileOf([MoveRecord(1, t, 'P', false, false)]).precision < 1.0
  {
    var r := MoveRecord(1, t, 'P', false, false);
    assert RankPercentSum([r]) == 1.0 / t as real by {
      assert [r][1..] == [];
    }
  }

  /** A player ply whose record fails is skipped: the board is not advanced. */
  lemma SkipStep<P, M>(rules: Rules<P, M>, engine: Oracle<P, M>, game: GameMoves, pos: P, i: nat)
    requires i < |game| && i % 2 == 0 && PlyRecord(rules, engine, pos, game[i]).None?
    ensures GameRecords(rules, engine, game, pos, i) == GameRecords(rules, engine, game, pos, i + 1)
  {
  }

  /** A ply that `push_san` cannot play keeps its own record, if any, and ends the replay. */
  lemma StopStep<P, M>(rules: Rules<P, M>, engine: Oracle<P, M>, game: GameMoves, pos: P, i: nat,
                           own: seq<MoveRecord>)
    requires i < |game| && rules.parseSan(pos, game[i]).None?
    requires i % 2 == 0 ==> PlyRecord(rules, engine, pos, game[i]).Some?
                            && own == [PlyRecord(rules, engine, pos, game[i]).value]
    requires i % 2 == 1 ==> own == []
    ensures GameRecords(rules, engine, game, pos, i) == own
  {
  }

  /** A ply that `push_san` plays keeps its own record, if any, and goes on from the new position. */
  lemma PushStep<P, M>(rules: Rules<P, M>, engine: Oracle<P, M>, game: GameMoves, pos: P, i: nat,
                           own: seq<MoveRecord>, next: P)
    requires i < |game| && rules.parseSan(pos, game[i]).Some?
    requires next == rules.push(pos, rules.parseSan(pos, game[i]).value)
    requires i % 2 == 0 ==> PlyRecord(rules, engine, pos, game[i]).Some?
                            && own == [PlyRecord(rules, engine, pos, game[i]).value]
    requires i % 2 == 1 ==> own == []
    ensures GameRecords(rules, engine, game, pos, i) == own + GameRecords(rules, engine, game, next, i + 1)
  {
  }

  /** The body of the `try` block of app/ai.py at a player ply: rank the move
      in the engine's list for this position and describe it; `None` where the
      block raises and the ply is skipped. It computes `PlyRecord` step by
      step, and the properties of a record are proved about that function. */
  method AnalyzePly<P, M(==)>(rules: Rules<P, M>, engine: Oracle<P, M>, pos: P, san: string)
    returns (rec: Option<MoveRecord>)
    ensures rec == PlyRecord(rules, engine, pos, san)
  {
    var ranked := engine(pos, |rules.legalMoves(pos)|);
    var parsed := rules.parseSan(pos, san);
    if parsed.None? {
      return None;
    }
    var m := parsed.value;
    var piece := rules.pieceAt(pos, m);
    if piece.None? {
      return None;
    }
    var rank := RankOf(ranked, m);
    rec := Some(MoveRecord(rank, |ranked|, Symbol(piece.value), rules.isCapture(pos, m), rules.givesCheck(pos, m)));
  }

  /** What one ply of the replay does to the board and the records, from
      position `pos` with stack `stack` to `pos'` with `stack'`: a skipped
      player ply (`continue`) records nothing and leaves the board alone;
      otherwise a player ply adds its record, and `push_san` either fails
      (`stop`, exactly when the SAN does not parse, board unchanged) or
      pushes the parsed move. */
  ghost predicate PlyEffect<P, M>(rules: Rules<P, M>, engine: Oracle<P, M>, san: string, i: nat,
                            pos: P, stack: seq<P>, pos': P, stack': seq<P>, own: seq<MoveRecord>, stop: bool)
  {
    var parsed := rules.parseSan(pos, san);
    var skipped := i % 2 == 0 && PlyRecord(rules, engine, pos, san).None?;
    && (skipped ==> !stop && own == [])
    && (skipped || stop ==> pos' == pos && stack' == stack)
    && (!skipped ==> (stop <==> parsed.None?))
    && (!skipped && !stop ==> pos' == rules.push(pos, parsed.value) && stack' == stack + [pos])
    && (!skipped && i % 2 == 0 ==> own == [PlyRecord(rules, engine, pos, san).value])
    && (i % 2 == 1 ==> own == [])
  }

  /** One pass of the inner loop at ply `i`: at an even ply, try to record
      the move (skipping the ply, board untouched, where that fails); then
      `push_san` the move, reporting `stop` where it fails. */
  method ReplayPly<P, M(==)>(board: Board<P, M>, engine: Oracle<P, M>, game: GameMoves, i: nat)
    returns (own: seq<MoveRecord>, stop: bool)
    requires i < |game|
    modifies board
    ensures PlyEffect(board.rules, engine, game[i], i, old(board.position), old(board.stack),
                      board.position, board.stack, own, stop)
  {
    var rules, pos := board.rules, board.position;
    own := [];
    if i % 2 == 0 {
      var rec := AnalyzePly(rules, engine, pos, game[i]);
      if rec.None? {
        return [], false;   // `continue`: no record and no push
      }
      own := [rec.value];
    }
    var ok := board.PushSan(game[i]);
    if !ok {
      return own, true;     // `break`
    }
    stop := false;
  }

  /** What a ply does to the board decides what it contributes to the
      game's records: its own record, then either nothing more (`stop`) or
      the records of the rest of the game from the new position. */
  lemma PlyEffectRecords<P, M>(rules: Rules<P, M>, engine: Oracle<P, M>, game: GameMoves, i: nat,
                               pos: P, stack: seq<P>, pos': P, stack': seq<P>, own: seq<MoveRecord>, stop: bool)
    requires i < |game| && PlyEffect(rules, engine, game[i], i, pos, stack, pos', stack', own, stop)
    ensures stop ==> GameRecords(rules, engine, game, pos, i) == own
    ensures !stop ==> GameRecords(rules, engine, game, pos, i) == own + GameRecords(rules, engine, game, pos', i + 1)
  {
    if i % 2 == 0 && PlyRecord(rules, engine, pos, game[i]).None? {
      SkipStep(rules, engine, game, pos, i);
    } else if stop {
      StopStep(rules, engine, game, pos, i, own);
    } else {
      PushStep(rules, engine, game, pos, i, own, pos');
    }
  }

  /** One iteration of the inner loop: replay ply `i` and add its record to
      those collected so far. What remains to be collected shrinks to the
      records of the rest of the game from the new position, or to nothing
      after a `break`. */
  method CollectPly<P, M(==)>(board: Board<P, M>, engine: Oracle<P, M>, game: GameMoves, i: nat,
                              records: seq<MoveRecord>)
    returns (records': seq<MoveRecord>, stop: bool)
    requires i < |game|
    modifies board
    ensures stop ==> records' == records + GameRecords(board.rules, engine, game, old(board.position), i)
    ensures !stop ==> records' + GameRecords(board.rules, engine, game, board.position, i + 1)
                      == records + GameRecords(board.rules, engine, game, old(board.position), i)
  {
    ghost var pos, stack := board.position, board.stack;
    var own;
    own, stop := ReplayPly(board, engine, game, i);
    PlyEffectRecords(board.rules, engine, game, i, pos, stack, board.position, board.stack, own, stop);
    records' := records + own;
    if !stop {
      assert records + own + GameRecords(board.rules, engine, game, board.position, i + 1)
             == records + (own + GameRecords(board.rules, engine, game, board.position, i + 1));
    }
  }

  /** The inner loop of `analyze_player_style`: replay one game on a fresh
      board and collect the records of its player plies. */
  method ReplayGame<P, M(==)>(rules: Rules<P, M>, engine: Oracle<P, M>, game: GameMoves)
    returns (records: seq<MoveRecord>)
    ensures records == GameRecords(rules, engine, game, rules.initial, 0)
  {
    var board := new Board<P, M>(rules);
    records := [];
    ghost var target := GameRecords(rules, engine, game, rules.initial, 0);
    var i := 0;
    while i < |game|
      invariant 0 <= i <= |game|
      invariant board.rules == rules
      invariant records + GameRecords(rules, engine, game, board.position, i) == target
    {
      var stop;
      records, stop := CollectPly(board, engine, game, i, records);
      if stop {
        break;
      }
      i := i + 1;
    }
  }

  /** `analyze_player_style(all_games_for_user)` with the analysis engine
      given as `engine` (`None` when it failed to start). */
  method AnalyzePlayerStyle<P, M(==)>(rules: Rules<P, M>, engine: Option<Oracle<P, M>>, games: seq<GameMoves>)
    returns (profile: Profile)
    ensures engine.None? || games == [] ==> profile == DefaultProfile()
    ensures engine.Some? && games != [] ==> profile == ProfileOf(AllRecords(rules, engine.value, games))
    ensures 0.0 <= profile.aggression <= 1.0 && 0.0 <= profile.precision <= 1.0
    ensures forall k :: k in profile.piecePreference ==> k in "PNBRQK"
  {
    if engine.None? || games == [] {
      return DefaultProfile();
    }
    var oracle := engine.value;
    var records: seq<MoveRecord> := [];
    for g := 0 to |games|
      invariant records == AllRecords(rules, oracle, games[..g])
    {
      assert games[..g + 1][..g] == games[..g];
      var gameRecords := ReplayGame(rules, oracle, games[g]);
      records := records + gameRecords;
    }
    assert games[..|games|] == games;
    if records == [] {
      return DefaultProfile();
    }
    var counts := PieceCounts(records);
    profile := Profile(Aggression(records), 1.0 - MeanRankPercent(records), counts);
  }
}
