# Chess style-profiling AI: a Dafny model

This is a model of a chess application's "style AI" and the proofs about it. The application watches a human player's moves, builds a profile of how they play, and picks the computer's moves from that profile. The model covers four pieces:

- **The console draft** (`chess_game.py`):
  - it completes the engine's ranking of the legal moves;
  - each White move is logged with its rank, the number of options, the piece moved, and whether it captures or checks;
  - the log is summarised into aggression, average rank percentage and a per-piece count.
- **Post-game analysis** (`app/ai.py`, `analyze_player_style`):
  - replays every stored game of a user;
  - ranks each of the player's moves with the analysis engine;
  - turns those records into a profile: aggression, precision and piece preference.
- **Live move choice** (`app/ai.py`, `get_ai_move`):
  - scores every move the live engine ranks, using the cached profile;
  - draws one move, weighted by the scores.
- **The web server's fallback engine** (`app.py`):
  - a material count over the 64 squares;
  - a one-ply search that keeps the first move with the best material;
  - the choice between the cloud evaluation's move and that search.

## Design

- **The chess library stays abstract.** Positions `P` and moves `M` are type parameters. Everything the library would compute is supplied as one `Chess.Rules` value:
  - legal moves, SAN parsing and applying a move;
  - the piece on the moving square, capture and check detection;
  - the side to move and the 64-square placement.

  The library's mutable board is `Chess.Board`: a position plus the move stack that `push`/`pop` maintain.
- **Engines are functions.** Each one is an `Oracle` that takes a position and a count and returns the ranked moves. An engine that failed to start is `None`.
- **Randomness and the network are parameters.** The cloud evaluation's answer is `reply: Option<M>`. The weighted random draw is `sample: seq<real> -> nat`.
- **Code that works step by step stays imperative:** the replay loop, the ranking merge, the score table, the material loop and the push/evaluate/pop search. Each such method is proved equal to a specification function, and the properties the Python code promises are proved about that function.
- **Floating-point ratios are modelled as exact reals.**

A player who always picks the engine's top move does not get precision 1.0: app/ai.py:87-98 gives 1 − 1/total_options, which is below 1 whenever any option was offered (`StyleProfile.TopMovePrecision`).

## Model

| member | source | states |
|---|---|---|
| Chess.Symbol | app/ai.py:60 | the symbol of a piece is one of the twelve piece letters, upper case exactly when the piece is White |
| Chess.UpperSymbolForgetsColor | app/ai.py:92 | upper-casing a symbol yields the White symbol of the same kind, so both colours share one preference key |
| Chess.UpperOfSymbol | app/ai.py:131 | every upper-cased piece symbol is one of P, N, B, R, Q, K |
| Chess.Board.constructor | app/ai.py:45 | a new board holds the starting position and an empty move stack |
| Chess.Board.Push | app.py:65 | the move is applied and the previous position is pushed on the stack |
| Chess.Board.Pop | app.py:67 | the last pushed position is restored and removed from the stack |
| Chess.Board.PushSan | app/ai.py:75-78 | succeeds exactly when the SAN parses; then the move is pushed; otherwise the board is unchanged |
| MoveLists.AppendMissingKeepsPrefix | chess_game.py:21-24 | completing the ranking keeps the engine's moves first, in the engine's order |
| MoveLists.AppendMissingElements | chess_game.py:22-24 | the completed list holds exactly the engine's moves and the legal moves |
| MoveLists.AppendMissingNoDup | chess_game.py:22-24 | appending only missing moves adds no duplicate |
| MoveLists.AppendMissingIsPrefixThenMissing | chess_game.py:19-24 | over a duplicate-free legal list, the result is the engine's moves followed by the legal moves they lack, in legal order |
| MoveLists.MergedLength | chess_game.py:19-24 | when the engine's moves are distinct legal moves, the completed ranking lists every legal move exactly once |
| MoveLists.AppendMissing | chess_game.py:21-24 | the engine's list extended, one legal move at a time, by each move not yet present; also the key order of `move_scores` at app/ai.py:121-139; its properties are the AppendMissing lemmas above |
| MoveLists.IndexOf | chess_game.py:83 | `list.index` gives the first position holding the element |
| MoveLists.LastIndex | app/ai.py:139 | the last position holding the element, the one a repeated dict assignment keeps |
| MoveRecords.AggressiveCount | app/ai.py:84 | the number of capturing or checking records is at most the record count; it is 0 exactly when none is aggressive and equals the count exactly when all are |
| MoveRecords.FractionBounds | app/ai.py:87 | a well-ranked record's rank/total_options lies in [0, 1], and is positive when options were offered |
| MoveRecords.RankFraction | app/ai.py:87 | rank / total_options of one record; bounded by MoveRecords.FractionBounds |
| MoveRecords.RankPercentSum | app/ai.py:87 | the sum of rank/total over records with total > 0 lies between 0 and the record count, and is positive for a non-empty log with options |
| MoveRecords.Aggression | app/ai.py:85 | aggression lies in [0, 1]; it is 0 exactly when no move captured or checked and 1 exactly when every move did |
| MoveRecords.MeanRankPercent | app/ai.py:88 | the average rank percentage lies in [0, 1], and is positive when every record had options |
| MoveRecords.PieceTally | app/ai.py:90-93 | the map from each upper-cased piece letter that occurs to its number of records; its properties are MoveRecords.PieceTallyTotals and TallyStep |
| MoveRecords.KeyCountOutside | app/ai.py:90-93 | a key no record upper-cases to has count 0 |
| MoveRecords.KeyCountsSumToLength | app/ai.py:90-93 | over piece symbols, the six per-kind counts add up to the number of records |
| MoveRecords.PieceTallyTotals | app/ai.py:90-93 | the piece-count keys are upper-case piece letters with positive counts, and the counts total the number of records |
| MoveRecords.KeyCountPositive | app/ai.py:92-93 | the key of every record's piece has a positive count |
| MoveRecords.TallyStep | app/ai.py:92-93 | `counts.get(piece, 0) + 1` turns the tally of a log into the tally of the log extended by one record |
| MoveRecords.PieceCounts | app/ai.py:90-93 | the counting loop produces exactly the piece tally of the records |
| ChessGame.Min | chess_game.py:20 | the minimum is no larger than either argument and equals one of them |
| ChessGame.EngineTop | chess_game.py:20 | the engine is asked for min(#legal, 15) moves at the position |
| ChessGame.RankedMoves | chess_game.py:16-25 | asks the engine for min(#legal, 15) moves and completes the list with the missing legal moves; the engine's moves stay first; the list holds exactly the engine's and the legal moves without repeats; it is a permutation of the legal moves when the engine returns distinct legal moves |
| ChessGame.LoggedRank | chess_game.py:83 | the logged rank is the 1-based first position of the move in the completed ranking |
| ChessGame.LogMove | chess_game.py:78-93 | a logged record has rank in 1..total and total > 0; its piece is the symbol of the piece on the parsed move's from-square, and its rank, capture and check agree with the completed ranking and the parsed move; every legal parsed move with a piece on its from-square is logged |
| ChessGame.AnalyzeHistory | chess_game.py:28-53 | empty history gives {0, 0, {}}; otherwise aggression is in [0, 1], the average rank percentage is in (0, 1], and the piece counts total the history length |
| StyleProfile.DefaultProfile | app/ai.py:36 | the profile {aggression 0.2, precision 0.8, no preferences}, also at app/ai.py:82 and 112 |
| StyleProfile.RankOf | app/ai.py:59 | the 1-based first position of a ranked move; a move the engine did not rank gets the list length |
| StyleProfile.PlyRecord | app/ai.py:52-72 | a record exists exactly when the SAN parses and a piece stands on the from-square; it is well ranked, its total is the engine list's length, and its piece is a symbol |
| StyleProfile.GameRecords | app/ai.py:48-78 | a game yields at most one record per even ply from the current one on |
| StyleProfile.GameRecordsWellFormed | app/ai.py:59-69 | every record of a replay is well ranked and carries a piece symbol |
| StyleProfile.AllRecords | app/ai.py:43-78 | the records of all games are well ranked and carry piece symbols |
| StyleProfile.AllRecordsAppend | app/ai.py:43-78 | analysing two lists of games in turn gives the records of the first followed by those of the second |
| StyleProfile.GameRecordsPrefix | app/ai.py:48-78 | the records of a prefix of a game are a prefix of the records of the whole game |
| StyleProfile.ProfileOf | app/ai.py:81-99 | no records give the default {0.2, 0.8, {}}; otherwise aggression is in [0, 1], precision is in [0, 1] and below 1 when options were offered, and the piece counts are upper-case keys totalling the records |
| StyleProfile.TopMovePrecision | app/ai.py:87-98 | one top-ranked move among t options gives precision 1 − 1/t, which is below 1 |
| StyleProfile.SkipStep | app/ai.py:70-72 | a player ply whose record fails is skipped without advancing the board |
| StyleProfile.StopStep | app/ai.py:75-78 | a ply that `push_san` rejects keeps its own record, if any, and ends the game's replay |
| StyleProfile.PushStep | app/ai.py:74-76 | a ply that `push_san` plays keeps its own record, if any, and the replay goes on from the new position |
| StyleProfile.AnalyzePly | app/ai.py:52-69 | the even-ply analysis computes exactly the ply's record, or none where the code continues |
| StyleProfile.ReplayPly | app/ai.py:50-78 | one ply on the board: a skipped player ply (`continue`) records nothing and leaves position and stack as they were; otherwise a player ply yields its record; `stop` holds exactly when the SAN does not parse, and then the board is unchanged; else the parsed move is pushed, with the new position and stack stated |
| StyleProfile.PlyEffectRecords | app/ai.py:50-78 | what a ply does to the board fixes its share of the game's records: its own record, then nothing after a `break`, or the records of the rest of the game from the new position |
| StyleProfile.CollectPly | app/ai.py:48-78 | one iteration of the inner loop: the records collected so far plus those still to come from the new position are the records still expected before the ply |
| StyleProfile.ReplayGame | app/ai.py:44-78 | replaying a game from the start position collects exactly that game's records |
| StyleProfile.AnalyzePlayerStyle | app/ai.py:30-102 | without an analysis engine, or without any game, the profile is the default; otherwise it is the profile of all collected records; aggression and precision are in [0, 1] and the piece keys are upper-case letters |
| LiveSelector.MoveScore | app/ai.py:123-137 | 0.01, plus 10 × aggression for a capture or check, plus 0.1 × the preference count of the moved piece when present, minus i × (1 − precision); its properties are the four lemmas below |
| LiveSelector.CachedProfile | app/ai.py:112 | the user's cached profile, or the default profile for a user not in the cache |
| LiveSelector.RankPenalty | app/ai.py:137 | moving a move from index i to index j changes its score by (j − i)(1 − precision) |
| LiveSelector.PerfectPrecisionIgnoresRank | app/ai.py:135-137 | with precision 1 the index no longer affects a score |
| LiveSelector.AggressionBonus | app/ai.py:127-128 | a capture or check scores exactly 10 × aggression more than a quiet move |
| LiveSelector.PreferenceBonus | app/ai.py:131-133 | a preferred piece scores 0.1 × its count more than a piece without an entry |
| LiveSelector.Draw | app/ai.py:141-150 | the drawn move is one of the ranked moves |
| LiveSelector.ScoreCandidate | app/ai.py:123-137 | one candidate's score is 0.01, plus the aggression bonus, plus the preference bonus, minus the index penalty |
| LiveSelector.ScoreMoves | app/ai.py:121-139 | the score table's keys are the ranked moves in first-occurrence order, and each holds the score of that move's last occurrence |
| LiveSelector.ScoreAndDraw | app/ai.py:121-150 | the move picked from the score table is a ranked move, and it is the one the draw gives |
| LiveSelector.AiMove | app/ai.py:104-150 | with no live engine, or an empty ranking, the first legal move; otherwise a ranked move drawn from the scores of the cached profile, or of the default profile for an unknown user |
| MaterialFallback.PieceValue | app.py:50 | P 1, N 3, B 3, R 5, Q 9, K 0: at most 9, and 0 exactly for the king |
| MaterialFallback.Material | app.py:52-56 | the sum over the squares of plus a piece's value for White and minus it for Black |
| MaterialFallback.EvaluateBoard | app.py:49-57 | the loop over the 64 squares computes White's material minus Black's, with P1 N3 B3 R5 Q9 K0 |
| MaterialFallback.MaterialBound | app.py:50-57 | the evaluation is at most 9 per square in absolute value |
| MaterialFallback.MaterialFlip | app.py:56 | swapping the colours of all pieces negates the evaluation |
| MaterialFallback.KingsOnlyScoreZero | app.py:50 | a board holding only kings evaluates to 0 |
| MaterialFallback.FirstBestIndex | app.py:64-75 | the kept index has the best score for the side (maximal for White, minimal for Black), and strictly beats every earlier index |
| MaterialFallback.FirstBestUnique | app.py:68-75 | those two properties pin down the kept index: ties go to the first best move |
| MaterialFallback.SimpleBest | app.py:59-76 | no move exactly when there are no legal moves; otherwise a legal move whose evaluation is best for the side to move |
| MaterialFallback.ScanStep | app.py:68-75 | one step of the scan: a strictly better score takes over, otherwise the best so far stays |
| MaterialFallback.SimpleBestMove | app.py:59-76 | push, evaluate and pop over the legal moves leave the board as it was and return the first best move |
| MaterialFallback.AiBestMove | app.py:79-94 | the cloud move when it is legal here, otherwise the material search; the board is left as it was |
| MaterialFallback.AiBestMoveLegal | app.py:86-94 | whatever the reply, the returned move is legal, and there is one exactly when legal moves exist |

## Left out

- The chess rules themselves (move generation, SAN and UCI, check detection). They come from the `chess` library and are supplied as `Chess.Rules`. UCI strings are not modelled: moves are compared directly.
- The Stockfish engines, and the cost of their analysis. Each is a function from a position and a count to a ranked list. Whether an engine started is an `Option`.
- The cloud evaluation request: the HTTP call, its timeout, the JSON reply and its `RequestException`. All of these are the parameter `reply`, which is `None` when no usable move came back.
- The malformed-UCI `ValueError` of `chess.Move.from_uci`: a reply is already a move.
- `LiveSelector.AiMove`: the `pow(10, score)` weighting, its normalisation and `random.choices` are one injected `sample`. Its index is taken modulo the number of candidates, so the model states which moves can be drawn, not with what probability.
- `LiveSelector.AiMove` requires a piece on the from-square of every ranked move. app/ai.py:131 would raise `AttributeError` otherwise, and `get_ai_move` does not handle that error.
- Floating point: scores and ratios are exact reals, so rounding is not modelled.
- The `random.choice` fallback of `get_simple_best_move`. It cannot be reached: the first legal move always beats the infinite starting bound, so a best move exists whenever a legal move does.
- `ChessGame.AnalyzeHistory` requires every record to have total_options > 0. Without that, chess_game.py:40 divides by zero.
- JSON decoding of stored games (`json.loads`). A game is its list of SAN strings. The `turn` and `move_san` fields of a log record are not modelled, since no computation reads them.
- Flask routes, sessions, passwords, the database models, the global shared board and the storing of profiles in `profile_cache`. The cache is a read-only map argument of `LiveSelector.AiMove`.
- The console game loop of `chess_game.py`: input, screen clearing, Unicode board printing, and the computer's side of the turn.
- Logging output (`print`).
