/** The web server's fallback engine (app.py): a one-ply material search used
    when the cloud evaluation gives no usable move. */
module MaterialFallback {
  import opened Wrappers
  import opened Chess

  /** The piece values of `evaluate_board`: the king counts nothing. */
  function PieceValue(kind: PieceType): (v: nat)
    ensures v <= 9
    ensures v == 0 <==> kind == King
  {
    match kind
    case Pawn => 1
    case Knight => 3
    case Bishop => 3
    case Rook => 5
    case Queen => 9
    case King => 0
  }

  /** A square's contribution: plus the piece value for White, minus for Black. */
  function SquareValue(square: Option<Piece>): int {
    match square
    case None => 0
    case Some(p) => if p.color == White then PieceValue(p.kind) as int else -(PieceValue(p.kind) as int)
  }

  /** White's material minus Black's over a run of squares, summed in square order. */
  function Material(squares: seq<Option<Piece>>): int
    decreases |squares|
  {
    if squares == [] then 0
    else Material(squares[..|squares| - 1]) + SquareValue(squares[|squares| - 1])
  }

  /** `evaluate_board(board)`: the loop over the 64 squares. */
  method EvaluateBoard(squares: Placement) returns (score: int)
    ensures score == Material(squares)
  {
    score := 0;
    for square := 0 to 64
      invariant score == Material(squares[..square])
    {
      var piece := squares[square];
      if piece.Some? {
        var value: int := PieceValue(piece.value.kind);
        score := score + if piece.value.color == White then value else -value;
      }
      assert squares[..square + 1][..square] == squares[..square];
    }
    assert squares[..64] == squares;
  }

  /** No square is worth more than a queen, so the score is bounded by 9 per square. */
  lemma {:induction false} MaterialBound(squares: seq<Option<Piece>>)
    ensures -9 * |squares| <= Material(squares) <= 9 * |squares|
    decreases |squares|
  {
    if squares != [] {
      MaterialBound(squares[..|squares| - 1]);
    }
  }

  function FlipColor(square: Option<Piece>): Option<Piece> {
    match square
    case None => None
    case Some(p) => Some(Piece(p.kind, if p.color == White then Black else White))
  }

  /** The same squares with every piece handed to the other side. */
  function FlipColors(squares: seq<Option<Piece>>): (flipped: seq<Option<Piece>>)
    ensures |flipped| == |squares|
  {
    seq(|squares|, i requires 0 <= i < |squares| => FlipColor(squares[i]))
  }

  /** The evaluation is antisymmetric: swapping the colours negates the score. */
  lemma {:induction false} MaterialFlip(squares: seq<Option<Piece>>)
    ensures Material(FlipColors(squares)) == -Material(squares)
    decreases |squares|
  {
    if squares != [] {
      var n := |squares|;
      MaterialFlip(squares[..n - 1]);
      assert FlipColors(squares)[..n - 1] == FlipColors(squares[..n - 1]);
    }
  }

  /** Kings are worth nothing: a position holding only kings scores 0. */
  lemma {:induction false} KingsOnlyScoreZero(squares: seq<Option<Piece>>)
    requires forall i :: 0 <= i < |squares| && squares[i].Some? ==> squares[i].value.kind == King
    ensures Material(squares) == 0
    decreases |squares|
  {
    if squares != [] {
      KingsOnlyScoreZero(squares[..|squares| - 1]);
    }
  }

  /** `score` is strictly better than `other` for the side chosen by `white`. */
  predicate Beats(white: bool, score: int, other: int) {
    if white then score > other else score < other
  }

  predicate AtLeastAsGood(white: bool, score: int, other: int) {
    if white then score >= other else score <= other
  }

  /** The index the scan keeps: the first of the best scores, since a later
      move replaces the best only when it is strictly better. */
  function FirstBestIndex(white: bool, scores: seq<int>): (j: nat)
    requires scores != []
    ensures j < |scores|
    ensures forall k :: 0 <= k < |scores| ==> AtLeastAsGood(white, scores[j], scores[k])
    ensures forall k :: 0 <= k < j ==> Beats(white, scores[j], scores[k])
    decreases |scores|
  {
    if |scores| == 1 then 0
    else
      var j := FirstBestIndex(white, scores[..|scores| - 1]);
      if Beats(white, scores[|scores| - 1], scores[j]) then |scores| - 1 else j
  }

  /** The two properties single out one index: the first best is unique. */
  lemma FirstBestUnique(white: bool, scores: seq<int>, j: nat)
    requires j < |scores|
    requires forall k :: 0 <= k < |scores| ==> AtLeastAsGood(white, scores[j], scores[k])
    requires forall k :: 0 <= k < j ==> Beats(white, scores[j], scores[k])
    ensures j == FirstBestIndex(white, scores)
  {
    var f := FirstBestIndex(white, scores);
    assert AtLeastAsGood(white, scores[j], scores[f]) && AtLeastAsGood(white, scores[f], scores[j]);
    assert j < f ==> Beats(white, scores[f], scores[j]);
    assert f < j ==> Beats(white, scores[j], scores[f]);
  }

  /** The evaluation after playing `m` from `pos`. */
  function Outcome<P, M>(rules: Rules<P, M>, pos: P, m: M): int {
    Material(rules.placement(rules.push(pos, m)))
  }

  function Outcomes<P, M>(rules: Rules<P, M>, pos: P, moves: seq<M>): (scores: seq<int>)
    ensures |scores| == |moves|
  {
    seq(|moves|, k requires 0 <= k < |moves| => Outcome(rules, pos, moves[k]))
  }

  /** The move `get_simple_best_move` returns: none without legal moves, else
      the first legal move with the best evaluation for the side to move
      (highest for White, lowest for Black). */
  function SimpleBest<P, M>(rules: Rules<P, M>, pos: P): (best: Option<M>)
    ensures best.None? <==> rules.legalMoves(pos) == []
    ensures best.Some? ==> best.value in rules.legalMoves(pos)
    ensures best.Some? ==> forall m :: m in rules.legalMoves(pos) ==>
              AtLeastAsGood(rules.whiteToMove(pos), Outcome(rules, pos, best.value), Outcome(rules, pos, m))
  {
    var legal := rules.legalMoves(pos);
    if legal == [] then None
    else
      var scores := Outcomes(rules, pos, legal);
      var j := FirstBestIndex(rules.whiteToMove(pos), scores);
      assert forall k :: 0 <= k < |legal| ==> scores[k] == Outcome(rules, pos, legal[k]);
      Some(legal[j])
  }

  /** One step of the scan: either the move at `i` beats the bound and becomes
      the best, or the best so far stays. */
  lemma ScanStep(white: bool, scores: seq<int>, i: nat)
    requires 0 < i < |scores|
    ensures FirstBestIndex(white, scores[..i + 1])
            == if Beats(white, scores[i], scores[FirstBestIndex(white, scores[..i])]) then i
               else FirstBestIndex(white, scores[..i])
  {
    assert scores[..i + 1][..i] == scores[..i];
  }

  /** `get_simple_best_move(board)`: try each legal move with push, evaluate,
      pop, and keep the strictly better ones. The best score starts at minus
      infinity for White and plus infinity for Black, written `None` here. */
  method SimpleBestMove<P, M>(board: Board<P, M>) returns (best: Option<M>)
    modifies board
    ensures board.position == old(board.position) && board.stack == old(board.stack)
    ensures best == SimpleBest(board.rules, board.position)
  {
    var legal := board.rules.legalMoves(board.position);
    if legal == [] {
      return None;
    }
    ghost var start, history := board.position, board.stack;
    ghost var white := board.rules.whiteToMove(start);
    ghost var scores := Outcomes(board.rules, start, legal);
    var bestMove: Option<M> := None;
    var bestScore: Option<int> := None;
    ghost var bestIdx: nat := 0;
    for i := 0 to |legal|
      invariant board.position == start && board.stack == history
      invariant i == 0 ==> bestMove.None? && bestScore.None?
      invariant 0 < i ==> && bestIdx == FirstBestIndex(white, scores[..i])
                          && bestMove == Some(legal[bestIdx])
                          && bestScore == Some(scores[bestIdx])
    {
      var move := legal[i];
      board.Push(move);
      var score := EvaluateBoard(board.rules.placement(board.position));
      board.Pop();
      assert score == scores[i];
      if 0 < i {
        ScanStep(white, scores, i);
      }
      if board.rules.whiteToMove(board.position) {
        if bestScore.None? || score > bestScore.value {
          bestScore, bestMove := Some(score), Some(move);
          bestIdx := i;
        }
      } else {
        if bestScore.None? || score < bestScore.value {
          bestScore, bestMove := Some(score), Some(move);
          bestIdx := i;
        }
      }
    }
    assert scores[..|legal|] == scores;
    best := bestMove;
  }

  /** `get_ai_best_move(board)`: the cloud evaluation's first move when it
      gave one and it is legal here, otherwise the material search. The
      request, its timeout and its JSON reply are the parameter `reply`. */
  method AiBestMove<P, M(==)>(board: Board<P, M>, reply: Option<M>) returns (best: Option<M>)
    modifies board
    ensures board.position == old(board.position) && board.stack == old(board.stack)
    ensures reply.Some? && reply.value in board.rules.legalMoves(board.position) ==> best == reply
    ensures !(reply.Some? && reply.value in board.rules.legalMoves(board.position)) ==>
              best == SimpleBest(board.rules, board.position)
  {
    if reply.Some? && reply.value in board.rules.legalMoves(board.position) {
      return reply;
    }
    best := SimpleBestMove(board);
  }

  /** Whatever the reply, the move played is legal, and there is one exactly
      when the position has legal moves. */
  lemma AiBestMoveLegal<P, M>(rules: Rules<P, M>, pos: P, reply: Option<M>)
    ensures var best := if reply.Some? && reply.value in rules.legalMoves(pos) then reply
                        else SimpleBest(rules, pos);
            && (best.None? <==> rules.legalMoves(pos) == [])
            && (best.Some? ==> best.value in rules.legalMoves(pos))
  {
  }
}
