/** The slice of the `chess` rules library that the core relies on.

    Positions (`P`) and moves (`M`) stay abstract: legality, SAN parsing,
    move application, capture and check detection all come from the library,
    so they are supplied as a `Rules` value of plain functions. The library's
    mutable `chess.Board` (a position plus a move stack for `push`/`pop`) is
    the `Board` class. */
module Chess {
  import opened Wrappers

  datatype Color = White | Black

  datatype PieceType = Pawn | Knight | Bishop | Rook | Queen | King

  datatype Piece = Piece(kind: PieceType, color: Color)

  /** The characters `Piece.symbol()` can produce. */
  predicate IsSymbol(c: char) {
    c in "PNBRQKpnbrqk"
  }

  /** `Piece.symbol()`: upper case for White, lower case for Black. */
  function Symbol(p: Piece): (c: char)
    ensures IsSymbol(c)
    ensures (c in "PNBRQK") <==> p.color == White
  {
    var upper := match p.kind
      case Pawn => 'P'
      case Knight => 'N'
      case Bishop => 'B'
      case Rook => 'R'
      case Queen => 'Q'
      case King => 'K';
    if p.color == White then upper else LowerOf(upper)
  }

  function LowerOf(c: char): char {
    if 'A' <= c <= 'Z' then (c as int + 32) as char else c
  }

  /** Python's `str.upper()` on a one-character string, for ASCII letters. */
  function Upper(c: char): char {
    if 'a' <= c <= 'z' then (c as int - 32) as char else c
  }

  /** Upper-casing a piece symbol forgets the colour and keeps the kind. */
  lemma UpperSymbolForgetsColor(p: Piece)
    ensures Upper(Symbol(p)) == Symbol(Piece(p.kind, White))
    ensures Upper(Symbol(p)) in "PNBRQK"
  {
  }

  /** Upper-casing any piece symbol gives one of the six White symbols. */
  lemma UpperOfSymbol(c: char)
    requires IsSymbol(c)
    ensures Upper(c) in "PNBRQK"
  {
  }

  /** The piece (if any) on each of the 64 squares, indexed like `chess.SQUARES`. */
  type Placement = s: seq<Option<Piece>> | |s| == 64 witness EmptyPlacement()

  function EmptyPlacement(): seq<Option<Piece>> {
    seq(64, _ => None)
  }

  /** An engine queried with a position and the number of moves wanted. */
  type Oracle<!P, M> = (P, nat) -> seq<M>

  /** The rules library, seen through the calls the core makes. */
  datatype Rules<!P, !M> = Rules(
    initial: P,                            // chess.Board(): the standard starting position
    legalMoves: P -> seq<M>,               // list(board.legal_moves), in enumeration order
    parseSan: (P, string) -> Option<M>,    // board.parse_san; None where it raises
    push: (P, M) -> P,                     // board.push
    pieceAt: (P, M) -> Option<Piece>,      // board.piece_at(move.from_square)
    isCapture: (P, M) -> bool,             // board.is_capture
    givesCheck: (P, M) -> bool,            // board.gives_check
    whiteToMove: P -> bool,                // board.turn == chess.WHITE
    placement: P -> Placement              // board.piece_at over chess.SQUARES
  )

  /** A `chess.Board` object: its current position and the positions saved by
      each `push` so that `pop` can restore them. */
  class Board<P, M> {
    const rules: Rules<P, M>
    var position: P
    var stack: seq<P>

    /** `chess.Board()`: the starting position with an empty move stack. */
    constructor (rules: Rules<P, M>)
      ensures this.rules == rules
      ensures position == rules.initial && stack == []
    {
      this.rules := rules;
      position := rules.initial;
      stack := [];
    }

    /** `board.push(move)` */
    method Push(m: M)
      modifies this
      ensures position == rules.push(old(position), m)
      ensures stack == old(stack) + [old(position)]
    {
      stack := stack + [position];
      position := rules.push(position, m);
    }

    /** `board.pop()`; the library raises on an empty stack. */
    method Pop()
      requires stack != []
      modifies this
      ensures position == old(stack)[|old(stack)| - 1]
      ensures stack == old(stack)[..|old(stack)| - 1]
    {
      position := stack[|stack| - 1];
      stack := stack[..|stack| - 1];
    }

    /** `board.push_san(san)`: parse, then push; `ok` is false where the
        library raises `ValueError`, and then the board is unchanged. */
    method PushSan(san: string) returns (ok: bool)
      modifies this
      ensures ok == rules.parseSan(old(position), san).Some?
      ensures ok ==> (position == rules.push(old(position), rules.parseSan(old(position), san).value)
                      && stack == old(stack) + [old(position)])
      ensures !ok ==> position == old(position) && stack == old(stack)
    {
      var parsed := rules.parseSan(position, san);
      if parsed.None? {
        return false;
      }
      Push(parsed.value);
      ok := true;
    }
  }
}
