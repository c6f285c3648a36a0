/** The per-move records both drafts of the style analysis aggregate, and the
    aggregates themselves: the share of aggressive moves, the mean of
    rank / total_options, and the per-piece move counts. */
module MoveRecords {
  import opened Chess

  /** One analysed player move: its 1-based rank in the engine's ranking, the
      length of that ranking, the symbol of the piece moved (`piece.symbol()`,
      so still coloured) and the move's tactical character. */
  datatype MoveRecord = MoveRecord(rank: nat, totalOptions: nat, piece: char, isCapture: bool, isCheck: bool)

  /** The rank invariant: a rank within 1..total_options, or rank and total
      both 0 when the engine offered nothing. */
  predicate WellRanked(r: MoveRecord) {
    if r.totalOptions == 0 then r.rank == 0 else 1 <= r.rank <= r.totalOptions
  }

  predicate AllWellRanked(records: seq<MoveRecord>) {
    forall i :: 0 <= i < |records| ==> WellRanked(records[i])
  }

  /** Every record was made against a non-empty ranking. */
  predicate AllOffered(records: seq<MoveRecord>) {
    forall i :: 0 <= i < |records| ==> records[i].totalOptions > 0
  }

  predicate AllSymbols(records: seq<MoveRecord>) {
    forall i :: 0 <= i < |records| ==> IsSymbol(records[i].piece)
  }

  predicate Aggressive(r: MoveRecord) {
    r.isCapture || r.isCheck
  }

  /** `sum(1 for move in moves if move["is_capture"] or move["is_check"])` */
  function AggressiveCount(records: seq<MoveRecord>): (n: nat)
    ensures n <= |records|
    ensures n == 0 <==> forall i :: 0 <= i < |records| ==> !Aggressive(records[i])
    ensures n == |records| <==> forall i :: 0 <= i < |records| ==> Aggressive(records[i])
    decreases |records|
  {
    if records == [] then 0
    else
      var rest := AggressiveCount(records[1..]);
      assert forall i :: 1 <= i < |records| ==> records[i] == records[1..][i - 1];
      (if Aggressive(records[0]) then 1 else 0) + rest
  }

  /** One record's `move_rank / total_options`; records with no options add 0. */
  function RankFraction(r: MoveRecord): real {
    if r.totalOptions > 0 then r.rank as real / r.totalOptions as real else 0.0
  }

  lemma FractionBounds(r: MoveRecord)
    requires WellRanked(r)
    ensures 0.0 <= RankFraction(r) <= 1.0
    ensures r.totalOptions > 0 ==> 0.0 < RankFraction(r)
  {
    if r.totalOptions > 0 {
      var a, b := r.rank as real, r.totalOptions as real;
      assert a / b * b == a;
    }
  }

  /** `sum(move_rank / total_options for move in moves if total_options > 0)` */
  function RankPercentSum(records: seq<MoveRecord>): (s: real)
    ensures AllWellRanked(records) ==> 0.0 <= s <= |records| as real
    ensures AllWellRanked(records) && AllOffered(records) && records != [] ==> 0.0 < s
    decreases |records|
  {
    if records == [] then 0.0
    else
      var rest := RankPercentSum(records[1..]);
      assert AllWellRanked(records) ==> AllWellRanked(records[1..]) && WellRanked(records[0]);
      assert AllOffered(records) ==> AllOffered(records[1..]);
      assert AllWellRanked(records) ==>
               0.0 <= RankFraction(records[0]) <= 1.0
               && (records[0].totalOptions > 0 ==> 0.0 < RankFraction(records[0])) by {
        if AllWellRanked(records) { FractionBounds(records[0]); }
      }
      RankFraction(records[0]) + rest
  }

  /** `aggressive_moves / len(moves)`: the share of captures and checks. */
  function Aggression(records: seq<MoveRecord>): (a: real)
    requires records != []
    ensures 0.0 <= a <= 1.0
    ensures a == 0.0 <==> forall i :: 0 <= i < |records| ==> !Aggressive(records[i])
    ensures a == 1.0 <==> forall i :: 0 <= i < |records| ==> Aggressive(records[i])
  {
    var n, d := AggressiveCount(records) as real, |records| as real;
    RatioBounds(n, d);
    n / d
  }

  /** A count out of a positive total is a ratio in [0, 1], 0 exactly for
      none and 1 exactly for all. */
  lemma RatioBounds(n: real, d: real)
    requires 0.0 <= n <= d && 0.0 < d
    ensures 0.0 <= n / d <= 1.0
    ensures n / d == 0.0 <==> n == 0.0
    ensures n / d == 1.0 <==> n == d
  {
    assert n / d * d == n;
  }

  /** `total_rank_percent / len(moves)`: the mean of rank / total_options,
      with records that had no options counted in the denominator only. */
  function MeanRankPercent(records: seq<MoveRecord>): (m: real)
    requires records != []
    ensures AllWellRanked(records) ==> 0.0 <= m <= 1.0
    ensures AllWellRanked(records) && AllOffered(records) ==> 0.0 < m
  {
    var s, d := RankPercentSum(records), |records| as real;
    assert s / d * d == s;
    s / d
  }

  /** How many records moved a piece whose upper-cased symbol is `k`. */
  function KeyCount(records: seq<MoveRecord>, k: char): nat
    decreases |records|
  {
    if records == [] then 0
    else KeyCount(records[..|records| - 1], k) + (if Upper(records[|records| - 1].piece) == k then 1 else 0)
  }

  function PieceKeys(records: seq<MoveRecord>): set<char> {
    set i | 0 <= i < |records| :: Upper(records[i].piece)
  }

  /** The piece-preference map as app/ai.py builds it: one entry per
      upper-cased piece symbol that occurs, holding how many records moved it. */
  function PieceTally(records: seq<MoveRecord>): map<char, nat> {
    map k | k in PieceKeys(records) :: KeyCount(records, k)
  }

  /** The total over the six piece kinds of a piece-preference map. */
  function SixKindTotal(counts: map<char, nat>): nat {
    var get := (k: char) => if k in counts then counts[k] else 0;
    get('P') + get('N') + get('B') + get('R') + get('Q') + get('K')
  }

  lemma {:induction false} KeyCountOutside(records: seq<MoveRecord>, k: char)
    requires k !in PieceKeys(records)
    ensures KeyCount(records, k) == 0
    decreases |records|
  {
    if records != [] {
      var init := records[..|records| - 1];
      assert PieceKeys(init) <= PieceKeys(records) by {
        forall i | 0 <= i < |init| ensures Upper(init[i].piece) in PieceKeys(records) {
          assert init[i] == records[i];
        }
      }
      KeyCountOutside(init, k);
      assert Upper(records[|records| - 1].piece) in PieceKeys(records);
    }
  }

  /** Each record adds one to exactly one of the six kinds. */
  lemma {:induction false} KeyCountsSumToLength(records: seq<MoveRecord>)
    requires AllSymbols(records)
    ensures KeyCount(records, 'P') + KeyCount(records, 'N') + KeyCount(records, 'B')
          + KeyCount(records, 'R') + KeyCount(records, 'Q') + KeyCount(records, 'K') == |records|
    decreases |records|
  {
    if records != [] {
      var init := records[..|records| - 1];
      assert AllSymbols(init) by {
        forall i | 0 <= i < |init| ensures IsSymbol(init[i].piece) {
          assert init[i] == records[i];
        }
      }
      KeyCountsSumToLength(init);
      UpperOfSymbol(records[|records| - 1].piece);
    }
  }

  /** The piece-preference map has upper-case piece symbols as keys and its
      counts add up to the number of records. */
  lemma PieceTallyTotals(records: seq<MoveRecord>)
    requires AllSymbols(records)
    ensures forall k :: k in PieceTally(records) ==> k in "PNBRQK" && PieceTally(records)[k] > 0
    ensures SixKindTotal(PieceTally(records)) == |records|
  {
    var t := PieceTally(records);
    forall k | k in t ensures k in "PNBRQK" && t[k] > 0 {
      var i :| 0 <= i < |records| && Upper(records[i].piece) == k;
      UpperOfSymbol(records[i].piece);
      KeyCountPositive(records, i);
    }
    KeyCountsSumToLength(records);
    forall k | k !in t ensures KeyCount(records, k) == 0 {
      KeyCountOutside(records, k);
    }
  }

  lemma {:induction false} KeyCountPositive(records: seq<MoveRecord>, i: nat)
    requires i < |records|
    ensures KeyCount(records, Upper(records[i].piece)) > 0
    decreases |records|
  {
    if i < |records| - 1 {
      var init := records[..|records| - 1];
      assert init[i] == records[i];
      KeyCountPositive(init, i);
    }
  }

  lemma TallyStep(records: seq<MoveRecord>, r: MoveRecord)
    ensures PieceTally(records + [r]) ==
      var t, k := PieceTally(records), Upper(r.piece);
      t[k := (if k in t then t[k] else 0) + 1]
  {
    var s := records + [r];
    var k := Upper(r.piece);
    var t := PieceTally(records);
    assert s[..|s| - 1] == records;
    assert PieceKeys(s) == PieceKeys(records) + {k} by {
      forall i | 0 <= i < |records| ensures s[i] == records[i] { }
    }
    if k !in t {
      KeyCountOutside(records, k);
    }
  }

  /** The `piece_counts` loop: `piece_counts[piece.upper()] += 1`, starting at 0. */
  method PieceCounts(records: seq<MoveRecord>) returns (counts: map<char, nat>)
    ensures counts == PieceTally(records)
  {
    counts := map[];
    for i := 0 to |records|
      invariant counts == PieceTally(records[..i])
    {
      var piece := Upper(records[i].piece);
      TallyStep(records[..i], records[i]);
      assert records[..i + 1] == records[..i] + [records[i]];
      counts := counts[piece := (if piece in counts then counts[piece] else 0) + 1];
    }
    assert records[..|records|] == records;
  }
}
