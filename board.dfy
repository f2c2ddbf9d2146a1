/**
 The two fallible-or-optional wrappers the board vocabulary returns: `Option`
 for a possibly empty tile, `Result` for a coordinate conversion that can fail.
 */
module Wrappers {

  datatype Option<+T> = None | Some(value: T)

  datatype Result<+T, +E> = Ok(value: T) | Err(error: E)
}

/**
 The data vocabulary of a chess board: teams, chessmen, a piece packed into one
 byte, a coordinate validated to lie on the 8x8 grid, and the description of a
 move. A Rust `u8` is a `bv8` here, so that masks and shifts read as written.
 */
module Board {

  import opened Wrappers

  /** Bit mask selecting the team bit of a packed piece. */
  const MaskTeam: bv8 := 0x08

  /** Position of the team bit in a packed piece. */
  const ShiftTeam: bv8 := 3

  /** Bit mask selecting the chessman bits of a packed piece. */
  const MaskChessman: bv8 := 0x07

  /** Number of tiles along one side of the board. */
  const BoardLength: bv8 := 8

  /** Number of tiles on the board. */
  const NumTiles: bv8 := 64

  /** The two sides of a game; White moves first. */
  datatype Team = White | Black {

    /** The `#[repr(u8)]` discriminant: White = 0, Black = 1. */
    function AsU8(): (d: bv8)
      ensures d <= 1
      ensures d == 0 <==> this == White
    {
      match this
      case White => 0
      case Black => 1
    }
  }

  /** The six kinds of chessmen. */
  datatype Chessman = King | Queen | Bishop | Knight | Rook | Pawn {

    /** The `#[repr(u8)]` discriminant, King = 0 up to Pawn = 5. */
    function AsU8(): (d: bv8)
      ensures d < 6
    {
      match this
      case King => 0
      case Queen => 1
      case Bishop => 2
      case Knight => 3
      case Rook => 4
      case Pawn => 5
    }
  }

  /** Errors of the coordinate conversions. */
  datatype Error = OutOfBoundsAxis | OutOfBoundsIndex

  /** Classification of a move. */
  datatype MoveKind =
    | QuietMove
    | DoublePawnPush
    | KingCastle
    | QueenCastle
    | Capture
    | EPCapture
    | KnightPromotion
    | BishopPromotion
    | RookPromotion
    | QueenPromotion
    | KnightPromotionCapture
    | BishopPromotionCapture
    | RookPromotionCapture
    | QueenPromotionCapture

  /**
   A piece packed into one byte: bit 3 is the team, bits 0-2 the chessman,
   and any of bits 4-7 set means the tile is empty.
   */
  datatype Piece = Piece(value: bv8) {

    /** The canonical empty encoding: all four high bits set. */
    static const MaskUnoccupied: bv8 := 0xF0

    /**
     Pieces that `Data` can decode without reaching its panic: either empty,
     or occupied with one of the six chessman patterns in the low bits.
     */
    predicate Decodable() {
      value & MaskUnoccupied != 0 || value & MaskChessman < 6
    }

    /** The byte patterns `New` produces: the empty marker or a team bit over a chessman. */
    predicate Canonical() {
      value == MaskUnoccupied || (value & MaskUnoccupied == 0 && value & MaskChessman < 6)
    }

    /** Packs an optional (team, chessman) pair into a byte. */
    static function New(occupant: Option<(Team, Chessman)>): (p: Piece)
      ensures occupant.None? ==> p.value == MaskUnoccupied
      ensures occupant.Some? ==> p.value < 16
      ensures occupant.Some? ==> (p.value & MaskTeam == 0 <==> occupant.value.0 == White)
      ensures occupant.Some? ==> p.value & MaskChessman == occupant.value.1.AsU8()
      ensures p.Canonical() && p.Decodable()
    {
      match occupant
      case Some((team, chessman)) => Piece((team.AsU8() << ShiftTeam) | chessman.AsU8())
      case None => Piece(MaskUnoccupied)
    }

    /**
     Decodes the packed byte. The two chessman patterns 6 and 7 are a fatal
     fault in the source; here they are excluded by `Decodable`.
     */
    function Data(): (r: Option<(Team, Chessman)>)
      requires Decodable()
      ensures r.None? <==> value & MaskUnoccupied != 0
      ensures r.None? <==> value >= 16
      ensures r.Some? ==> (r.value.0 == White <==> value & MaskTeam == 0)
      ensures r.Some? ==> r.value.1.AsU8() == value & MaskChessman
    {
      if value & MaskUnoccupied != 0 then
        None
      else
        var team := if value & MaskTeam == 0 then White else Black;
        var chessman :=
          match value & MaskChessman
          case 0 => King
          case 1 => Queen
          case 2 => Bishop
          case 3 => Knight
          case 4 => Rook
          case 5 => Pawn
          case _ => assert false; King;
        Some((team, chessman))
    }

    /** The default piece is the all-zero byte, which is NOT the empty piece. */
    static function Default(): (p: Piece)
      ensures p.value == 0
      ensures p.Decodable() && p.Data() == Some((White, King))
      ensures p != New(None) && New(None).Data() == None
    {
      Piece(0)
    }
  }

  /** Decoding undoes packing, for all twelve occupied cases and for the empty one. */
  lemma DataOfNew(occupant: Option<(Team, Chessman)>)
    ensures Piece.New(occupant).Data() == occupant
  {
  }

  /** Packing undoes decoding on every byte pattern that packing can produce. */
  lemma NewOfData(p: Piece)
    requires p.Canonical()
    ensures p.Decodable() && Piece.New(p.Data()) == p
  {
  }

  /** Two occupants pack to the same byte exactly when they are equal. */
  lemma NewInjective(a: Option<(Team, Chessman)>, b: Option<(Team, Chessman)>)
    ensures Piece.New(a) == Piece.New(b) <==> a == b
  {
  }

  /**
   The bytes built by `New` are exactly the canonical ones, so no constructed
   piece reaches the panic of `Data`.
   */
  lemma ConstructedIffCanonical(p: Piece)
    ensures (exists occupant :: Piece.New(occupant) == p) <==> p.Canonical()
  {
    if p.Canonical() {
      NewOfData(p);
    }
  }

  /** A square of the board as a linear index; valid coordinates lie below 64. */
  datatype Coordinate = Coordinate(value: bv8) {

    /** The invariant every constructed coordinate keeps. */
    predicate Valid() {
      value < NumTiles
    }

    /** The row of the square: the index lies in row `r`'s block of eight. */
    function Rank(): (r: bv8)
      ensures r as int * 8 <= value as int < r as int * 8 + 8
      ensures Valid() ==> r < 8
    {
      value / BoardLength
    }

    /** The column of the square: the index is `Rank() * 8 + f`. */
    function File(): (f: bv8)
      ensures f < 8
      ensures value as int == Rank() as int * 8 + f as int
    {
      value % BoardLength
    }

    /**
     Conversion from a (rank, file) pair; each axis is checked on its own,
     never the computed index.
     */
    static function TryFromRankFile(rank: bv8, file: bv8): (r: Result<Coordinate, Error>)
      ensures r.Ok? <==> rank < 8 && file < 8
      ensures r.Ok? ==> r.value.Valid() && r.value.value as int == rank as int * 8 + file as int
      ensures r.Ok? ==> r.value.Rank() == rank && r.value.File() == file
      ensures r.Err? ==> r.error == OutOfBoundsAxis
    {
      if rank < BoardLength && file < BoardLength then
        Ok(Coordinate(rank * BoardLength + file))
      else
        Err(OutOfBoundsAxis)
    }

    /** Conversion from a linear index, stored verbatim when it is on the board. */
    static function TryFromIndex(index: bv8): (r: Result<Coordinate, Error>)
      ensures r.Ok? <==> index < 64
      ensures r.Ok? ==> r.value.Valid() && r.value.value == index
      ensures r.Ok? ==> r.value.Rank() as int == index as int / 8 && r.value.File() as int == index as int % 8
      ensures r.Err? ==> r.error == OutOfBoundsIndex
    {
      if index < NumTiles then
        Ok(Coordinate(index))
      else
        Err(OutOfBoundsIndex)
    }
  }

  /** Every valid coordinate is rebuilt by both conversions from its own parts. */
  lemma CoordinateRoundTrip(c: Coordinate)
    requires c.Valid()
    ensures Coordinate.TryFromRankFile(c.Rank(), c.File()) == Ok(c)
    ensures Coordinate.TryFromIndex(c.value) == Ok(c)
  {
  }

  /** A coordinate is valid exactly when some (rank, file) pair converts to it. */
  lemma ValidIffFromRankFile(c: Coordinate)
    ensures c.Valid() <==> exists rank, file :: Coordinate.TryFromRankFile(rank, file) == Ok(c)
  {
    if c.Valid() {
      CoordinateRoundTrip(c);
    }
  }

  /** A coordinate is valid exactly when some index converts to it. */
  lemma ValidIffFromIndex(c: Coordinate)
    ensures c.Valid() <==> exists index :: Coordinate.TryFromIndex(index) == Ok(c)
  {
    if c.Valid() {
      CoordinateRoundTrip(c);
    }
  }

  /** On in-range axes the two conversions agree. */
  lemma ConversionsAgree(rank: bv8, file: bv8)
    requires rank < 8 && file < 8
    ensures Coordinate.TryFromRankFile(rank, file) == Coordinate.TryFromIndex(rank * 8 + file)
  {
  }

  /**
   An out-of-range file is rejected even when `rank * 8 + file` would be a
   valid index.
   */
  lemma AxisCheckedOnInputs(rank: bv8, file: bv8)
    requires rank < 8 && 8 <= file && rank as int * 8 + file as int < 64
    ensures Coordinate.TryFromRankFile(rank, file) == Err(OutOfBoundsAxis)
    ensures Coordinate.TryFromIndex(rank * 8 + file).Ok?
  {
  }

  /**
   A move: its kind, the squares it goes from and to, the piece that moves
   and the piece it captures (meaningful only for capturing kinds).
   */
  datatype Move = Move(kind: MoveKind, origin: Coordinate, target: Coordinate, piece: Piece, capture: Piece)
}
