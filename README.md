# Chess board vocabulary, verified

A Dafny model of `src/board.rs` of a Rust chess engine: the data vocabulary a
board implementation works with. Two parts of it carry behaviour and are
proved here:

- **Piece**: an optional (team, chessman) pair packed into one byte. Bit 3 is
  the team, bits 0-2 the chessman (King = 0 ... Pawn = 5), and any of bits 4-7
  set means the tile is empty; `New` packs, `Data` unpacks, and the all-zero
  `Default` piece decodes to a white king, not to an empty tile.
- **Coordinate**: a linear index into the 8x8 board that should stay below 64,
  built only through two fallible conversions, from a (rank, file) pair or
  from an index, and read back through `Rank` (index / 8) and `File`
  (index % 8).

`Team`, `Chessman`, `Error`, `MoveKind` and `Move` are datatypes with no
behaviour of their own beyond the `#[repr(u8)]` discriminants of `Team` and
`Chessman`. A Rust `u8` is a Dafny `bv8` throughout, so the masks and shifts
are the source's own; where a contract speaks of arithmetic it converts to
`int` so that no wrap-around can hide in it.

Everything lives in `board.dfy`: module `Wrappers` (the `Option` and `Result`
the Rust code returns) and module `Board`.

## Model

| member | source | states |
|---|---|---|
| `Board.Team.AsU8` | src/board.rs:55-58 | the team discriminant is one bit, 0 exactly for White |
| `Board.Chessman.AsU8` | src/board.rs:70-73 | the chessman discriminant fits the three low bits and is below 6 |
| `Board.Piece.New` | src/board.rs:91-96 | the empty occupant packs to 0xF0; an occupied one packs below 16 with bit 3 clear exactly for White and the chessman discriminant in bits 0-2; every packed byte is canonical, so decoding it never panics |
| `Board.Piece.Data` | src/board.rs:99-121 | on a decodable byte the result is empty exactly when a high bit is set (equivalently, the byte is at least 16); otherwise the team is White exactly when bit 3 is clear and the chessman's discriminant equals bits 0-2 |
| `Board.Piece.Default` | src/board.rs:124-127 | the default piece is the zero byte, decodes to a white king, and differs from the empty piece, which decodes to nothing |
| `Board.DataOfNew` | src/board.rs:183-199 | decoding a packed piece gives back the occupant, for all twelve (team, chessman) pairs and for the empty tile |
| `Board.NewOfData` | src/board.rs:91-121 | on every canonical byte, packing the decoded occupant gives back the same byte |
| `Board.NewInjective` | src/board.rs:91-96 | two occupants pack to the same byte exactly when they are equal |
| `Board.ConstructedIffCanonical` | src/board.rs:91-117 | a byte is produced by packing some occupant exactly when it is canonical, so the panic for chessman patterns 6 and 7 is unreachable from constructed pieces |
| `Board.Coordinate.Rank` | src/board.rs:138-140 | the index lies in the rank's block of eight squares; a valid coordinate has rank below 8 |
| `Board.Coordinate.File` | src/board.rs:143-145 | the file is below 8 and the index is rank * 8 + file |
| `Board.Coordinate.TryFromRankFile` | src/board.rs:154-161 | succeeds exactly when rank < 8 and file < 8, yielding a valid coordinate of index rank * 8 + file whose rank and file are the inputs; otherwise fails with OutOfBoundsAxis |
| `Board.Coordinate.TryFromIndex` | src/board.rs:165-174 | succeeds exactly when the index is below 64, storing it verbatim with rank index / 8 and file index % 8; otherwise fails with OutOfBoundsIndex |
| `Board.CoordinateRoundTrip` | src/board.rs:130-174 | every valid coordinate is rebuilt by the pair conversion from its own rank and file, and by the index conversion from its own index |
| `Board.ValidIffFromRankFile` | src/board.rs:130-161 | a coordinate is below 64 exactly when some (rank, file) pair converts to it |
| `Board.ValidIffFromIndex` | src/board.rs:165-174 | a coordinate is below 64 exactly when some index converts to it |
| `Board.ConversionsAgree` | src/board.rs:157-174 | for in-range axes, converting the pair and converting rank * 8 + file give the same coordinate |
| `Board.AxisCheckedOnInputs` | src/board.rs:157-161 | an out-of-range file is rejected with OutOfBoundsAxis even when rank * 8 + file is an index the index conversion accepts |

## Left out

- The `Board` trait (`set_tile`, `clear_tile`, `get_moves`): the file declares it without any implementation, so there is no behaviour to model; move generation lives outside this file.
- `Move` and `MoveKind` are datatypes only; the source gives them no operations.
- `Board.Piece.Data`: the `panic!` on chessman patterns 6 and 7 is not modelled as a fault; such bytes are excluded by the precondition `Decodable`, and `ConstructedIffCanonical` shows that no packed piece is one of them.
- The unused constants `NUM_TEAMS` and `NUM_CHESSMEN` carry no behaviour.
- The unit tests are not modelled as code; the properties they check are the lemmas `DataOfNew`, `Coordinate.TryFromRankFile` and `Coordinate.TryFromIndex` over all inputs.
- Field privacy: the Rust fields are private, so a `Coordinate` outside the two conversions cannot be built; in the model the datatype constructor is public, and validity is the predicate `Coordinate.Valid`, proved for every result of the conversions.
