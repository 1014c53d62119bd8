# libsan-rs: a verified model of the SAN move codec

libsan-rs reads and writes chess moves in Standard Algebraic Notation (SAN),
the notation of section 8.2.3 ("Movetext SAN") of the PGN Standard. It
handles a subset of it plus a few long forms (`e2e4`, `Qb1e4`, `e3xd4`), and
the `=` before a promotion is optional. The crate has three layers, and this
project models all of them:

- **Vocabulary** (`vocabulary.dfy`, module `Vocabulary`). The fixed text
  tables of `Piece`, `Annotation` and `CastleType` (`to_str` and
  `from_str`), the check marker `compile` writes, and `SanError`.
- **Squares** (`squares.dfy`, module `Squares`). `Position` with its two
  optional coordinates. The origin is the top-left square a8: file a..h is
  x = 0..7, rank 8..1 is y = 0..7. It covers the `pos_col!`, `pos_row!` and
  `pos!` decoding macros and the `u8` arithmetic of `Position::to_string`.
- **Move codec** (`san.dfy`, module `San`).
  - `Move` and `Move::new`.
  - `Move::compile`, a method that builds its text by successive appends. It
    is proved equal to the function `CompileText`.
  - `Move::parse`, a method with one early-return branch per pattern. It is
    proved equal to the function `Decode`. Each of the fourteen anchored
    patterns (castle, pawn, pawn long, piece, piece from file, from rank,
    from square, pawn capture, pawn capture long, four piece captures, and
    pawn promotion) is a hand-written matcher `Matches(rev, shape, s)` over
    `seq<char>`.

The properties are proved in three more modules:

- `SanProperties` (`san_properties.dfy`):
  - the patterns are pairwise disjoint, so the order `parse` tries them in
    never matters;
  - when parsing succeeds and when it fails;
  - the capture flag and the check type;
  - the crate's literal test cases;
  - `compile(parse(t)) == t`.
- `SanInverse` (`san_inverse.dfy`):
  - `parse(compile(m)) == m` for every well-formed move;
  - every parsed move is well-formed.
- `SanFindings` (`san_findings.dfy`): the two slips described under
  "Findings".

Several definitions take a `Revision` parameter:

- `AsWritten` is the crate's behaviour, and the method `Parse` implements
  it.
- `Intended` corrects the two slips:
  - it decodes the check marker;
  - it limits rank disambiguators to `[1-8]`.

Panics of the source are preconditions of the model:

- `pos_row!` underflows on a rank disambiguator of `0` or `9`, so `Parse`
  and `Decode` require `!RankUnderflow(..)`.
- `Position::to_string` overflows `u8` past its character range, so it
  requires `Encodable(..)`.

## Model

| member | source | states |
|---|---|---|
| Vocabulary.PieceToStr | src/lib.rs:90-99 | only the pawn has the empty code; every other piece has one letter of `[KQBNR]` |
| Vocabulary.PieceFromStr | src/lib.rs:101-111 | decodes exactly the codes `to_str` produces (`""` is the pawn) and inverts it; a single `[KQBNR]` letter decodes to a piece other than the pawn; anything else is `IllegalInput` |
| Vocabulary.AnnotationToStr | src/lib.rs:126-134 | every annotation token is one or two characters of `?`/`!` |
| Vocabulary.AnnotationFromStr | src/lib.rs:136-145 | decodes exactly the tokens `to_str` produces, and inverts it; `""` and every other string give `IllegalInput` |
| Vocabulary.CastleToStr | src/lib.rs:157-162 | both tokens start with `O-O`; the token has 5 characters exactly for queenside |
| Vocabulary.CastleFromStr | src/lib.rs:164-170 | decodes exactly `O-O` and `O-O-O`, and inverts `to_str`; anything else is `IllegalInput` |
| Vocabulary.CheckToStr | src/lib.rs:277-282 | the marker is at most one character, and empty exactly when there is no check type |
| Squares.PosCol | src/lib.rs:8-12 | `c - 0x61`: the column plus the code of `a` is the character's code, so `a..h` is column 0..7 in order, and the column is on the board exactly for `a-h` |
| Squares.PosRow | src/lib.rs:14-18 | `7 - (d - 1)` needs the digit to be 1..8, and is then `8 - d`, a board rank |
| Squares.Pos | src/lib.rs:20-24 | a file letter and a rank digit give a complete square on the board |
| Squares.Of | src/lib.rs:189-194 | both axes present; with board coordinates it is a square, written as its file letter then its rank digit |
| Squares.FileChar | src/lib.rs:200-202 | `'a' + (x as u8)` is a letter of `a-h` exactly when the low 8 bits of `x` are 0..7 |
| Squares.RankChar | src/lib.rs:203-205 | `'8' - (y as u8)` is a digit of `1-8` exactly when the low 8 bits of `y` are 0..7 |
| Squares.PositionText | src/lib.rs:197-208 | one character per present axis, the file letter first and the rank digit last |
| Squares.ToString | src/lib.rs:197-208 | the successive pushes produce `PositionText` |
| Squares.SquareTextRoundTrip | src/lib.rs:20-24 | encoding inverts decoding: `to_string(pos!(f, r))` is `f` then `r` |
| Squares.FileRoundTrip | src/lib.rs:8-12 | a file letter decodes to a column 0..7 that `to_string` writes back as the same letter |
| Squares.RankRoundTrip | src/lib.rs:14-18 | a rank digit 1..8 decodes to a row 0..7 that `to_string` writes back as the same digit |
| Squares.CoordinateRoundTrip | src/lib.rs:197-208 | decoding inverts encoding: each board coordinate is written as a character that decodes back to it |
| Squares.EmptyPositionText | src/lib.rs:197-208 | a position renders as `""` exactly when it is `POS_NONE` |
| San.Compile | src/lib.rs:256-289 | the successive pushes produce `CompileText`: body, `=` and promotion, check marker, annotation |
| San.NewMove | src/lib.rs:242-251 | the given piece and kind, not a capture, no promotion, check type or annotation, so it is written as its move proper alone |
| San.CompileText | src/lib.rs:256-289 | the text starts with the move proper, which is all of it when no promotion, check type or annotation is set |
| San.PromotionLength | src/lib.rs:381-461 | the optional group `(?:=?([KQBNR]))` of the two pawn-capture patterns, whose core `=?([KQBNR])` the promotion pattern also has, takes no more characters than there are |
| San.HeadLength | src/lib.rs:294-474 | the part of a matched input before its promotion and tail lies within the input |
| San.TailStart | src/lib.rs:294-474 | the common tail `(\+\|\#)?(...)?$` starts within the input |
| San.DecodeCheck | src/lib.rs:26-39 | as written the check type is always `None`; corrected, it is check exactly for the group `+` and mate exactly for `#` |
| San.Matches | src/lib.rs:297-461 | the fourteen anchored patterns; every match has at least two characters, starts with `O` exactly for the castle and with a file letter exactly for the pawn patterns |
| San.Extract | src/lib.rs:296-471 | every match yields a move: a castle exactly for the castle pattern, a pawn exactly for the pawn patterns, a capture exactly for the patterns with `x` |
| San.Decode | src/lib.rs:294-474 | parsing succeeds exactly when some pattern matches, its capture flag is that pattern's, and failure is `RegexExhausted("could not parse: " + s)` |
| San.DecodeCheckMarker | src/lib.rs:30-35 | `+` is check and `#` is mate, nothing else gives a check type, and the marker `compile` writes is recovered |
| San.DecodeAnnotation | src/lib.rs:41-45 | an annotation exactly when the group is an annotation token, and then `to_str` gives the group back |
| San.DecodePromotion | src/lib.rs:47-51 | an absent group (looked up as "fail") gives no promotion; a `[KQBNR]` letter gives a piece other than the pawn whose code is that letter |
| San.FirstShape | src/lib.rs:294-471 | the shape `parse` commits to does match the whole input |
| San.Parse | src/lib.rs:294-474 | the chain of early returns computes `Decode`: the first matching pattern's move, else `RegexExhausted` |
| San.ParseCastle | src/lib.rs:296-306 | the castle branch builds the move `Extract` gives for its pattern |
| San.ParsePawnPush | src/lib.rs:308-318 | the pawn branch builds the move `Extract` gives for its pattern |
| San.ParsePawnLong | src/lib.rs:320-330 | the long pawn branch builds the move `Extract` gives for its pattern |
| San.ParsePiecePush | src/lib.rs:332-342 | the piece branch builds the move `Extract` gives for its pattern |
| San.ParsePieceFromFile | src/lib.rs:344-354 | the piece-from-file branch builds the move `Extract` gives for its pattern |
| San.ParsePieceFromRank | src/lib.rs:356-366 | the piece-from-rank branch builds the move `Extract` gives for its pattern |
| San.ParsePieceFromSquare | src/lib.rs:368-378 | the piece-from-square branch builds the move `Extract` gives for its pattern |
| San.ParsePawnCapture | src/lib.rs:380-392 | the pawn capture branch builds the move `Extract` gives for its pattern |
| San.ParsePawnCaptureLong | src/lib.rs:394-406 | the long pawn capture branch builds the move `Extract` gives for its pattern |
| San.ParsePieceCapture | src/lib.rs:408-419 | the piece capture branch builds the move `Extract` gives for its pattern |
| San.ParsePieceCaptureFromFile | src/lib.rs:421-432 | the piece-capture-from-file branch builds the move `Extract` gives for its pattern |
| San.ParsePieceCaptureFromRank | src/lib.rs:434-445 | the piece-capture-from-rank branch builds the move `Extract` gives for its pattern |
| San.ParsePieceCaptureFromSquare | src/lib.rs:447-458 | the piece-capture-from-square branch builds the move `Extract` gives for its pattern |
| San.ParsePawnPromotion | src/lib.rs:460-471 | the promotion branch builds the move `Extract` gives for its pattern |
| SanProperties.SuffixChars | src/lib.rs:297 | every character of the common tail is `+`, `#`, `?` or `!` |
| SanProperties.ShapeForMatch | src/lib.rs:296-471 | a matching input has the shape its first characters decide, so each input matches at most one pattern |
| SanProperties.ShapesDisjoint | src/lib.rs:296-471 | no input matches two patterns |
| SanProperties.MatchDecides | src/lib.rs:294-474 | whichever pattern matches is the one `parse` commits to, wherever it stands in the order |
| SanProperties.ExtractSucceeds | src/lib.rs:294-471 | a matching pattern always yields a move: the `?` on `from_str` never fires |
| SanProperties.DecodeOutcome | src/lib.rs:294-474 | parsing succeeds exactly when some pattern matches, and otherwise fails with `RegexExhausted("could not parse: " + input)` |
| SanProperties.NoCaptureMark | src/lib.rs:296-471 | no non-capture pattern admits an `x` |
| SanProperties.CaptureFlag | src/lib.rs:242-454 | `Move::new` leaves `is_capture` false and only the capture patterns set it, so it is set exactly when the input contains `x` |
| SanProperties.CheckTypeAlwaysNone | src/lib.rs:26-39 | as written, every parsed move has no check type |
| SanProperties.TestCastleShort | src/tests.rs:33-41 | `O-O` parses to a kingside castle of the king with nothing else set |
| SanProperties.TestCastleLong | src/tests.rs:43-51 | `O-O-O` parses to a queenside castle of the king with nothing else set |
| SanProperties.TestPawn | src/tests.rs:53-58 | `e4` parses to a pawn move with no origin to (4,4) |
| SanProperties.TestPawnLong | src/tests.rs:60-65 | `e2e4` parses to a pawn move from (4,6) to (4,4) |
| SanProperties.TestPiece | src/tests.rs:67-72 | `Qe4` parses to a queen move to (4,4) |
| SanProperties.TestPieceFile | src/tests.rs:74-79 | `Qbe4` parses to a queen move from file 1 to (4,4) |
| SanProperties.TestPieceRank | src/tests.rs:81-86 | `Q1e4` parses to a queen move from rank 7 to (4,4) |
| SanProperties.TestPieceLong | src/tests.rs:88-93 | `Qb1e4` parses to a queen move from (1,7) to (4,4) |
| SanProperties.TestPawnCapture | src/tests.rs:95-100 | `exd4` parses to a pawn capture from file 4 to (3,4) |
| SanProperties.TestPawnCapturePromotion | src/tests.rs:102-111 | `exd8=Q` parses to a pawn capture from file 4 to (3,0) promoting to a queen |
| SanProperties.TestPawnCaptureLong | src/tests.rs:113-118 | `e3xd4` parses to a pawn capture from (4,5) to (3,4) |
| SanProperties.TestPieceCapture | src/tests.rs:120-125 | `Rxh3` parses to a rook capture to (7,5) |
| SanProperties.TestPieceCaptureFile | src/tests.rs:127-132 | `Rexh3` parses to a rook capture from file 4 to (7,5) |
| SanProperties.TestPieceCaptureRank | src/tests.rs:134-139 | `R1xh3` parses to a rook capture from rank 7 to (7,5) |
| SanProperties.TestPieceCaptureLong | src/tests.rs:141-146 | `Re3xh3` parses to a rook capture from (4,5) to (7,5) |
| SanProperties.TestPawnPromotion | src/tests.rs:148-157 | `d8=Q` parses to a pawn move to (3,0) promoting to a queen |
| SanProperties.TestUnparsable | src/lib.rs:473 | `""` and `Z9` fail with `RegexExhausted` carrying the input |
| SanProperties.CompileExample | src/tests.rs:159-171 | the test's move compiles to `exd8=Q+?!` |
| SanProperties.SuffixRoundTrip | src/lib.rs:277-286 | the decoded check and annotation groups compile back to the tail, when the check group is decoded or empty |
| SanProperties.PromotionRoundTrip | src/lib.rs:272-275 | a promotion written `=X` decodes to a piece that compiles back to `=X` |
| SanProperties.OriginRoundTrip | src/lib.rs:197-208 | the origin each pattern decodes is on the board and compiles back to the same characters |
| SanProperties.MatchLayout | src/lib.rs:308-471 | where each non-castle pattern puts its destination, piece letter and `x` |
| SanProperties.PieceBack | src/lib.rs:262 | the piece a matched input decodes to is written back as the input's leading letter, or nothing for a pawn |
| SanProperties.CaptureBack | src/lib.rs:264-266 | the capture flag a pattern sets is written back as the `x` the input has before its destination |
| SanProperties.DestinationBack | src/lib.rs:267 | the destination a matched input decodes to is written back as its two destination characters |
| SanProperties.BodyRoundTrip | src/lib.rs:258-268 | the move proper of a matched input compiles back to the input's head |
| SanProperties.PromotionPart | src/lib.rs:272-275 | the decoded promotion compiles back to its group when `=` is written |
| SanProperties.SuffixPart | src/lib.rs:277-286 | the decoded check type and annotation compile back to the tail |
| SanProperties.ExtractRoundTrip | src/lib.rs:256-474 | for each pattern, compiling the extracted move gives the input back |
| SanProperties.TextRoundTrip | src/lib.rs:256-474 | `compile(parse(t)) == t` for every accepted `t` that writes `=` before a promotion and, as written, has no `+`/`#` |
| SanInverse.SuffixForward | src/lib.rs:277-286 | the tail `compile` writes is accepted and decodes to the move's check type and annotation |
| SanInverse.PromotionForward | src/lib.rs:272-275 | the promotion `compile` writes is read back as the same piece, and what follows it is the tail |
| SanInverse.ShapeOffsets | src/lib.rs:258-268 | the offsets of a move's pattern agree with the lengths of its compiled parts |
| SanInverse.NormalLayout | src/lib.rs:256-289 | where the piece letter, origin, `x` and destination sit in a compiled move |
| SanInverse.NormalChars | src/lib.rs:256-289 | the characters of a compiled move and what they decode to |
| SanInverse.NormalTail | src/lib.rs:272-286 | what follows the destination of a compiled move is what its pattern admits, and decodes to its promotion |
| SanInverse.LayoutMatches | src/lib.rs:308-471 | an input laid out part by part as a pattern says matches that pattern |
| SanInverse.NormalMatches | src/lib.rs:256-471 | a compiled well-formed move matches the pattern of its shape |
| SanProperties.OriginAxes | src/lib.rs:308-471 | the origin each pattern decodes, axis by axis |
| SanInverse.NormalExtract | src/lib.rs:256-471 | a compiled well-formed normal move is extracted back as itself |
| SanInverse.CastleExtract | src/lib.rs:296-306 | a compiled castle is extracted back as itself |
| SanProperties.NoUnderflow | src/lib.rs:14-18 | an input matching a pattern with its rank in range never reaches the underflow |
| SanProperties.DecodeBy | src/lib.rs:294-474 | an input a pattern matches, with its rank in range, is decoded without a panic by that pattern's branch |
| SanProperties.DecodeNormal | src/lib.rs:308-471 | an input a non-castle pattern matches, with its rank in range, is decoded without a panic into the move built from that pattern's groups |
| SanInverse.MoveRoundTrip | src/lib.rs:256-474 | `parse(compile(m)) == Ok(m)` without panicking, for every well-formed move |
| SanInverse.PromotionNotPawn | src/lib.rs:47-51 | a decoded promotion is never the pawn, and always present in the promotion pattern |
| SanInverse.ParsedIsWellFormed | src/lib.rs:294-474 | every parsed move is well-formed and written in the pattern it was read from |
| SanFindings.CheckMarkerDropped | src/lib.rs:26-39 | as written, `e4+` parses to a plain `e4`, which compiles to `e4` |
| SanFindings.CheckMarkerKept | src/lib.rs:26-39 | corrected, `e4+` parses to a push giving check, which compiles to `e4+` |
| SanFindings.CheckMarkerDecoded | src/lib.rs:26-39 | corrected, a parsed move gives check exactly when the input has `+`, and mate exactly when it has `#` |
| SanProperties.TailIsSuffix | src/lib.rs:294-471 | the tail of a matched input is one the common tail pattern accepts |
| SanFindings.MarkerInTail | src/lib.rs:294-471 | a matched input contains `+` (or `#`) exactly when its check group is that marker |
| SanFindings.MarkerAtTailStart | src/lib.rs:297 | with no marker before the tail, a marker is present exactly when it is the tail's check group |
| SanFindings.SuffixMarkerFirst | src/lib.rs:297 | in the common tail a check marker can only come first |
| SanFindings.MarkersOnlyInTail | src/lib.rs:294-471 | no `+` or `#` occurs before the tail of a matched input |
| SanFindings.RankDigitUnderflows | src/lib.rs:14-18 | as written, `R0e4` and `Rb9xh3` match a rank pattern and reach the underflow |
| SanFindings.IntendedNeverUnderflows | src/lib.rs:357-448 | with `[1-8]`, no input reaches the underflow |
| SanFindings.MatchesAcross | src/lib.rs:357-448 | the corrected patterns match exactly the written matches with the rank in range |
| SanFindings.IntendedRejectsBadRank | src/lib.rs:357-473 | corrected, an input that would underflow is rejected with `RegexExhausted` |
| SanFindings.ExtractAgrees | src/lib.rs:294-471 | without `+`/`#`, both readings extract the same move |
| SanFindings.RevisionsAgree | src/lib.rs:294-474 | without `+`/`#` and away from the underflow, both readings parse alike |

## Left out

- `src/san.rs` is not part of this model. It is an unused draft: `src/lib.rs` never declares it, and it would not compile.
- The `regex` crate is not modelled as an engine. Each pattern is an explicit character-class matcher, `Matches`. Building each `Regex` on every call and the `.unwrap()` on `captures` are left out.
- The `std::error::Error`, `Debug` and `ToString` trait plumbing is left out. `format!` is modelled only as the message strings it builds.
- `Position` coordinates are `usize` in the source and `nat` here. No input produces one anywhere near the `usize` bound.
- Squares.PosRow: the `usize` underflow on a digit of 0 or 9 is a precondition, not a modelled panic or release-mode wrap-around. For that reason San.Parse and San.Decode require `!RankUnderflow`.
- Squares.PositionText and Squares.ToString: the `u8` overflow of `b'a' + x` and `b'8' - y` is a precondition (`Encodable`), not a modelled panic.
- San.Parse: the `?` after `Piece::from_str` and `CastleType::from_str` is a dead path, because the patterns admit only codes that decode. The branches take the decoded value directly. `ExtractSucceeds` proves that the path is dead.
- `Move` is updated in place by `parse` (`mov.is_capture = true`, and so on). It is modelled as a value updated field by field with `mov.(field := ...)`.
- SanProperties.TextRoundTrip: as written, it excludes inputs with `+`/`#`, because the parser drops the marker (see "Findings"). It also excludes promotions written without `=`, because `compile` always writes the `=`.

## Findings

| source | as written | input that shows it | evidently intended | confidence | as-written member | corrected member |
|---|---|---|---|---|---|---|
| src/lib.rs:26-39 | `check_type!` evaluates `Some(CheckType::Check);` and `Some(CheckType::Mate);` as statements, whose values are dropped, and always yields `None` | `e4+` parses with `check_type == None`, and compiles back to `e4` | `+` decodes to `Some(Check)` and `#` to `Some(Mate)` | high (not executed) | SanFindings.CheckMarkerDropped | SanFindings.CheckMarkerDecoded |
| src/lib.rs:357-448 | the rank disambiguator is `[0-9]`, and `pos_row!` computes `7 - (d - 1)` in `usize` | `R0e4` and `Rb9xh3` match and then underflow (a panic in debug builds) | the class `[1-8]`, so that such inputs are rejected with `RegexExhausted` | high (not executed) | SanFindings.RankDigitUnderflows | SanFindings.IntendedRejectsBadRank |
