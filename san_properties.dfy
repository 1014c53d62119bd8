/** What the codec promises about itself: the move shapes never overlap, so
    the order `Move::parse` tries them in does not matter; parsing fails only
    when no shape matches; the capture flag and check marker behave as the
    source makes them; compiling and parsing invert each other; and the
    literal cases of the crate's tests. */
module SanProperties {
  import opened Vocabulary
  import opened Squares
  import opened San

  // ---------------------------------------------------------------------
  // The shapes are pairwise disjoint

  predicate IsSuffixChar(c: char) {
    IsCheckMarker(c) || IsAnnotationChar(c)
  }

  /** Every character of the common tail is `+`, `#`, `?` or `!`. */
  lemma SuffixChars(t: string)
    requires IsSuffix(t)
    ensures forall i :: 0 <= i < |t| ==> IsSuffixChar(t[i])
  {
  }

  /** The shape a string can only be, read off its first characters: the
      class of the first (`O`, a file or a piece letter), then where the
      `x` is, then the class of the second, third or fourth character. */
  function ShapeFor(s: string): Option<Shape> {
    if |s| == 0 then None
    else if s[0] == 'O' then Some(CastleMove)
    else if IsFile(s[0]) then
      if |s| >= 2 && s[1] == 'x' then Some(PawnCapture)
      else if |s| >= 3 && s[2] == 'x' then Some(PawnCaptureLong)
      else if |s| >= 3 && IsFile(s[2]) then Some(PawnLong)
      else if |s| >= 3 && (s[2] == '=' || IsPieceLetter(s[2])) then Some(PawnPromotion)
      else Some(PawnPush)
    else if IsPieceLetter(s[0]) then
      if |s| >= 2 && s[1] == 'x' then Some(PieceCapture)
      else if |s| >= 3 && s[2] == 'x' then
        (if IsFile(s[1]) then Some(PieceCaptureFromFile) else Some(PieceCaptureFromRank))
      else if |s| >= 4 && s[3] == 'x' then Some(PieceCaptureFromSquare)
      else if |s| >= 2 && IsFile(s[1]) then
        if |s| >= 3 && IsFile(s[2]) then Some(PieceFromFile)
        else if |s| >= 4 && IsFile(s[3]) then Some(PieceFromSquare)
        else Some(PiecePush)
      else Some(PieceFromRank)
    else None
  }

  /** A string matching a shape is of the shape its first characters say. */
  lemma ShapeForMatch(rev: Revision, sh: Shape, s: string)
    requires Matches(rev, sh, s)
    ensures ShapeFor(s) == Some(sh)
  {
    match sh
    case CastleMove =>
    case PawnPush => SuffixChars(s[2..]);
    case PawnLong =>
    case PiecePush => SuffixChars(s[3..]);
    case PieceFromFile =>
    case PieceFromRank =>
    case PieceFromSquare =>
    case PawnCapture =>
    case PawnCaptureLong =>
    case PieceCapture =>
    case PieceCaptureFromFile =>
    case PieceCaptureFromRank =>
    case PieceCaptureFromSquare =>
    case PawnPromotion =>
  }

  /** At most one shape matches any input. */
  lemma ShapesDisjoint(rev: Revision, s: string, a: Shape, b: Shape)
    requires Matches(rev, a, s) && Matches(rev, b, s)
    ensures a == b
  {
    ShapeForMatch(rev, a, s);
    ShapeForMatch(rev, b, s);
  }

  /** The first-match order never changes the result: whichever shape
      matches is the one `Move::parse` commits to, wherever it stands in the
      order. */
  lemma MatchDecides(rev: Revision, sh: Shape, s: string)
    requires Matches(rev, sh, s)
    ensures FirstShape(rev, s) == Some(sh)
    ensures !RankUnderflow(rev, s) ==>
              DisambiguatorInRange(rev, sh, s) && Decode(rev, s) == Extract(rev, sh, s)
  {
    var first := FirstShape(rev, s);
    ShapesDisjoint(rev, s, first.value, sh);
  }

  /** An input that matches a shape within the range of its rank
      disambiguator does not reach the underflow of `pos_row!`. */
  lemma NoUnderflow(rev: Revision, sh: Shape, t: string)
    requires Matches(rev, sh, t) && DisambiguatorInRange(rev, sh, t)
    ensures !RankUnderflow(rev, t)
  {
    if Matches(rev, PieceFromRank, t) {
      ShapesDisjoint(rev, t, sh, PieceFromRank);
    }
    if Matches(rev, PieceCaptureFromRank, t) {
      ShapesDisjoint(rev, t, sh, PieceCaptureFromRank);
    }
    if Matches(rev, PieceFromSquare, t) {
      ShapesDisjoint(rev, t, sh, PieceFromSquare);
    }
    if Matches(rev, PieceCaptureFromSquare, t) {
      ShapesDisjoint(rev, t, sh, PieceCaptureFromSquare);
    }
  }

  /** An input matching a shape, within the range of its rank
      disambiguator, is decoded by that shape. */
  lemma DecodeBy(rev: Revision, sh: Shape, s: string)
    requires Matches(rev, sh, s) && DisambiguatorInRange(rev, sh, s)
    ensures !RankUnderflow(rev, s) && Decode(rev, s) == Extract(rev, sh, s)
  {
    NoUnderflow(rev, sh, s);
    MatchDecides(rev, sh, s);
  }

  /** An input matching a non-castle shape, within the range of its rank
      disambiguator, is decoded field by field from that shape's groups. */
  lemma DecodeNormal(rev: Revision, sh: Shape, s: string)
    requires Matches(rev, sh, s) && DisambiguatorInRange(rev, sh, s) && !sh.CastleMove?
    requires MovingPiece(rev, sh, s).Ok?
    ensures var h, tail := HeadLength(rev, sh, s), s[TailStart(rev, sh, s)..];
            && !RankUnderflow(rev, s)
            && Decode(rev, s)
               == Ok(Move(Normal(Origin(rev, sh, s), Destination(rev, sh, s)), MovingPiece(rev, sh, s).value,
                          if HasPromotionGroup(sh) then DecodePromotion(PromotionGroup(s[h..])) else None,
                          DecodeAnnotation(AnnotationGroup(tail)), DecodeCheck(rev, CheckGroup(tail)),
                          IsCaptureShape(sh)))
  {
    DecodeBy(rev, sh, s);
    ExtractNormal(rev, sh, s);
  }

  // ---------------------------------------------------------------------
  // Outcome of parsing

  /** A matching shape always yields a move: the piece letters and castle
      tokens the patterns admit all decode. */
  lemma ExtractSucceeds(rev: Revision, sh: Shape, s: string)
    requires Matches(rev, sh, s) && DisambiguatorInRange(rev, sh, s)
    ensures Extract(rev, sh, s).Ok?
  {
    if sh.CastleMove? {
      if IsShortCastle(s) {
        assert CastleToStr(Kingside) == s[..3];
      } else {
        assert CastleToStr(Queenside) == s[..5];
      }
    } else if !IsPawnShape(sh) {
      assert s[..1][0] == s[0];
    }
  }

  /** Parsing succeeds exactly when some shape matches the whole input, and
      otherwise fails with `RegexExhausted` carrying the input: the
      `IllegalInput` of a vocabulary lookup never escapes `Move::parse`. */
  lemma DecodeOutcome(rev: Revision, s: string)
    requires !RankUnderflow(rev, s)
    ensures Decode(rev, s).Ok? <==> exists sh :: Matches(rev, sh, s)
    ensures Decode(rev, s).Err? ==> Decode(rev, s).error == RegexExhausted("could not parse: " + s)
  {
    match FirstShape(rev, s)
    case Some(sh) =>
      MatchDecides(rev, sh, s);
      ExtractSucceeds(rev, sh, s);
    case None =>
      forall sh | Matches(rev, sh, s)
        ensures false
      {
        MatchDecides(rev, sh, s);
      }
  }

  /** Every character a non-capture shape admits differs from `x`. */
  lemma NoCaptureMark(rev: Revision, sh: Shape, s: string)
    requires Matches(rev, sh, s) && !IsCaptureShape(sh)
    ensures forall i :: 0 <= i < |s| ==> s[i] != 'x'
  {
    var ts := TailStart(rev, sh, s);
    SuffixChars(s[ts..]);
    forall i | 0 <= i < |s|
      ensures s[i] != 'x'
    {
      if i >= ts {
        assert s[i] == s[ts..][i - ts];
      } else if sh.CastleMove? {
        if IsShortCastle(s) {
          assert s[i] == s[..3][i];
        } else {
          assert s[i] == s[..5][i];
        }
      } else if i >= HeadLength(rev, sh, s) {
        assert s[i] == '=' || IsPieceLetter(s[i]);
      } else {
        assert i == 0 || i == 1 || i == 2 || i == 3 || i == 4;
      }
    }
  }

  /** `is_capture` is set exactly when the input has a literal `x`: only the
      six capture shapes set it, and only they admit an `x`. */
  lemma CaptureFlag(rev: Revision, s: string, m: Move)
    requires !RankUnderflow(rev, s) && Decode(rev, s) == Ok(m)
    ensures m.isCapture <==> 'x' in s
  {
    var sh := FirstShape(rev, s).value;
    if IsCaptureShape(sh) {
      assert s[if sh.PawnCapture? || sh.PieceCapture? then 1
               else if sh.PieceCaptureFromSquare? then 3 else 2] == 'x';
    } else {
      NoCaptureMark(rev, sh, s);
    }
  }

  /** As written, no parsed move carries a check type, even when the input
      ends in `+` or `#`. */
  lemma CheckTypeAlwaysNone(s: string, m: Move)
    requires !RankUnderflow(AsWritten, s) && Decode(AsWritten, s) == Ok(m)
    ensures m.checkType == None
  {
  }

  // ---------------------------------------------------------------------
  // The crate's literal cases
  //
  // Each case takes its input as a parameter fixed by `requires s == ...`
  // rather than as a literal in the `ensures`: with a literal argument the
  // verifier evaluates `Decode` through all fourteen patterns, which is far
  // more costly than the one `DecodeNormal` or `DecodeBy` step used here.

  lemma TestPawn(s: string)
    requires s == "e4"
    ensures !RankUnderflow(AsWritten, s)
    ensures Decode(AsWritten, s) == Ok(Move(Normal(POS_NONE, Of(4, 4)), Pawn, None, None, None, false))
  {
    DecodeNormal(AsWritten, PawnPush, s);
    assert s[2..] == "";
  }

  lemma TestPawnLong(s: string)
    requires s == "e2e4"
    ensures !RankUnderflow(AsWritten, s)
    ensures Decode(AsWritten, s) == Ok(Move(Normal(Of(4, 6), Of(4, 4)), Pawn, None, None, None, false))
  {
    DecodeNormal(AsWritten, PawnLong, s);
    assert s[4..] == "";
  }

  lemma TestPiece(s: string)
    requires s == "Qe4"
    ensures !RankUnderflow(AsWritten, s)
    ensures Decode(AsWritten, s) == Ok(Move(Normal(POS_NONE, Of(4, 4)), Queen, None, None, None, false))
  {
    DecodeNormal(AsWritten, PiecePush, s);
    assert s[..1] == "Q";
    assert s[3..] == "";
  }

  lemma TestPieceFile(s: string)
    requires s == "Qbe4"
    ensures !RankUnderflow(AsWritten, s)
    ensures Decode(AsWritten, s) == Ok(Move(Normal(Position(Some(1), None), Of(4, 4)), Queen, None, None, None, false))
  {
    DecodeNormal(AsWritten, PieceFromFile, s);
    assert s[..1] == "Q";
    assert s[4..] == "";
  }

  lemma TestPieceRank(s: string)
    requires s == "Q1e4"
    ensures !RankUnderflow(AsWritten, s)
    ensures Decode(AsWritten, s) == Ok(Move(Normal(Position(None, Some(7)), Of(4, 4)), Queen, None, None, None, false))
  {
    DecodeNormal(AsWritten, PieceFromRank, s);
    assert s[..1] == "Q";
    assert s[4..] == "";
  }

  lemma TestPieceLong(s: string)
    requires s == "Qb1e4"
    ensures !RankUnderflow(AsWritten, s)
    ensures Decode(AsWritten, s) == Ok(Move(Normal(Of(1, 7), Of(4, 4)), Queen, None, None, None, false))
  {
    DecodeNormal(AsWritten, PieceFromSquare, s);
    assert s[..1] == "Q";
    assert s[5..] == "";
  }

  lemma TestPawnCapture(s: string)
    requires s == "exd4"
    ensures !RankUnderflow(AsWritten, s)
    ensures Decode(AsWritten, s) == Ok(Move(Normal(Position(Some(4), None), Of(3, 4)), Pawn, None, None, None, true))
  {
    DecodeNormal(AsWritten, PawnCapture, s);
    assert s[4..] == "";
  }

  lemma TestPawnCapturePromotion(s: string)
    requires s == "exd8=Q"
    ensures !RankUnderflow(AsWritten, s)
    ensures Decode(AsWritten, s) == Ok(Move(Normal(Position(Some(4), None), Of(3, 0)), Pawn, Some(Queen), None, None, true))
  {
    DecodeNormal(AsWritten, PawnCapture, s);
    assert s[4..] == "=Q";
    assert s[6..] == "";
  }

  lemma TestPawnCaptureLong(s: string)
    requires s == "e3xd4"
    ensures !RankUnderflow(AsWritten, s)
    ensures Decode(AsWritten, s) == Ok(Move(Normal(Of(4, 5), Of(3, 4)), Pawn, None, None, None, true))
  {
    DecodeNormal(AsWritten, PawnCaptureLong, s);
    assert s[5..] == "";
  }

  lemma TestPieceCapture(s: string)
    requires s == "Rxh3"
    ensures !RankUnderflow(AsWritten, s)
    ensures Decode(AsWritten, s) == Ok(Move(Normal(POS_NONE, Of(7, 5)), Rook, None, None, None, true))
  {
    DecodeNormal(AsWritten, PieceCapture, s);
    assert s[..1] == "R";
    assert s[4..] == "";
  }

  lemma TestPieceCaptureFile(s: string)
    requires s == "Rexh3"
    ensures !RankUnderflow(AsWritten, s)
    ensures Decode(AsWritten, s) == Ok(Move(Normal(Position(Some(4), None), Of(7, 5)), Rook, None, None, None, true))
  {
    DecodeNormal(AsWritten, PieceCaptureFromFile, s);
    assert s[..1] == "R";
    assert s[5..] == "";
  }

  lemma TestPieceCaptureRank(s: string)
    requires s == "R1xh3"
    ensures !RankUnderflow(AsWritten, s)
    ensures Decode(AsWritten, s) == Ok(Move(Normal(Position(None, Some(7)), Of(7, 5)), Rook, None, None, None, true))
  {
    DecodeNormal(AsWritten, PieceCaptureFromRank, s);
    assert s[..1] == "R";
    assert s[5..] == "";
  }

  lemma TestPieceCaptureLong(s: string)
    requires s == "Re3xh3"
    ensures !RankUnderflow(AsWritten, s)
    ensures Decode(AsWritten, s) == Ok(Move(Normal(Of(4, 5), Of(7, 5)), Rook, None, None, None, true))
  {
    DecodeNormal(AsWritten, PieceCaptureFromSquare, s);
    assert s[..1] == "R";
    assert s[6..] == "";
  }

  lemma TestPawnPromotion(s: string)
    requires s == "d8=Q"
    ensures !RankUnderflow(AsWritten, s)
    ensures Decode(AsWritten, s) == Ok(Move(Normal(POS_NONE, Of(3, 0)), Pawn, Some(Queen), None, None, false))
  {
    DecodeNormal(AsWritten, PawnPromotion, s);
    assert s[2..] == "=Q";
    assert s[4..] == "";
  }

  lemma TestCastleShort(s: string)
    requires s == "O-O"
    ensures !RankUnderflow(AsWritten, s)
    ensures Decode(AsWritten, s) == Ok(Move(Castle(Kingside), King, None, None, None, false))
  {
    assert Matches(AsWritten, CastleMove, s);
    DecodeBy(AsWritten, CastleMove, s);
    assert s[..3] == "O-O";
    assert s[TailStart(AsWritten, CastleMove, s)..] == "";
  }

  lemma TestCastleLong(s: string)
    requires s == "O-O-O"
    ensures !RankUnderflow(AsWritten, s)
    ensures Decode(AsWritten, s) == Ok(Move(Castle(Queenside), King, None, None, None, false))
  {
    assert Matches(AsWritten, CastleMove, s);
    DecodeBy(AsWritten, CastleMove, s);
    assert s[..5] == "O-O-O";
    assert s[TailStart(AsWritten, CastleMove, s)..] == "";
  }

  /** The two failures the codec's description names: the empty input and
      a token of no shape. */
  lemma TestUnparsable()
    ensures Decode(AsWritten, "") == Err(RegexExhausted("could not parse: " + ""))
    ensures Decode(AsWritten, "Z9") == Err(RegexExhausted("could not parse: " + "Z9"))
  {
    DecodeOutcome(AsWritten, "");
    DecodeOutcome(AsWritten, "Z9");
    forall sh | Matches(AsWritten, sh, "Z9")
      ensures false
    {
      ShapeForMatch(AsWritten, sh, "Z9");
    }
  }

  /** The compile test: a pawn capture from the e-file to d8, promoting to
      a queen, with check and an "interesting" annotation. */
  lemma CompileExample()
    ensures CompileText(Move(Normal(Position(Some(4), None), Of(3, 0)), Pawn, Some(Queen),
                             Some(Interesting), Some(Check), true)) == "exd8=Q+?!"
  {
  }

  // ---------------------------------------------------------------------
  // Compiling a parsed text gives the text back

  /** Both coordinates, where present, are on the board. */
  predicate InRange(p: Position) {
    (p.x.Some? ==> p.x.value < 8) && (p.y.Some? ==> p.y.value < 8)
  }

  /** Every promotion letter is written after an `=` (the first character,
      a moving piece's letter, excepted). */
  predicate PromotionAfterEquals(t: string) {
    forall i :: 1 <= i < |t| && IsPieceLetter(t[i]) ==> t[i - 1] == '='
  }

  /** The check group and annotation group of a tail decode to markers that
      `compile` writes back as the same tail, provided the check group is
      decoded at all (it is not, as written) or is empty. */
  lemma SuffixRoundTrip(rev: Revision, tail: string)
    requires IsSuffix(tail)
    requires rev == Intended || CheckGroup(tail) == ""
    ensures CheckToStr(DecodeCheck(rev, CheckGroup(tail))) + AnnotationText(DecodeAnnotation(AnnotationGroup(tail)))
            == tail
  {
    var g := AnnotationGroup(tail);
    if g != "" {
      assert IsAnnotationToken(g);
    }
    if CheckGroup(tail) != "" {
      assert tail == CheckGroup(tail) + g;
    }
  }

  /** A promotion group written `=X` decodes to a piece that `compile`
      writes back as `=X`. */
  lemma PromotionRoundTrip(u: string)
    requires PromotionLength(u) != 1
    ensures PromotionText(DecodePromotion(PromotionGroup(u))) == u[..PromotionLength(u)]
  {
    if PromotionLength(u) == 2 {
      assert u[..2] == "=" + [u[1]];
    }
  }

  /** Where the origin's text starts: after the piece letter, if any. */
  function OriginStart(sh: Shape): nat {
    if IsPawnShape(sh) then 0 else 1
  }

  /** Where the origin's text ends: at the `x`, or at the destination. */
  function OriginEnd(sh: Shape): nat
    requires !sh.CastleMove?
  {
    DestinationIndex(sh) - (if IsCaptureShape(sh) then 1 else 0)
  }

  /** The shapes whose origin names a file. */
  predicate NamesFile(sh: Shape) {
    sh.PawnLong? || sh.PawnCapture? || sh.PawnCaptureLong? || sh.PieceFromFile? || sh.PieceFromSquare?
    || sh.PieceCaptureFromFile? || sh.PieceCaptureFromSquare?
  }

  /** The shapes whose origin names a rank. */
  predicate NamesRank(sh: Shape) {
    sh.PawnLong? || sh.PawnCaptureLong? || sh.PieceFromRank? || sh.PieceFromSquare?
    || sh.PieceCaptureFromRank? || sh.PieceCaptureFromSquare?
  }

  /** The origin a shape decodes, axis by axis. */
  lemma OriginAxes(rev: Revision, sh: Shape, t: string)
    requires Matches(rev, sh, t) && DisambiguatorInRange(rev, sh, t) && !sh.CastleMove?
    ensures NamesFile(sh) ==> IsFile(t[OriginStart(sh)])
    ensures NamesRank(sh) ==> OriginStart(sh) < OriginEnd(sh) && IsRank(t[OriginEnd(sh) - 1])
    ensures OriginEnd(sh) - OriginStart(sh) == (if NamesFile(sh) then 1 else 0) + (if NamesRank(sh) then 1 else 0)
    ensures Origin(rev, sh, t)
            == Position(if NamesFile(sh) then Some(PosCol(t[OriginStart(sh)])) else None,
                        if NamesRank(sh) then Some(PosRow(t[OriginEnd(sh) - 1])) else None)
  {
    match sh
    case PawnPush =>
    case PawnLong =>
    case PiecePush =>
    case PieceFromFile =>
    case PieceFromRank =>
    case PieceFromSquare =>
    case PawnCapture =>
    case PawnCaptureLong =>
    case PieceCapture =>
    case PieceCaptureFromFile =>
    case PieceCaptureFromRank =>
    case PieceCaptureFromSquare =>
    case PawnPromotion =>
  }

  /** The move a non-castle shape extracts, field by field. */
  lemma ExtractNormal(rev: Revision, sh: Shape, t: string)
    requires Matches(rev, sh, t) && DisambiguatorInRange(rev, sh, t) && !sh.CastleMove?
    requires MovingPiece(rev, sh, t).Ok?
    ensures var h, tail := HeadLength(rev, sh, t), t[TailStart(rev, sh, t)..];
            Extract(rev, sh, t)
            == Ok(Move(Normal(Origin(rev, sh, t), Destination(rev, sh, t)), MovingPiece(rev, sh, t).value,
                       if HasPromotionGroup(sh) then DecodePromotion(PromotionGroup(t[h..])) else None,
                       DecodeAnnotation(AnnotationGroup(tail)), DecodeCheck(rev, CheckGroup(tail)),
                       IsCaptureShape(sh)))
  {
  }

  /** The kind, piece and capture flag of a move extracted from a
      non-castle shape. */
  lemma ExtractHead(rev: Revision, sh: Shape, t: string)
    requires Matches(rev, sh, t) && DisambiguatorInRange(rev, sh, t) && !sh.CastleMove?
    requires MovingPiece(rev, sh, t).Ok?
    ensures var r := Extract(rev, sh, t);
            && r.Ok?
            && r.value.moveKind == Normal(Origin(rev, sh, t), Destination(rev, sh, t))
            && r.value.piece == MovingPiece(rev, sh, t).value
            && r.value.isCapture == IsCaptureShape(sh)
  {
    ExtractNormal(rev, sh, t);
  }

  /** The origin a shape decodes is written back as the same characters. */
  lemma OriginRoundTrip(rev: Revision, sh: Shape, t: string)
    requires Matches(rev, sh, t) && DisambiguatorInRange(rev, sh, t) && !sh.CastleMove?
    ensures OriginStart(sh) <= OriginEnd(sh) <= DestinationIndex(sh)
    ensures InRange(Origin(rev, sh, t))
    ensures PositionText(Origin(rev, sh, t)) == t[OriginStart(sh)..OriginEnd(sh)]
  {
    OriginAxes(rev, sh, t);
    var a, b := OriginStart(sh), OriginEnd(sh);
    if NamesFile(sh) {
      FileRoundTrip(t[a]);
    }
    if NamesRank(sh) {
      RankRoundTrip(t[b - 1]);
    }
    if NamesFile(sh) && NamesRank(sh) {
      assert t[a..b] == [t[a], t[b - 1]];
    } else if NamesFile(sh) {
      assert t[a..b] == [t[a]];
    } else if NamesRank(sh) {
      assert t[a..b] == [t[b - 1]];
    }
  }

  /** What every non-castle match has in common: where its destination
      square is, its piece letter and its `x`. */
  lemma MatchLayout(rev: Revision, sh: Shape, t: string)
    requires Matches(rev, sh, t) && !sh.CastleMove?
    ensures HeadLength(rev, sh, t) == DestinationIndex(sh) + 2 <= |t|
    ensures IsFile(t[DestinationIndex(sh)]) && IsRank(t[DestinationIndex(sh) + 1])
    ensures !IsPawnShape(sh) ==> IsPieceLetter(t[0])
    ensures IsCaptureShape(sh) ==> DestinationIndex(sh) >= 1 && t[DestinationIndex(sh) - 1] == 'x'
  {
    match sh
    case PawnPush =>
    case PawnLong =>
    case PiecePush =>
    case PieceFromFile =>
    case PieceFromRank =>
    case PieceFromSquare =>
    case PawnCapture =>
    case PawnCaptureLong =>
    case PieceCapture =>
    case PieceCaptureFromFile =>
    case PieceCaptureFromRank =>
    case PieceCaptureFromSquare =>
    case PawnPromotion =>
  }

  /** The piece of a matched text is written back as its leading letter,
      or as nothing for a pawn. */
  lemma PieceBack(rev: Revision, sh: Shape, t: string)
    requires Matches(rev, sh, t) && !sh.CastleMove?
    ensures OriginStart(sh) <= |t|
    ensures MovingPiece(rev, sh, t).Ok?
    ensures PieceToStr(MovingPiece(rev, sh, t).value) == t[..OriginStart(sh)]
  {
    MatchLayout(rev, sh, t);
    if !IsPawnShape(sh) {
      assert t[..1] == [t[0]];
    }
  }

  /** The destination of a matched text is written back as the same two
      characters. */
  lemma DestinationBack(rev: Revision, sh: Shape, t: string)
    requires Matches(rev, sh, t) && !sh.CastleMove?
    ensures DestinationIndex(sh) + 2 == HeadLength(rev, sh, t) <= |t|
    ensures PositionText(Destination(rev, sh, t)) == t[DestinationIndex(sh)..HeadLength(rev, sh, t)]
  {
    MatchLayout(rev, sh, t);
    var k := DestinationIndex(sh);
    SquareTextRoundTrip(t[k], t[k + 1]);
    assert t[k..k + 2] == [t[k], t[k + 1]];
  }

  /** The capture mark of a matched text is written back as `x`, exactly
      for the capture shapes. */
  lemma CaptureBack(rev: Revision, sh: Shape, t: string)
    requires Matches(rev, sh, t) && !sh.CastleMove?
    ensures OriginEnd(sh) <= DestinationIndex(sh) < |t|
    ensures (if IsCaptureShape(sh) then "x" else "") == t[OriginEnd(sh)..DestinationIndex(sh)]
  {
    MatchLayout(rev, sh, t);
    var k := DestinationIndex(sh);
    if IsCaptureShape(sh) {
      assert t[k - 1..k] == [t[k - 1]];
    }
  }

  /** The move proper of a matched text compiles back to the text's head. */
  lemma BodyRoundTrip(rev: Revision, sh: Shape, t: string, m: Move)
    requires Matches(rev, sh, t) && DisambiguatorInRange(rev, sh, t)
    requires Extract(rev, sh, t) == Ok(m)
    ensures Compilable(m) && BodyText(m) == t[..HeadLength(rev, sh, t)]
  {
    if sh.CastleMove? {
    } else {
      NormalBody(rev, sh, t, m);
    }
  }

  /** The non-castle case of `BodyRoundTrip`. */
  lemma NormalBody(rev: Revision, sh: Shape, t: string, m: Move)
    requires Matches(rev, sh, t) && DisambiguatorInRange(rev, sh, t) && !sh.CastleMove?
    requires Extract(rev, sh, t) == Ok(m)
    ensures Compilable(m) && BodyText(m) == t[..HeadLength(rev, sh, t)]
  {
    var h := HeadLength(rev, sh, t);
    OriginRoundTrip(rev, sh, t);
    PieceBack(rev, sh, t);
    DestinationBack(rev, sh, t);
    CaptureBack(rev, sh, t);
    ExtractHead(rev, sh, t);
    BodyFromParts(m, t, OriginStart(sh), OriginEnd(sh), DestinationIndex(sh), h);
  }

  /** The body of a non-castle move is its four parts written one after
      the other. */
  lemma BodyFromParts(m: Move, t: string, a: nat, b: nat, k: nat, h: nat)
    requires m.moveKind.Normal? && Compilable(m) && a <= b <= k <= h <= |t|
    requires PieceToStr(m.piece) == t[..a] && PositionText(m.moveKind.origin) == t[a..b]
    requires (if m.isCapture then "x" else "") == t[b..k] && PositionText(m.moveKind.destination) == t[k..h]
    ensures BodyText(m) == t[..h]
  {
    SplitPrefix(t, a, b, k, h);
  }

  lemma SplitPrefix(t: string, a: nat, b: nat, k: nat, h: nat)
    requires a <= b <= k <= h <= |t|
    ensures t[..h] == t[..a] + t[a..b] + t[b..k] + t[k..h]
  {
  }

  /** The promotion, check type and annotation of an extracted move come
      from the groups after its head. */
  lemma TailFields(rev: Revision, sh: Shape, t: string, m: Move)
    requires Matches(rev, sh, t) && DisambiguatorInRange(rev, sh, t)
    requires Extract(rev, sh, t) == Ok(m)
    ensures var h := HeadLength(rev, sh, t);
            m.promotion == if HasPromotionGroup(sh) then DecodePromotion(PromotionGroup(t[h..])) else None
    ensures var tail := t[TailStart(rev, sh, t)..];
            m.checkType == DecodeCheck(rev, CheckGroup(tail))
            && m.annotation == DecodeAnnotation(AnnotationGroup(tail))
  {
  }

  /** The promotion of an extracted move is written back as its group. */
  lemma PromotionPart(rev: Revision, sh: Shape, t: string, m: Move)
    requires Matches(rev, sh, t) && DisambiguatorInRange(rev, sh, t)
    requires Extract(rev, sh, t) == Ok(m)
    requires PromotionAfterEquals(t)
    ensures HeadLength(rev, sh, t) <= TailStart(rev, sh, t)
    ensures PromotionText(m.promotion) == t[HeadLength(rev, sh, t)..TailStart(rev, sh, t)]
  {
    var h := HeadLength(rev, sh, t);
    var ts := TailStart(rev, sh, t);
    TailFields(rev, sh, t, m);
    if HasPromotionGroup(sh) {
      var u := t[h..];
      if PromotionLength(u) == 1 {
        assert false;
      }
      PromotionRoundTrip(u);
      assert u[..PromotionLength(u)] == t[h..ts];
    }
  }

  /** The tail of a matched input is one the common tail pattern accepts. */
  lemma TailIsSuffix(rev: Revision, sh: Shape, t: string)
    requires Matches(rev, sh, t)
    ensures IsSuffix(t[TailStart(rev, sh, t)..])
  {
    var h := HeadLength(rev, sh, t);
    if HasPromotionGroup(sh) {
      assert t[h..][PromotionLength(t[h..])..] == t[TailStart(rev, sh, t)..];
    }
  }

  /** The check type and annotation of an extracted move are written back
      as its tail, when the check group is decoded or empty. */
  lemma SuffixPart(rev: Revision, sh: Shape, t: string, m: Move)
    requires Matches(rev, sh, t) && DisambiguatorInRange(rev, sh, t)
    requires Extract(rev, sh, t) == Ok(m)
    requires rev == Intended || ('+' !in t && '#' !in t)
    ensures CheckToStr(m.checkType) + AnnotationText(m.annotation) == t[TailStart(rev, sh, t)..]
  {
    var ts := TailStart(rev, sh, t);
    var tail := t[ts..];
    TailFields(rev, sh, t, m);
    TailIsSuffix(rev, sh, t);
    if |tail| > 0 {
      assert tail[0] == t[ts];
    }
    assert rev == Intended || CheckGroup(tail) == "";
    SuffixRoundTrip(rev, tail);
  }

  /** The round trip for the text of one matched shape. */
  lemma ExtractRoundTrip(rev: Revision, sh: Shape, t: string, m: Move)
    requires Matches(rev, sh, t) && DisambiguatorInRange(rev, sh, t)
    requires Extract(rev, sh, t) == Ok(m)
    requires rev == Intended || ('+' !in t && '#' !in t)
    requires PromotionAfterEquals(t)
    ensures Compilable(m) && CompileText(m) == t
  {
    var h := HeadLength(rev, sh, t);
    var ts := TailStart(rev, sh, t);
    BodyRoundTrip(rev, sh, t, m);
    PromotionPart(rev, sh, t, m);
    SuffixPart(rev, sh, t, m);
    JoinParts(m, t, h, ts);
  }

  /** A compiled move whose three parts are consecutive pieces of a text is
      that text. */
  lemma JoinParts(m: Move, t: string, h: nat, ts: nat)
    requires h <= ts <= |t| && Compilable(m)
    requires BodyText(m) == t[..h]
    requires PromotionText(m.promotion) == t[h..ts]
    requires CheckToStr(m.checkType) + AnnotationText(m.annotation) == t[ts..]
    ensures CompileText(m) == t
  {
    var b, p := BodyText(m), PromotionText(m.promotion);
    var c, a := CheckToStr(m.checkType), AnnotationText(m.annotation);
    assert CompileText(m) == (b + p) + (c + a);
    assert b + p == t[..ts];
    assert t[..ts] + t[ts..] == t;
  }

  /** `compile(parse(t)) == t` for every text the parser accepts that writes
      `=` before a promotion and, as written, has no check marker (which
      the parser drops). */
  lemma TextRoundTrip(rev: Revision, t: string, m: Move)
    requires !RankUnderflow(rev, t) && Decode(rev, t) == Ok(m)
    requires rev == Intended || ('+' !in t && '#' !in t)
    requires PromotionAfterEquals(t)
    ensures Compilable(m) && CompileText(m) == t
  {
    var sh := FirstShape(rev, t).value;
    MatchDecides(rev, sh, t);
    ExtractRoundTrip(rev, sh, t, m);
  }
}
