/** Parsing inverts compiling: the moves `Move::compile` writes in a form
    `Move::parse` reads back are exactly the well-formed ones, and each is
    read back as itself. */
module SanInverse {
  import opened Vocabulary
  import opened Squares
  import opened San
  import opened SanProperties

  /** A move some shape can express. As written, no move with a check
      type can come back, since the parser drops it. A castle is the
      king's, with nothing promoted or captured. Any other move has a square
      as destination and an origin on the board. A piece that is not a pawn
      is never promoted and may have any origin. A pawn promotes to a real
      piece. A capturing pawn names at least its file. A pawn that does not
      capture names no origin, or a whole square, and then it does not
      promote. */
  predicate WellFormed(rev: Revision, m: Move) {
    (rev == AsWritten ==> m.checkType == None)
    && match m.moveKind
       case Castle(_) => m.piece == King && m.promotion == None && !m.isCapture
       case Normal(o, d) =>
         IsSquare(d) && InRange(o)
         && if m.piece == Pawn then
              m.promotion != Some(Pawn)
              && if m.isCapture then o.x.Some?
                 else o == POS_NONE || (IsSquare(o) && m.promotion == None)
            else m.promotion == None
  }

  /** The shape in which a move is written: chosen by its kind, its piece,
      whether it captures, which axes of its origin it names and, for a
      pawn, whether it promotes. */
  function ShapeOfMove(m: Move): Shape {
    match m.moveKind
    case Castle(_) => CastleMove
    case Normal(o, _) =>
      if m.piece == Pawn then
        if m.isCapture then (if o.y.Some? then PawnCaptureLong else PawnCapture)
        else if o.x.Some? then PawnLong
        else if m.promotion.Some? then PawnPromotion
        else PawnPush
      else if o.x.Some? && o.y.Some? then
        (if m.isCapture then PieceCaptureFromSquare else PieceFromSquare)
      else if o.x.Some? then
        (if m.isCapture then PieceCaptureFromFile else PieceFromFile)
      else if o.y.Some? then
        (if m.isCapture then PieceCaptureFromRank else PieceFromRank)
      else if m.isCapture then PieceCapture
      else PiecePush
  }

  /** The tail `compile` writes. */
  function SuffixText(m: Move): string {
    CheckToStr(m.checkType) + AnnotationText(m.annotation)
  }

  /** The written tail is one the patterns accept, and its groups decode to
      the move's check type (when it is decoded at all) and annotation. */
  lemma SuffixForward(rev: Revision, m: Move)
    requires rev == AsWritten ==> m.checkType == None
    ensures IsSuffix(SuffixText(m))
    ensures DecodeCheck(rev, CheckGroup(SuffixText(m))) == m.checkType
    ensures DecodeAnnotation(AnnotationGroup(SuffixText(m))) == m.annotation
  {
    var c, a := CheckToStr(m.checkType), AnnotationText(m.annotation);
    if m.annotation.Some? {
      assert AnnotationFromStr(a) == Ok(m.annotation.value);
    }
    if c != "" {
      assert SuffixText(m)[1..] == a;
    }
  }

  /** The written promotion, followed by a tail, is read back as the
      promotion group, and what follows it is the tail. */
  lemma PromotionForward(p: Option<Piece>, s: string)
    requires p != Some(Pawn) && IsSuffix(s)
    ensures var u := PromotionText(p) + s;
            PromotionLength(u) == |PromotionText(p)|
            && u[PromotionLength(u)..] == s
            && DecodePromotion(PromotionGroup(u)) == p
  {
    SuffixChars(s);
    var u := PromotionText(p) + s;
    if p.Some? {
      assert u[1..2] == PieceToStr(p.value);
      assert u[2..] == s;
    } else {
      assert u == s;
    }
  }

  /** The offsets of a shape agree with the lengths of the parts of a
      well-formed move of that shape. */
  lemma ShapeOffsets(rev: Revision, m: Move)
    requires WellFormed(rev, m) && m.moveKind.Normal?
    ensures Encodable(m.moveKind.origin)
    ensures var sh, o := ShapeOfMove(m), m.moveKind.origin;
            && OriginStart(sh) == |PieceToStr(m.piece)|
            && OriginEnd(sh) == OriginStart(sh) + |PositionText(o)|
            && DestinationIndex(sh) == OriginEnd(sh) + (if m.isCapture then 1 else 0)
            && IsCaptureShape(sh) == m.isCapture
            && IsPawnShape(sh) == (m.piece == Pawn)
            && NamesFile(sh) == o.x.Some? && NamesRank(sh) == o.y.Some?
  {
  }

  /** The slices of a five-part concatenation. */
  lemma Slices(pc: string, ot: string, xt: string, dt: string, rest: string)
    ensures var t, b := pc + ot + xt + dt + rest, |pc| + |ot|;
            var k := b + |xt|;
            && t[..|pc|] == pc && t[|pc|..b] == ot && t[b..k] == xt
            && t[k..k + |dt|] == dt && t[k + |dt|..] == rest
  {
    var t, b := pc + ot + xt + dt + rest, |pc| + |ot|;
    var k := b + |xt|;
    assert t == pc + (ot + (xt + (dt + rest)));
  }

  /** A normal move's text is its five parts in a row. */
  lemma NormalParts(m: Move)
    requires m.moveKind.Normal? && Compilable(m)
    ensures CompileText(m)
            == PieceToStr(m.piece) + PositionText(m.moveKind.origin) + (if m.isCapture then "x" else "")
               + PositionText(m.moveKind.destination) + (PromotionText(m.promotion) + SuffixText(m))
  {
  }

  /** Where the parts of a written normal move sit in its text: the piece
      letter, the origin, the `x` and the destination, at the offsets of
      the move's shape, followed by the promotion and the tail. */
  lemma NormalLayout(rev: Revision, m: Move)
    requires WellFormed(rev, m) && m.moveKind.Normal?
    ensures Compilable(m)
    ensures var t, sh := CompileText(m), ShapeOfMove(m);
            var o, d, k := m.moveKind.origin, m.moveKind.destination, DestinationIndex(sh);
            && k + 2 <= |t|
            && OriginStart(sh) <= OriginEnd(sh) <= k
            && t[..OriginStart(sh)] == PieceToStr(m.piece)
            && t[OriginStart(sh)..OriginEnd(sh)] == PositionText(o)
            && (m.isCapture ==> t[k - 1] == 'x')
            && t[k] == FileChar(d.x.value) && t[k + 1] == RankChar(d.y.value)
            && t[k + 2..] == PromotionText(m.promotion) + SuffixText(m)
  {
    ShapeOffsets(rev, m);
    var o, d := m.moveKind.origin, m.moveKind.destination;
    var pc, ot, xt, dt := PieceToStr(m.piece), PositionText(o), (if m.isCapture then "x" else ""), PositionText(d);
    var rest := PromotionText(m.promotion) + SuffixText(m);
    NormalParts(m);
    Slices(pc, ot, xt, dt, rest);
    var t, k := CompileText(m), DestinationIndex(ShapeOfMove(m));
    if m.isCapture {
      assert t[k - 1] == t[k - 1..k][0];
    }
    assert t[k] == t[k..k + 2][0] && t[k + 1] == t[k..k + 2][1];
  }

  /** The characters a well-formed normal move is written with, at the
      offsets of its shape, and what they decode to. */
  lemma NormalChars(rev: Revision, m: Move)
    requires WellFormed(rev, m) && m.moveKind.Normal?
    ensures Compilable(m)
    ensures var t, sh := CompileText(m), ShapeOfMove(m);
            var o, d, k := m.moveKind.origin, m.moveKind.destination, DestinationIndex(sh);
            var a, b := OriginStart(sh), OriginEnd(sh);
            && a <= b <= k && k + 2 <= |t|
            && (m.piece != Pawn ==> a == 1 && IsPieceLetter(t[0]) && PieceFromStr(t[..1]) == Ok(m.piece))
            && (o.x.Some? ==> a < b && IsFile(t[a]) && PosCol(t[a]) == o.x.value)
            && (o.y.Some? ==> a < b && IsRank(t[b - 1]) && PosRow(t[b - 1]) == o.y.value)
            && b - a == (if o.x.Some? then 1 else 0) + (if o.y.Some? then 1 else 0)
            && (m.isCapture ==> t[k - 1] == 'x')
            && IsFile(t[k]) && IsRank(t[k + 1]) && Pos(t[k], t[k + 1]) == d
            && t[k + 2..] == PromotionText(m.promotion) + SuffixText(m)
  {
    NormalLayout(rev, m);
    ShapeOffsets(rev, m);
    var t, sh := CompileText(m), ShapeOfMove(m);
    var o, d := m.moveKind.origin, m.moveKind.destination;
    var a, b := OriginStart(sh), OriginEnd(sh);
    CoordinateRoundTrip(d.x.value, d.y.value);
    if o.x.Some? {
      assert t[a] == t[a..b][0];
      CoordinateRoundTrip(o.x.value, 0);
    }
    if o.y.Some? {
      assert t[b - 1] == t[a..b][b - 1 - a];
      CoordinateRoundTrip(0, o.y.value);
    }
    if m.piece != Pawn {
      assert t[0] == t[..a][0];
    }
  }

  /** What follows the destination of a well-formed normal move is what
      its shape admits there, and it decodes to the move's promotion. */
  lemma NormalTail(rev: Revision, m: Move)
    requires WellFormed(rev, m) && m.moveKind.Normal?
    ensures var sh, u := ShapeOfMove(m), PromotionText(m.promotion) + SuffixText(m);
            && (if HasPromotionGroup(sh) then IsPromotionSuffix(u) else IsSuffix(u))
            && (sh.PawnPromotion? ==> PromotionLength(u) > 0)
            && (HasPromotionGroup(sh) ==>
                  u[PromotionLength(u)..] == SuffixText(m) && DecodePromotion(PromotionGroup(u)) == m.promotion)
            && (!HasPromotionGroup(sh) ==> m.promotion == None && u == SuffixText(m))
  {
    SuffixForward(rev, m);
    PromotionForward(m.promotion, SuffixText(m));
  }

  /** A text laid out as a shape says, part by part, matches that shape:
      the converse of `MatchLayout`. */
  lemma LayoutMatches(rev: Revision, sh: Shape, t: string)
    requires !sh.CastleMove? && DestinationIndex(sh) + 2 <= |t|
    requires !IsPawnShape(sh) ==> IsPieceLetter(t[0])
    requires NamesFile(sh) ==> IsFile(t[OriginStart(sh)])
    requires NamesRank(sh) ==> OriginStart(sh) < OriginEnd(sh) && IsRank(t[OriginEnd(sh) - 1])
    requires IsCaptureShape(sh) ==> t[DestinationIndex(sh) - 1] == 'x'
    requires IsFile(t[DestinationIndex(sh)]) && IsRank(t[DestinationIndex(sh) + 1])
    requires var u := t[DestinationIndex(sh) + 2..];
             if HasPromotionGroup(sh) then IsPromotionSuffix(u) else IsSuffix(u)
    requires sh.PawnPromotion? ==> PromotionLength(t[2..]) > 0
    ensures Matches(rev, sh, t) && DisambiguatorInRange(rev, sh, t)
  {
    match sh
    case PawnPush =>
    case PawnLong =>
    case PiecePush =>
    case PieceFromFile =>
    case PieceFromRank =>
    case PieceFromSquare =>
    case PawnCapture =>
    case PawnCaptureLong =>
    case PieceCapture =>
    case PieceCaptureFromFile =>
    case PieceCaptureFromRank =>
    case PieceCaptureFromSquare =>
    case PawnPromotion =>
  }

  /** The characters of a compiled well-formed normal move are of the
      classes its shape's pattern asks for, at the places it asks for them. */
  lemma NormalClasses(rev: Revision, m: Move)
    requires WellFormed(rev, m) && m.moveKind.Normal?
    ensures Compilable(m)
    ensures var t, sh := CompileText(m), ShapeOfMove(m);
            var k := DestinationIndex(sh);
            && k + 2 <= |t|
            && (!IsPawnShape(sh) ==> IsPieceLetter(t[0]))
            && (NamesFile(sh) ==> IsFile(t[OriginStart(sh)]))
            && (NamesRank(sh) ==> OriginStart(sh) < OriginEnd(sh) && IsRank(t[OriginEnd(sh) - 1]))
            && (IsCaptureShape(sh) ==> t[k - 1] == 'x')
            && IsFile(t[k]) && IsRank(t[k + 1])
            && (var u := t[k + 2..];
                if HasPromotionGroup(sh) then IsPromotionSuffix(u) else IsSuffix(u))
            && (sh.PawnPromotion? ==> PromotionLength(t[2..]) > 0)
  {
    HeadClasses(rev, m);
    TailClasses(rev, m);
  }

  /** The head half of `NormalClasses`. */
  lemma HeadClasses(rev: Revision, m: Move)
    requires WellFormed(rev, m) && m.moveKind.Normal?
    ensures Compilable(m)
    ensures var t, sh := CompileText(m), ShapeOfMove(m);
            var k := DestinationIndex(sh);
            && k + 2 <= |t|
            && (!IsPawnShape(sh) ==> IsPieceLetter(t[0]))
            && (NamesFile(sh) ==> IsFile(t[OriginStart(sh)]))
            && (NamesRank(sh) ==> OriginStart(sh) < OriginEnd(sh) && IsRank(t[OriginEnd(sh) - 1]))
            && (IsCaptureShape(sh) ==> t[k - 1] == 'x')
            && IsFile(t[k]) && IsRank(t[k + 1])
  {
    NormalChars(rev, m);
    ShapeOffsets(rev, m);
  }

  /** The tail half of `NormalClasses`. */
  lemma TailClasses(rev: Revision, m: Move)
    requires WellFormed(rev, m) && m.moveKind.Normal?
    ensures Compilable(m)
    ensures var t, sh := CompileText(m), ShapeOfMove(m);
            var k := DestinationIndex(sh);
            && k + 2 <= |t|
            && (var u := t[k + 2..];
                if HasPromotionGroup(sh) then IsPromotionSuffix(u) else IsSuffix(u))
            && (sh.PawnPromotion? ==> PromotionLength(t[2..]) > 0)
  {
    NormalLayout(rev, m);
    NormalTail(rev, m);
    var t, sh := CompileText(m), ShapeOfMove(m);
    if sh.PawnPromotion? {
      assert DestinationIndex(sh) == 0;
    }
  }

  /** A well-formed normal move is written in a text its shape matches. */
  lemma NormalMatches(rev: Revision, m: Move)
    requires WellFormed(rev, m) && m.moveKind.Normal?
    ensures Compilable(m)
    ensures Matches(rev, ShapeOfMove(m), CompileText(m))
    ensures DisambiguatorInRange(rev, ShapeOfMove(m), CompileText(m))
  {
    NormalClasses(rev, m);
    LayoutMatches(rev, ShapeOfMove(m), CompileText(m));
  }

  /** The piece, origin and destination of a compiled well-formed normal
      move are read back as its own. */
  lemma NormalSquaresBack(rev: Revision, m: Move)
    requires WellFormed(rev, m) && m.moveKind.Normal?
    ensures Compilable(m)
    ensures Matches(rev, ShapeOfMove(m), CompileText(m))
    ensures DisambiguatorInRange(rev, ShapeOfMove(m), CompileText(m))
    ensures MovingPiece(rev, ShapeOfMove(m), CompileText(m)) == Ok(m.piece)
    ensures Origin(rev, ShapeOfMove(m), CompileText(m)) == m.moveKind.origin
    ensures Destination(rev, ShapeOfMove(m), CompileText(m)) == m.moveKind.destination
  {
    NormalMatches(rev, m);
    NormalChars(rev, m);
    ShapeOffsets(rev, m);
    OriginAxes(rev, ShapeOfMove(m), CompileText(m));
  }

  /** Where the tail of a non-castle match starts: after the head and the
      promotion group, if the shape has one. */
  lemma TailAfterHead(rev: Revision, sh: Shape, t: string)
    requires Matches(rev, sh, t) && !sh.CastleMove?
    ensures var h := HeadLength(rev, sh, t);
            && h == DestinationIndex(sh) + 2
            && t[TailStart(rev, sh, t)..]
               == if HasPromotionGroup(sh) then t[h..][PromotionLength(t[h..])..] else t[h..]
  {
  }

  /** The promotion, check type and annotation of a compiled well-formed
      normal move are read back as its own. */
  lemma NormalTailBack(rev: Revision, m: Move)
    requires WellFormed(rev, m) && m.moveKind.Normal?
    ensures Compilable(m)
    ensures Matches(rev, ShapeOfMove(m), CompileText(m))
    ensures var sh, t := ShapeOfMove(m), CompileText(m);
            var h, tail := HeadLength(rev, sh, t), t[TailStart(rev, sh, t)..];
            && (if HasPromotionGroup(sh) then DecodePromotion(PromotionGroup(t[h..])) else None) == m.promotion
            && DecodeAnnotation(AnnotationGroup(tail)) == m.annotation
            && DecodeCheck(rev, CheckGroup(tail)) == m.checkType
  {
    NormalMatches(rev, m);
    NormalLayout(rev, m);
    NormalTail(rev, m);
    SuffixForward(rev, m);
    TailAfterHead(rev, ShapeOfMove(m), CompileText(m));
  }

  /** A well-formed normal move is read back from its text as itself. */
  lemma NormalExtract(rev: Revision, m: Move)
    requires WellFormed(rev, m) && m.moveKind.Normal?
    ensures Compilable(m)
    ensures Matches(rev, ShapeOfMove(m), CompileText(m))
    ensures DisambiguatorInRange(rev, ShapeOfMove(m), CompileText(m))
    ensures Extract(rev, ShapeOfMove(m), CompileText(m)) == Ok(m)
  {
    NormalSquaresBack(rev, m);
    NormalTailBack(rev, m);
    ShapeOffsets(rev, m);
    ExtractNormal(rev, ShapeOfMove(m), CompileText(m));
  }

  /** A castle is written as its token and tail, which the castle pattern
      matches and reads back as the same castle. */
  lemma CastleExtract(rev: Revision, m: Move)
    requires WellFormed(rev, m) && m.moveKind.Castle?
    ensures Compilable(m)
    ensures Matches(rev, CastleMove, CompileText(m))
    ensures DisambiguatorInRange(rev, CastleMove, CompileText(m))
    ensures Extract(rev, CastleMove, CompileText(m)) == Ok(m)
  {
    SuffixForward(rev, m);
    CastleParts(m);
    var ct, u, t := m.moveKind.castleType, SuffixText(m), CompileText(m);
    CastleLayout(rev, ct, u);
    var h := |CastleToStr(ct)|;
    assert t[..h] == CastleToStr(ct) && t[h..] == u;
    assert CastleFromStr(t[..h]) == Ok(ct);
    assert m == Move(Castle(ct), King, None, m.annotation, m.checkType, false);
  }

  /** The text of a castle is its token followed by its tail. */
  lemma CastleParts(m: Move)
    requires m.moveKind.Castle? && m.promotion == None
    ensures Compilable(m) && CompileText(m) == CastleToStr(m.moveKind.castleType) + SuffixText(m)
  {
  }

  /** A castle token followed by a tail matches the castle pattern, with
      the token as its head and nothing between head and tail. */
  lemma CastleLayout(rev: Revision, ct: CastleType, u: string)
    requires IsSuffix(u)
    ensures var t := CastleToStr(ct) + u;
            && Matches(rev, CastleMove, t)
            && HeadLength(rev, CastleMove, t) == TailStart(rev, CastleMove, t) == |CastleToStr(ct)|
  {
    var t := CastleToStr(ct) + u;
    match ct
    case Kingside =>
      assert t[..3] == "O-O" && t[3..] == u;
    case Queenside =>
      assert t[..5] == "O-O-O" && t[5..] == u;
      assert t[3] == '-';
  }

  /** `parse(compile(m)) == m` for every well-formed move: its text is
      accepted without a panic and read back as the same move. */
  lemma MoveRoundTrip(rev: Revision, m: Move)
    requires WellFormed(rev, m)
    ensures Compilable(m)
    ensures !RankUnderflow(rev, CompileText(m))
    ensures Decode(rev, CompileText(m)) == Ok(m)
  {
    var sh, t := ShapeOfMove(m), CompileText(m);
    if m.moveKind.Castle? {
      CastleExtract(rev, m);
    } else {
      NormalExtract(rev, m);
    }
    NoUnderflow(rev, sh, t);
    MatchDecides(rev, sh, t);
  }

  /** The promotion group of a shape that has one decodes to no piece or
      to a real piece, and to a piece when the group is present. */
  lemma PromotionNotPawn(rev: Revision, sh: Shape, t: string)
    requires Matches(rev, sh, t) && HasPromotionGroup(sh)
    ensures var p := DecodePromotion(PromotionGroup(t[HeadLength(rev, sh, t)..]));
            p != Some(Pawn) && (sh.PawnPromotion? ==> p.Some?)
  {
    var u := t[HeadLength(rev, sh, t)..];
    var n := PromotionLength(u);
    if n > 0 {
      assert IsPieceLetter(u[n - 1]);
    }
  }

  /** Every move the parser reads is well-formed, and written in the shape
      it was read from: the converse of `MoveRoundTrip`. */
  lemma ParsedIsWellFormed(rev: Revision, t: string, m: Move)
    requires !RankUnderflow(rev, t) && Decode(rev, t) == Ok(m)
    ensures WellFormed(rev, m)
    ensures ShapeOfMove(m) == FirstShape(rev, t).value
  {
    var sh := FirstShape(rev, t).value;
    MatchDecides(rev, sh, t);
    if sh.CastleMove? {
      ParsedCastle(rev, t, m);
    } else {
      ParsedNormal(rev, sh, t, m);
    }
  }

  /** The castle case of `ParsedIsWellFormed`. */
  lemma ParsedCastle(rev: Revision, t: string, m: Move)
    requires Matches(rev, CastleMove, t) && Extract(rev, CastleMove, t) == Ok(m)
    ensures WellFormed(rev, m) && ShapeOfMove(m) == CastleMove
  {
  }

  /** The non-castle case of `ParsedIsWellFormed`. */
  lemma ParsedNormal(rev: Revision, sh: Shape, t: string, m: Move)
    requires Matches(rev, sh, t) && DisambiguatorInRange(rev, sh, t) && !sh.CastleMove?
    requires Extract(rev, sh, t) == Ok(m)
    ensures WellFormed(rev, m) && ShapeOfMove(m) == sh
  {
    PieceBack(rev, sh, t);
    ExtractNormal(rev, sh, t);
    OriginRoundTrip(rev, sh, t);
    OriginAxes(rev, sh, t);
    MatchLayout(rev, sh, t);
    var k := DestinationIndex(sh);
    assert m.moveKind.destination == Pos(t[k], t[k + 1]);
    if HasPromotionGroup(sh) {
      PromotionNotPawn(rev, sh, t);
    }
    if !IsPawnShape(sh) {
      assert t[..1] == [t[0]];
    }
    assert m.moveKind.origin.x.Some? == NamesFile(sh);
    assert m.moveKind.origin.y.Some? == NamesRank(sh);
    assert m.isCapture == IsCaptureShape(sh);
    assert (m.piece == Pawn) == IsPawnShape(sh);
  }
}
