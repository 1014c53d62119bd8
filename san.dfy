/** The move codec: the `Move` record, `Move::compile` (record to text) and
    `Move::parse` (text to record) with its fourteen anchored move shapes,
    tried in a fixed order, the first whole-string match winning. */
module San {
  import opened Vocabulary
  import opened Squares

  datatype MoveKind =
    | Normal(origin: Position, destination: Position)
    | Castle(castleType: CastleType)

  datatype Move = Move(
    moveKind: MoveKind,
    piece: Piece,
    promotion: Option<Piece>,
    annotation: Option<Annotation>,
    checkType: Option<CheckType>,
    isCapture: bool)

  /** `Move::new`: the given piece and kind, nothing else set, so that the
      move is written as its move proper alone. */
  function NewMove(piece: Piece, kind: MoveKind): (r: Move)
    ensures r.piece == piece && r.moveKind == kind && !r.isCapture
    ensures r.promotion == None && r.annotation == None && r.checkType == None
    ensures Compilable(r) ==> CompileText(r) == BodyText(r)
  {
    Move(kind, piece, None, None, None, false)
  }

  // ---------------------------------------------------------------------
  // Compiling

  /** What `compile` needs to avoid a `u8` overflow in `Position::to_string`. */
  predicate Compilable(m: Move) {
    m.moveKind.Normal? ==> Encodable(m.moveKind.origin) && Encodable(m.moveKind.destination)
  }

  function PromotionText(p: Option<Piece>): string {
    if p.Some? then "=" + PieceToStr(p.value) else ""
  }

  function AnnotationText(a: Option<Annotation>): string {
    if a.Some? then AnnotationToStr(a.value) else ""
  }

  /** The text of the move proper: the castle token, or the piece letter,
      the origin, `x` for a capture and the destination. */
  function BodyText(m: Move): string
    requires Compilable(m)
  {
    match m.moveKind
    case Castle(t) => CastleToStr(t)
    case Normal(src, dst) =>
      PieceToStr(m.piece) + PositionText(src) + (if m.isCapture then "x" else "") + PositionText(dst)
  }

  /** The text `compile` produces: the move proper, then `=` and the
      promotion letter, then the check marker, then the annotation. */
  function CompileText(m: Move): (r: string)
    requires Compilable(m)
    ensures BodyText(m) <= r
    ensures m.promotion == None && m.checkType == None && m.annotation == None ==> r == BodyText(m)
  {
    BodyText(m) + PromotionText(m.promotion) + CheckToStr(m.checkType) + AnnotationText(m.annotation)
  }

  /** `Move::compile`, building the text by successive pushes. */
  method Compile(m: Move) returns (res: string)
    requires Compilable(m)
    ensures res == CompileText(m)
  {
    res := "";
    match m.moveKind {
      case Castle(t) =>
        res := res + CastleToStr(t);
      case Normal(src, dst) =>
        res := res + PieceToStr(m.piece);
        var from := ToString(src);
        res := res + from;
        if m.isCapture {
          res := res + "x";
        }
        var to := ToString(dst);
        res := res + to;
    }
    assert res == BodyText(m);
    if m.promotion.Some? {
      res := res + "=";
      res := res + PieceToStr(m.promotion.value);
    }
    assert res == BodyText(m) + PromotionText(m.promotion);
    match m.checkType {
      case Some(Check) => res := res + "+";
      case Some(Mate) => res := res + "#";
      case None =>
    }
    assert res == BodyText(m) + PromotionText(m.promotion) + CheckToStr(m.checkType);
    if m.annotation.Some? {
      res := res + AnnotationToStr(m.annotation.value);
    }
    assert res == BodyText(m) + PromotionText(m.promotion) + CheckToStr(m.checkType) + AnnotationText(m.annotation);
  }

  // ---------------------------------------------------------------------
  // The move shapes

  /** The source as written, or with its two evident slips corrected: the
      check marker actually decoded, and rank disambiguators limited to
      `[1-8]` instead of `[0-9]`. */
  datatype Revision = AsWritten | Intended

  /** The fourteen patterns of `Move::parse`, in the order it tries them. */
  datatype Shape =
    | CastleMove             // (O-O|O-O-O)
    | PawnPush               // e4
    | PawnLong               // e2e4
    | PiecePush              // Qe4
    | PieceFromFile          // Qbe4
    | PieceFromRank          // Q1e4
    | PieceFromSquare        // Qb1e4
    | PawnCapture            // exd4, exd8=Q
    | PawnCaptureLong        // e3xd4
    | PieceCapture           // Rxh3
    | PieceCaptureFromFile   // Rexh3
    | PieceCaptureFromRank   // R1xh3
    | PieceCaptureFromSquare // Re3xh3
    | PawnPromotion          // d8=Q, d8Q

  predicate IsCheckMarker(c: char) {
    c == '+' || c == '#'
  }

  /** `(\?\?|\?|\?!|!|!!)` */
  predicate IsAnnotationToken(t: string) {
    t == "??" || t == "?" || t == "?!" || t == "!" || t == "!!"
  }

  /** The common tail of every pattern, `(\+|\#)?(\?\?|\?|\?!|!|!!)?$`. */
  predicate IsSuffix(t: string) {
    if |t| > 0 && IsCheckMarker(t[0]) then |t| == 1 || IsAnnotationToken(t[1..])
    else t == "" || IsAnnotationToken(t)
  }

  /** The check group of a tail: its leading `+` or `#`, if any. */
  function CheckGroup(t: string): string {
    if |t| > 0 && IsCheckMarker(t[0]) then t[..1] else ""
  }

  /** The annotation group of a tail: whatever follows the check group. */
  function AnnotationGroup(t: string): string {
    if |t| > 0 && IsCheckMarker(t[0]) then t[1..] else t
  }

  /** How many characters the optional group `(?:=?([KQBNR]))` takes at the
      start of `t`. */
  function PromotionLength(t: string): (n: nat)
    ensures n <= |t|
  {
    if |t| >= 2 && t[0] == '=' && IsPieceLetter(t[1]) then 2
    else if |t| >= 1 && IsPieceLetter(t[0]) then 1
    else 0
  }

  /** `(?:=?([KQBNR]))?` followed by the common tail. */
  predicate IsPromotionSuffix(t: string) {
    IsSuffix(t[PromotionLength(t)..])
  }

  /** The class of a rank disambiguator: `[0-9]` as written, `[1-8]` intended. */
  predicate RankDisambiguator(rev: Revision, c: char) {
    match rev
    case AsWritten => IsDigit(c)
    case Intended => IsRank(c)
  }

  predicate IsShortCastle(s: string) {
    |s| >= 3 && s[..3] == "O-O" && IsSuffix(s[3..])
  }

  predicate IsLongCastle(s: string) {
    |s| >= 5 && s[..5] == "O-O-O" && IsSuffix(s[5..])
  }

  /** Whether the anchored pattern of shape `sh` matches all of `s`. */
  predicate Matches(rev: Revision, sh: Shape, s: string)
    ensures Matches(rev, sh, s) ==>
              && |s| >= 2
              && (sh.CastleMove? <==> s[0] == 'O')
              && (IsPawnShape(sh) <==> IsFile(s[0]))
  {
    match sh
    case CastleMove => IsShortCastle(s) || IsLongCastle(s)
    case PawnPush =>
      |s| >= 2 && IsFile(s[0]) && IsRank(s[1]) && IsSuffix(s[2..])
    case PawnLong =>
      |s| >= 4 && IsFile(s[0]) && IsRank(s[1]) && IsFile(s[2]) && IsRank(s[3])
      && IsSuffix(s[4..])
    case PiecePush =>
      |s| >= 3 && IsPieceLetter(s[0]) && IsFile(s[1]) && IsRank(s[2]) && IsSuffix(s[3..])
    case PieceFromFile =>
      |s| >= 4 && IsPieceLetter(s[0]) && IsFile(s[1]) && IsFile(s[2]) && IsRank(s[3])
      && IsSuffix(s[4..])
    case PieceFromRank =>
      |s| >= 4 && IsPieceLetter(s[0]) && RankDisambiguator(rev, s[1]) && IsFile(s[2]) && IsRank(s[3])
      && IsSuffix(s[4..])
    case PieceFromSquare =>
      |s| >= 5 && IsPieceLetter(s[0]) && IsFile(s[1]) && RankDisambiguator(rev, s[2])
      && IsFile(s[3]) && IsRank(s[4]) && IsSuffix(s[5..])
    case PawnCapture =>
      |s| >= 4 && IsFile(s[0]) && s[1] == 'x' && IsFile(s[2]) && IsRank(s[3])
      && IsPromotionSuffix(s[4..])
    case PawnCaptureLong =>
      |s| >= 5 && IsFile(s[0]) && IsRank(s[1]) && s[2] == 'x' && IsFile(s[3]) && IsRank(s[4])
      && IsPromotionSuffix(s[5..])
    case PieceCapture =>
      |s| >= 4 && IsPieceLetter(s[0]) && s[1] == 'x' && IsFile(s[2]) && IsRank(s[3])
      && IsSuffix(s[4..])
    case PieceCaptureFromFile =>
      |s| >= 5 && IsPieceLetter(s[0]) && IsFile(s[1]) && s[2] == 'x' && IsFile(s[3]) && IsRank(s[4])
      && IsSuffix(s[5..])
    case PieceCaptureFromRank =>
      |s| >= 5 && IsPieceLetter(s[0]) && RankDisambiguator(rev, s[1]) && s[2] == 'x'
      && IsFile(s[3]) && IsRank(s[4]) && IsSuffix(s[5..])
    case PieceCaptureFromSquare =>
      |s| >= 6 && IsPieceLetter(s[0]) && IsFile(s[1]) && RankDisambiguator(rev, s[2]) && s[3] == 'x'
      && IsFile(s[4]) && IsRank(s[5]) && IsSuffix(s[6..])
    case PawnPromotion =>
      |s| >= 2 && IsFile(s[0]) && IsRank(s[1]) && PromotionLength(s[2..]) > 0
      && IsPromotionSuffix(s[2..])
  }

  /** The shapes whose pattern has a literal `x`. */
  predicate IsCaptureShape(sh: Shape) {
    sh.PawnCapture? || sh.PawnCaptureLong? || sh.PieceCapture? || sh.PieceCaptureFromFile?
    || sh.PieceCaptureFromRank? || sh.PieceCaptureFromSquare?
  }

  predicate IsPawnShape(sh: Shape) {
    sh.PawnPush? || sh.PawnLong? || sh.PawnCapture? || sh.PawnCaptureLong? || sh.PawnPromotion?
  }

  /** The shapes with a promotion group. */
  predicate HasPromotionGroup(sh: Shape) {
    sh.PawnCapture? || sh.PawnCaptureLong? || sh.PawnPromotion?
  }

  /** Where the destination square starts in a non-castle shape. */
  function DestinationIndex(sh: Shape): nat
    requires !sh.CastleMove?
  {
    match sh
    case PawnPush => 0
    case PawnPromotion => 0
    case PiecePush => 1
    case PawnLong => 2
    case PieceFromFile => 2
    case PieceFromRank => 2
    case PawnCapture => 2
    case PieceCapture => 2
    case PieceFromSquare => 3
    case PawnCaptureLong => 3
    case PieceCaptureFromFile => 3
    case PieceCaptureFromRank => 3
    case PieceCaptureFromSquare => 4
  }

  /** The length of the part of the pattern before the promotion and the
      common tail. */
  function HeadLength(rev: Revision, sh: Shape, s: string): (n: nat)
    requires Matches(rev, sh, s)
    ensures n <= |s|
  {
    if sh.CastleMove? then (if IsShortCastle(s) then 3 else 5) else DestinationIndex(sh) + 2
  }

  /** Where the common tail `(\+|\#)?(...)?` starts. */
  function TailStart(rev: Revision, sh: Shape, s: string): (n: nat)
    requires Matches(rev, sh, s)
    ensures n <= |s|
  {
    var h := HeadLength(rev, sh, s);
    if HasPromotionGroup(sh) then h + PromotionLength(s[h..]) else h
  }

  /** The input reaches `pos_row!` with a rank disambiguator of 0 or 9,
      whose `usize` arithmetic underflows: the source panics. Only the
      `[0-9]` patterns can get there. */
  predicate RankUnderflow(rev: Revision, s: string) {
    ((Matches(rev, PieceFromRank, s) || Matches(rev, PieceCaptureFromRank, s)) && !IsRank(s[1]))
    || ((Matches(rev, PieceFromSquare, s) || Matches(rev, PieceCaptureFromSquare, s)) && !IsRank(s[2]))
  }

  /** A rank disambiguator, where the shape has one, is a digit `pos_row!`
      can decode without underflow. */
  predicate DisambiguatorInRange(rev: Revision, sh: Shape, s: string)
    requires Matches(rev, sh, s)
  {
    match sh
    case PieceFromRank => IsRank(s[1])
    case PieceCaptureFromRank => IsRank(s[1])
    case PieceFromSquare => IsRank(s[2])
    case PieceCaptureFromSquare => IsRank(s[2])
    case _ => true
  }

  // ---------------------------------------------------------------------
  // Decoding the groups of a match

  /** `check_type!` as written computes `Some(..)` in statements whose value
      is dropped and always yields `None`; the intended decoding is
      `DecodeCheckMarker`. */
  function DecodeCheck(rev: Revision, group: string): (r: Option<CheckType>)
    ensures rev == AsWritten ==> r == None
    ensures rev == Intended ==> (r == Some(Check) <==> group == "+") && (r == Some(Mate) <==> group == "#")
  {
    match rev
    case AsWritten => None
    case Intended => DecodeCheckMarker(group)
  }

  /** The check group read as `+` for check and `#` for mate; inverts the
      marker `compile` writes. */
  function DecodeCheckMarker(group: string): (r: Option<CheckType>)
    ensures r.Some? <==> group == "+" || group == "#"
    ensures group == "" || r.Some? ==> CheckToStr(r) == group
  {
    if group == "+" then Some(Check)
    else if group == "#" then Some(Mate)
    else None
  }

  /** `annotation!`: the annotation group decoded, or `None` when it is empty. */
  function DecodeAnnotation(group: string): (r: Option<Annotation>)
    ensures r.Some? <==> IsAnnotationToken(group)
    ensures r.Some? ==> AnnotationToStr(r.value) == group
  {
    match AnnotationFromStr(group)
    case Ok(a) => Some(a)
    case Err(_) => None
  }

  /** `promotion!`: the promotion group decoded; an absent group is looked up
      as "fail", which is no piece. */
  function DecodePromotion(group: Option<string>): (r: Option<Piece>)
    ensures group.None? ==> r == None
    ensures group.Some? && |group.value| == 1 && IsPieceLetter(group.value[0]) ==>
              r.Some? && r.value != Pawn && PieceToStr(r.value) == group.value
  {
    match PieceFromStr(if group.Some? then group.value else "fail")
    case Ok(p) => Some(p)
    case Err(_) => None
  }

  /** The promotion group of `(?:=?([KQBNR]))`, when present. */
  function PromotionGroup(t: string): Option<string> {
    var n := PromotionLength(t);
    if n == 0 then None else Some([t[n - 1]])
  }

  /** The piece of a non-castle shape: `Pawn` for pawn shapes, else the
      leading letter through `Piece::from_str` (its error propagated as `?`
      does). */
  function MovingPiece(rev: Revision, sh: Shape, s: string): Result<Piece>
    requires Matches(rev, sh, s) && !sh.CastleMove?
  {
    if IsPawnShape(sh) then Ok(Pawn) else PieceFromStr(s[..1])
  }

  /** The origin square each shape writes: none, a file, a rank or both. */
  function Origin(rev: Revision, sh: Shape, s: string): Position
    requires Matches(rev, sh, s) && DisambiguatorInRange(rev, sh, s) && !sh.CastleMove?
  {
    match sh
    case PawnPush => POS_NONE
    case PiecePush => POS_NONE
    case PieceCapture => POS_NONE
    case PawnPromotion => POS_NONE
    case PawnLong => Pos(s[0], s[1])
    case PawnCaptureLong => Pos(s[0], s[1])
    case PawnCapture => Position(Some(PosCol(s[0])), None)
    case PieceFromFile => Position(Some(PosCol(s[1])), None)
    case PieceCaptureFromFile => Position(Some(PosCol(s[1])), None)
    case PieceFromRank => Position(None, Some(PosRow(s[1])))
    case PieceCaptureFromRank => Position(None, Some(PosRow(s[1])))
    case PieceFromSquare => Pos(s[1], s[2])
    case PieceCaptureFromSquare => Pos(s[1], s[2])
  }

  function Destination(rev: Revision, sh: Shape, s: string): Position
    requires Matches(rev, sh, s) && !sh.CastleMove?
  {
    Pos(s[DestinationIndex(sh)], s[DestinationIndex(sh) + 1])
  }

  /** The move a matching shape yields: each group decoded into its field,
      `is_capture` set by the capture shapes only. */
  function Extract(rev: Revision, sh: Shape, s: string): (r: Result<Move>)
    requires Matches(rev, sh, s) && DisambiguatorInRange(rev, sh, s)
    ensures r.Ok?
    ensures r.value.moveKind.Castle? <==> sh.CastleMove?
    ensures r.value.piece == Pawn <==> IsPawnShape(sh)
    ensures r.value.isCapture == IsCaptureShape(sh)
  {
    var h := HeadLength(rev, sh, s);
    assert sh.CastleMove? ==> s[..h] == if IsShortCastle(s) then "O-O" else "O-O-O";
    assert !sh.CastleMove? && !IsPawnShape(sh) ==> s[..1] == [s[0]];
    var tail := s[TailStart(rev, sh, s)..];
    var check := DecodeCheck(rev, CheckGroup(tail));
    var annotation := DecodeAnnotation(AnnotationGroup(tail));
    if sh.CastleMove? then
      match CastleFromStr(s[..h])
      case Err(e) => Err(e)
      case Ok(c) => Ok(Move(Castle(c), King, None, annotation, check, false))
    else
      match MovingPiece(rev, sh, s)
      case Err(e) => Err(e)
      case Ok(p) =>
        var promotion := if HasPromotionGroup(sh) then DecodePromotion(PromotionGroup(s[h..])) else None;
        Ok(Move(Normal(Origin(rev, sh, s), Destination(rev, sh, s)), p, promotion, annotation, check,
                IsCaptureShape(sh)))
  }

  /** The first shape, in the order `Move::parse` tries them, that matches. */
  function FirstShape(rev: Revision, s: string): (r: Option<Shape>)
    ensures r.Some? ==> Matches(rev, r.value, s)
  {
    if Matches(rev, CastleMove, s) then Some(CastleMove)
    else if Matches(rev, PawnPush, s) then Some(PawnPush)
    else if Matches(rev, PawnLong, s) then Some(PawnLong)
    else if Matches(rev, PiecePush, s) then Some(PiecePush)
    else if Matches(rev, PieceFromFile, s) then Some(PieceFromFile)
    else if Matches(rev, PieceFromRank, s) then Some(PieceFromRank)
    else if Matches(rev, PieceFromSquare, s) then Some(PieceFromSquare)
    else if Matches(rev, PawnCapture, s) then Some(PawnCapture)
    else if Matches(rev, PawnCaptureLong, s) then Some(PawnCaptureLong)
    else if Matches(rev, PieceCapture, s) then Some(PieceCapture)
    else if Matches(rev, PieceCaptureFromFile, s) then Some(PieceCaptureFromFile)
    else if Matches(rev, PieceCaptureFromRank, s) then Some(PieceCaptureFromRank)
    else if Matches(rev, PieceCaptureFromSquare, s) then Some(PieceCaptureFromSquare)
    else if Matches(rev, PawnPromotion, s) then Some(PawnPromotion)
    else None
  }

  /** The result of `Move::parse`: the move of the first matching shape, or
      `RegexExhausted` with the input when none matches. */
  function Decode(rev: Revision, s: string): (r: Result<Move>)
    requires !RankUnderflow(rev, s)
    ensures r.Ok? <==> FirstShape(rev, s).Some?
    ensures r.Err? ==> r.error == RegexExhausted("could not parse: " + s)
    ensures r.Ok? ==> r.value.isCapture == IsCaptureShape(FirstShape(rev, s).value)
  {
    match FirstShape(rev, s)
    case None => Err(RegexExhausted("could not parse: " + s))
    case Some(sh) => Extract(rev, sh, s)
  }

  // ---------------------------------------------------------------------
  // Parsing

  /** `Move::parse`: each pattern in turn, in the source's order, the first
      that matches the whole input building the move; `RegexExhausted` with
      the input when none does. */
  method Parse(value: string) returns (r: Result<Move>)
    requires !RankUnderflow(AsWritten, value)
    ensures r == Decode(AsWritten, value)
  {
    if Matches(AsWritten, CastleMove, value) {
      r := ParseCastle(value);
      return;
    }
    if Matches(AsWritten, PawnPush, value) {
      r := ParsePawnPush(value);
      return;
    }
    if Matches(AsWritten, PawnLong, value) {
      r := ParsePawnLong(value);
      return;
    }
    if Matches(AsWritten, PiecePush, value) {
      r := ParsePiecePush(value);
      return;
    }
    if Matches(AsWritten, PieceFromFile, value) {
      r := ParsePieceFromFile(value);
      return;
    }
    if Matches(AsWritten, PieceFromRank, value) {
      r := ParsePieceFromRank(value);
      return;
    }
    if Matches(AsWritten, PieceFromSquare, value) {
      r := ParsePieceFromSquare(value);
      return;
    }
    if Matches(AsWritten, PawnCapture, value) {
      r := ParsePawnCapture(value);
      return;
    }
    if Matches(AsWritten, PawnCaptureLong, value) {
      r := ParsePawnCaptureLong(value);
      return;
    }
    if Matches(AsWritten, PieceCapture, value) {
      r := ParsePieceCapture(value);
      return;
    }
    if Matches(AsWritten, PieceCaptureFromFile, value) {
      r := ParsePieceCaptureFromFile(value);
      return;
    }
    if Matches(AsWritten, PieceCaptureFromRank, value) {
      r := ParsePieceCaptureFromRank(value);
      return;
    }
    if Matches(AsWritten, PieceCaptureFromSquare, value) {
      r := ParsePieceCaptureFromSquare(value);
      return;
    }
    if Matches(AsWritten, PawnPromotion, value) {
      r := ParsePawnPromotion(value);
      return;
    }
    return Err(RegexExhausted("could not parse: " + value));
  }

  // The branches of `Move::parse`, one per pattern: each builds the move
  // with `Move::new` and then sets its other fields from the groups. The
  // source propagates a failed `from_str` with `?`; the patterns admit only
  // codes that decode, so that path is dead and the value is taken directly.

  /** Castling. */
  method ParseCastle(value: string) returns (r: Result<Move>)
    requires Matches(AsWritten, CastleMove, value)
    ensures r == Extract(AsWritten, CastleMove, value)
  {
    var h := if IsShortCastle(value) then 3 else 5;
    var castle := CastleFromStr(value[..h]).value;
    var mov := NewMove(King, Castle(castle));
    mov := mov.(checkType := DecodeCheck(AsWritten, CheckGroup(value[h..])));
    mov := mov.(annotation := DecodeAnnotation(AnnotationGroup(value[h..])));
    return Ok(mov);
  }

  /** Pawn movement. */
  method ParsePawnPush(value: string) returns (r: Result<Move>)
    requires Matches(AsWritten, PawnPush, value)
    ensures r == Extract(AsWritten, PawnPush, value)
  {
    var mov := NewMove(Pawn, Normal(POS_NONE, Pos(value[0], value[1])));
    mov := mov.(checkType := DecodeCheck(AsWritten, CheckGroup(value[2..])));
    mov := mov.(annotation := DecodeAnnotation(AnnotationGroup(value[2..])));
    return Ok(mov);
  }

  /** Pawn movement, long form. */
  method ParsePawnLong(value: string) returns (r: Result<Move>)
    requires Matches(AsWritten, PawnLong, value)
    ensures r == Extract(AsWritten, PawnLong, value)
  {
    var mov := NewMove(Pawn, Normal(Pos(value[0], value[1]), Pos(value[2], value[3])));
    mov := mov.(checkType := DecodeCheck(AsWritten, CheckGroup(value[4..])));
    mov := mov.(annotation := DecodeAnnotation(AnnotationGroup(value[4..])));
    return Ok(mov);
  }

  /** Piece movement. */
  method ParsePiecePush(value: string) returns (r: Result<Move>)
    requires Matches(AsWritten, PiecePush, value)
    ensures r == Extract(AsWritten, PiecePush, value)
  {
    var piece := PieceFromStr(value[..1]).value;
    var mov := NewMove(piece, Normal(POS_NONE, Pos(value[1], value[2])));
    mov := mov.(checkType := DecodeCheck(AsWritten, CheckGroup(value[3..])));
    mov := mov.(annotation := DecodeAnnotation(AnnotationGroup(value[3..])));
    return Ok(mov);
  }

  /** Piece movement from a specific file. */
  method ParsePieceFromFile(value: string) returns (r: Result<Move>)
    requires Matches(AsWritten, PieceFromFile, value)
    ensures r == Extract(AsWritten, PieceFromFile, value)
  {
    var piece := PieceFromStr(value[..1]).value;
    var mov := NewMove(piece, Normal(Position(Some(PosCol(value[1])), None), Pos(value[2], value[3])));
    mov := mov.(checkType := DecodeCheck(AsWritten, CheckGroup(value[4..])));
    mov := mov.(annotation := DecodeAnnotation(AnnotationGroup(value[4..])));
    return Ok(mov);
  }

  /** Piece movement from a specific rank; `pos_row!` needs the digit in 1..8. */
  method ParsePieceFromRank(value: string) returns (r: Result<Move>)
    requires Matches(AsWritten, PieceFromRank, value) && IsRank(value[1])
    ensures r == Extract(AsWritten, PieceFromRank, value)
  {
    var piece := PieceFromStr(value[..1]).value;
    var mov := NewMove(piece, Normal(Position(None, Some(PosRow(value[1]))), Pos(value[2], value[3])));
    mov := mov.(checkType := DecodeCheck(AsWritten, CheckGroup(value[4..])));
    mov := mov.(annotation := DecodeAnnotation(AnnotationGroup(value[4..])));
    return Ok(mov);
  }

  /** Piece movement from a specific square; `pos_row!` needs the digit in 1..8. */
  method ParsePieceFromSquare(value: string) returns (r: Result<Move>)
    requires Matches(AsWritten, PieceFromSquare, value) && IsRank(value[2])
    ensures r == Extract(AsWritten, PieceFromSquare, value)
  {
    var piece := PieceFromStr(value[..1]).value;
    var mov := NewMove(piece, Normal(Pos(value[1], value[2]), Pos(value[3], value[4])));
    mov := mov.(checkType := DecodeCheck(AsWritten, CheckGroup(value[5..])));
    mov := mov.(annotation := DecodeAnnotation(AnnotationGroup(value[5..])));
    return Ok(mov);
  }

  /** Pawn capture, with an optional promotion. */
  method ParsePawnCapture(value: string) returns (r: Result<Move>)
    requires Matches(AsWritten, PawnCapture, value)
    ensures r == Extract(AsWritten, PawnCapture, value)
  {
    var mov := NewMove(Pawn, Normal(Position(Some(PosCol(value[0])), None), Pos(value[2], value[3])));
    var n := PromotionLength(value[4..]);
    mov := mov.(isCapture := true);
    mov := mov.(promotion := DecodePromotion(PromotionGroup(value[4..])));
    mov := mov.(checkType := DecodeCheck(AsWritten, CheckGroup(value[4 + n..])));
    mov := mov.(annotation := DecodeAnnotation(AnnotationGroup(value[4 + n..])));
    return Ok(mov);
  }

  /** Pawn capture, long form, with an optional promotion. */
  method ParsePawnCaptureLong(value: string) returns (r: Result<Move>)
    requires Matches(AsWritten, PawnCaptureLong, value)
    ensures r == Extract(AsWritten, PawnCaptureLong, value)
  {
    var mov := NewMove(Pawn, Normal(Pos(value[0], value[1]), Pos(value[3], value[4])));
    var n := PromotionLength(value[5..]);
    mov := mov.(isCapture := true);
    mov := mov.(promotion := DecodePromotion(PromotionGroup(value[5..])));
    mov := mov.(checkType := DecodeCheck(AsWritten, CheckGroup(value[5 + n..])));
    mov := mov.(annotation := DecodeAnnotation(AnnotationGroup(value[5 + n..])));
    return Ok(mov);
  }

  /** Piece capture. */
  method ParsePieceCapture(value: string) returns (r: Result<Move>)
    requires Matches(AsWritten, PieceCapture, value)
    ensures r == Extract(AsWritten, PieceCapture, value)
  {
    var piece := PieceFromStr(value[..1]).value;
    var mov := NewMove(piece, Normal(POS_NONE, Pos(value[2], value[3])));
    mov := mov.(isCapture := true);
    mov := mov.(checkType := DecodeCheck(AsWritten, CheckGroup(value[4..])));
    mov := mov.(annotation := DecodeAnnotation(AnnotationGroup(value[4..])));
    return Ok(mov);
  }

  /** Piece capture from a specific file. */
  method ParsePieceCaptureFromFile(value: string) returns (r: Result<Move>)
    requires Matches(AsWritten, PieceCaptureFromFile, value)
    ensures r == Extract(AsWritten, PieceCaptureFromFile, value)
  {
    var piece := PieceFromStr(value[..1]).value;
    var mov := NewMove(piece, Normal(Position(Some(PosCol(value[1])), None), Pos(value[3], value[4])));
    mov := mov.(isCapture := true);
    mov := mov.(checkType := DecodeCheck(AsWritten, CheckGroup(value[5..])));
    mov := mov.(annotation := DecodeAnnotation(AnnotationGroup(value[5..])));
    return Ok(mov);
  }

  /** Piece capture from a specific rank; `pos_row!` needs the digit in 1..8. */
  method ParsePieceCaptureFromRank(value: string) returns (r: Result<Move>)
    requires Matches(AsWritten, PieceCaptureFromRank, value) && IsRank(value[1])
    ensures r == Extract(AsWritten, PieceCaptureFromRank, value)
  {
    var piece := PieceFromStr(value[..1]).value;
    var mov := NewMove(piece, Normal(Position(None, Some(PosRow(value[1]))), Pos(value[3], value[4])));
    mov := mov.(isCapture := true);
    mov := mov.(checkType := DecodeCheck(AsWritten, CheckGroup(value[5..])));
    mov := mov.(annotation := DecodeAnnotation(AnnotationGroup(value[5..])));
    return Ok(mov);
  }

  /** Piece capture from a specific square; `pos_row!` needs the digit in 1..8. */
  method ParsePieceCaptureFromSquare(value: string) returns (r: Result<Move>)
    requires Matches(AsWritten, PieceCaptureFromSquare, value) && IsRank(value[2])
    ensures r == Extract(AsWritten, PieceCaptureFromSquare, value)
  {
    var piece := PieceFromStr(value[..1]).value;
    var mov := NewMove(piece, Normal(Pos(value[1], value[2]), Pos(value[4], value[5])));
    mov := mov.(isCapture := true);
    mov := mov.(checkType := DecodeCheck(AsWritten, CheckGroup(value[6..])));
    mov := mov.(annotation := DecodeAnnotation(AnnotationGroup(value[6..])));
    return Ok(mov);
  }

  /** Pawn promotion, with or without the `=`. */
  method ParsePawnPromotion(value: string) returns (r: Result<Move>)
    requires Matches(AsWritten, PawnPromotion, value)
    ensures r == Extract(AsWritten, PawnPromotion, value)
  {
    var mov := NewMove(Pawn, Normal(POS_NONE, Pos(value[0], value[1])));
    var n := PromotionLength(value[2..]);
    mov := mov.(promotion := DecodePromotion(PromotionGroup(value[2..])));
    mov := mov.(checkType := DecodeCheck(AsWritten, CheckGroup(value[2 + n..])));
    mov := mov.(annotation := DecodeAnnotation(AnnotationGroup(value[2 + n..])));
    return Ok(mov);
  }
}
