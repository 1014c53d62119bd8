/** The notation vocabulary of the SAN codec: pieces, annotations, castle sides
    and check markers, each with its fixed text table, and the error type
    shared by every decoding step. */
module Vocabulary {

  datatype Option<+T> = None | Some(value: T)

  /** `SanError`: a vocabulary code that did not decode, or an input that no
      move shape matched. Both carry the message the source formats. */
  datatype SanError = IllegalInput(msg: string) | RegexExhausted(msg: string)

  /** The crate's `Result<T>` alias. */
  datatype Result<+T> = Ok(value: T) | Err(error: SanError)

  datatype Piece = Pawn | Bishop | King | Knight | Queen | Rook

  datatype Annotation = Blunder | Mistake | Interesting | Good | Brilliant

  datatype CastleType = Kingside | Queenside

  datatype CheckType = Check | Mate

  /** The letters of the character class `[KQBNR]`. */
  predicate IsPieceLetter(c: char) {
    c == 'K' || c == 'Q' || c == 'B' || c == 'N' || c == 'R'
  }

  /** Pawns have no letter; every other piece has one letter of `[KQBNR]`. */
  function PieceToStr(p: Piece): (r: string)
    ensures r == "" <==> p == Pawn
    ensures r != "" ==> |r| == 1 && IsPieceLetter(r[0])
  {
    match p
    case Pawn => ""
    case Bishop => "B"
    case King => "K"
    case Knight => "N"
    case Queen => "Q"
    case Rook => "R"
  }

  /** Decodes a piece code; the empty string is the pawn. Succeeds exactly on
      the codes `PieceToStr` produces, and then inverts it. */
  function PieceFromStr(value: string): (r: Result<Piece>)
    ensures forall p :: PieceToStr(p) == value ==> r == Ok(p)
    ensures r.Ok? ==> PieceToStr(r.value) == value
    ensures |value| == 1 && IsPieceLetter(value[0]) ==> r.Ok? && r.value != Pawn
    ensures r.Err? ==> r.error.IllegalInput?
  {
    match value
    case "" => Ok(Pawn)
    case "B" => Ok(Bishop)
    case "K" => Ok(King)
    case "N" => Ok(Knight)
    case "Q" => Ok(Queen)
    case "R" => Ok(Rook)
    case _ =>
      assert |value| == 1 ==> value == [value[0]];
      Err(IllegalInput("invalid piece: " + value))
  }

  /** The characters annotation tokens are made of. */
  predicate IsAnnotationChar(c: char) {
    c == '?' || c == '!'
  }

  /** Every annotation token is one or two characters of `?` and `!`. */
  function AnnotationToStr(a: Annotation): (r: string)
    ensures 1 <= |r| <= 2
    ensures forall i :: 0 <= i < |r| ==> IsAnnotationChar(r[i])
  {
    match a
    case Blunder => "??"
    case Mistake => "?"
    case Interesting => "?!"
    case Good => "!"
    case Brilliant => "!!"
  }

  /** Decodes an annotation token. Succeeds exactly on the tokens
      `AnnotationToStr` produces (so never on the empty string). */
  function AnnotationFromStr(value: string): (r: Result<Annotation>)
    ensures forall a :: AnnotationToStr(a) == value ==> r == Ok(a)
    ensures r.Ok? ==> AnnotationToStr(r.value) == value
    ensures r.Err? ==> r.error.IllegalInput?
  {
    match value
    case "??" => Ok(Blunder)
    case "?" => Ok(Mistake)
    case "?!" => Ok(Interesting)
    case "!" => Ok(Good)
    case "!!" => Ok(Brilliant)
    case _ => Err(IllegalInput("invalid annotation: " + value))
  }

  /** Both castle tokens start with `O-O`; the long one is five characters. */
  function CastleToStr(c: CastleType): (r: string)
    ensures |r| == 3 || |r| == 5
    ensures r[..3] == "O-O"
    ensures |r| == 5 <==> c == Queenside
  {
    match c
    case Kingside => "O-O"
    case Queenside => "O-O-O"
  }

  /** Decodes a castle token. Succeeds exactly on `O-O` and `O-O-O`. */
  function CastleFromStr(value: string): (r: Result<CastleType>)
    ensures forall c :: CastleToStr(c) == value ==> r == Ok(c)
    ensures r.Ok? ==> CastleToStr(r.value) == value
    ensures r.Err? ==> r.error.IllegalInput?
  {
    match value
    case "O-O" => Ok(Kingside)
    case "O-O-O" => Ok(Queenside)
    case _ => Err(IllegalInput("invalid castling move: " + value))
  }

  /** The marker `compile` writes for a check type (`+` or `#`), or nothing. */
  function CheckToStr(c: Option<CheckType>): (r: string)
    ensures |r| <= 1
    ensures r == "" <==> c == None
  {
    match c
    case None => ""
    case Some(Check) => "+"
    case Some(Mate) => "#"
  }
}
