/** Board squares: a file and a rank, each optional, in the source's internal
    coordinates (origin at the top-left square a8: file a..h is x = 0..7,
    rank 8..1 is y = 0..7). Decoding is the `pos_col!`/`pos_row!` macros,
    encoding is `Position::to_string`. */
module Squares {
  import opened Vocabulary

  /** Coordinates are `usize` in the source; no move text produces one that is
      anywhere near its bound, so they are modelled as `nat`. */
  datatype Position = Position(x: Option<nat>, y: Option<nat>)

  /** The completely unspecified position. */
  const POS_NONE: Position := Position(None, None)

  /** `Position::of`: both axes present. On the board it is a square,
      written as its file letter followed by its rank digit. */
  function Of(x: nat, y: nat): (p: Position)
    ensures p.x == Some(x) && p.y == Some(y)
    ensures x < 8 && y < 8 ==> IsSquare(p) && Encodable(p) && PositionText(p) == [FileChar(x), RankChar(y)]
  {
    Position(Some(x), Some(y))
  }

  /** The character class `[a-h]`. */
  predicate IsFile(c: char) {
    'a' <= c <= 'h'
  }

  /** The character class `[1-8]`. */
  predicate IsRank(c: char) {
    '1' <= c <= '8'
  }

  /** The character class `[0-9]`. */
  predicate IsDigit(c: char) {
    '0' <= c <= '9'
  }

  /** A complete square of the board, in range. */
  predicate IsSquare(p: Position) {
    p.x.Some? && p.x.value < 8 && p.y.Some? && p.y.value < 8
  }

  /** `pos_col!`: the character's code minus 0x61. The `usize` subtraction
      needs a code of at least 0x61. */
  function PosCol(c: char): (x: nat)
    requires 'a' <= c
    ensures IsFile(c) <==> x < 8
    ensures x + 'a' as int == c as int
  {
    c as int - 'a' as int
  }

  /** `pos_row!`: the digit's value `d` becomes `7 - (d - 1)`. Both `usize`
      subtractions must not go below zero, so the digit must be 1..8. */
  function PosRow(c: char): (y: nat)
    requires IsDigit(c)
    requires 1 <= c as int - '0' as int && c as int - '0' as int - 1 <= 7
    ensures y < 8
    ensures y == 8 - (c as int - '0' as int)
  {
    7 - ((c as int - '0' as int) - 1)
  }

  /** `pos!`: a complete square from a file letter and a rank digit. */
  function Pos(file: char, rank: char): (p: Position)
    requires IsFile(file) && IsRank(rank)
    ensures IsSquare(p)
  {
    Position(Some(PosCol(file)), Some(PosRow(rank)))
  }

  /** `b'a' + (x as u8)`: the cast keeps the low 8 bits, and the `u8` sum must
      not overflow. */
  predicate FileEncodable(x: nat) {
    'a' as int + x % 256 < 256
  }

  /** `b'8' - (y as u8)`: the cast keeps the low 8 bits, and the `u8`
      difference must not go below zero. */
  predicate RankEncodable(y: nat) {
    y % 256 <= '8' as int
  }

  predicate Encodable(p: Position) {
    (p.x.Some? ==> FileEncodable(p.x.value)) && (p.y.Some? ==> RankEncodable(p.y.value))
  }

  /** The file letter `to_string` emits; a letter of `[a-h]` exactly when the
      low 8 bits of `x` are 0..7. */
  function FileChar(x: nat): (c: char)
    requires FileEncodable(x)
    ensures IsFile(c) <==> x % 256 < 8
  {
    ('a' as int + x % 256) as char
  }

  /** The rank digit `to_string` emits; a digit of `[1-8]` exactly when the
      low 8 bits of `y` are 0..7. */
  function RankChar(y: nat): (c: char)
    requires RankEncodable(y)
    ensures IsRank(c) <==> y % 256 < 8
  {
    ('8' as int - y % 256) as char
  }

  /** The text of a position: the file letter if the file is present, then
      the rank digit if the rank is present. */
  function PositionText(p: Position): (r: string)
    requires Encodable(p)
    ensures |r| == (if p.x.Some? then 1 else 0) + (if p.y.Some? then 1 else 0)
    ensures p.x.Some? ==> r[0] == FileChar(p.x.value)
    ensures p.y.Some? ==> r[|r| - 1] == RankChar(p.y.value)
  {
    (if p.x.Some? then [FileChar(p.x.value)] else [])
      + (if p.y.Some? then [RankChar(p.y.value)] else [])
  }

  /** `Position::to_string`, building the text by successive pushes. */
  method ToString(p: Position) returns (res: string)
    requires Encodable(p)
    ensures res == PositionText(p)
  {
    res := "";
    if p.x.Some? {
      res := res + [FileChar(p.x.value)];
    }
    if p.y.Some? {
      res := res + [RankChar(p.y.value)];
    }
  }

  /** Encoding inverts decoding: a file letter and a rank digit decode to a
      square whose text is the same two characters. */
  lemma SquareTextRoundTrip(file: char, rank: char)
    requires IsFile(file) && IsRank(rank)
    ensures PositionText(Pos(file, rank)) == [file, rank]
  {
  }

  /** Decoding inverts encoding on the board: each in-range coordinate is
      written as a letter or digit that decodes back to it. */
  lemma CoordinateRoundTrip(x: nat, y: nat)
    requires x < 8 && y < 8
    ensures IsFile(FileChar(x)) && PosCol(FileChar(x)) == x
    ensures IsRank(RankChar(y)) && PosRow(RankChar(y)) == y
  {
  }

  /** A file letter decodes to a board file written as the same letter. */
  lemma FileRoundTrip(c: char)
    requires IsFile(c)
    ensures PosCol(c) < 8 && FileEncodable(PosCol(c)) && FileChar(PosCol(c)) == c
  {
  }

  /** A rank digit decodes to a board rank written as the same digit. */
  lemma RankRoundTrip(c: char)
    requires IsRank(c)
    ensures PosRow(c) < 8 && RankEncodable(PosRow(c)) && RankChar(PosRow(c)) == c
  {
  }

  /** The unspecified position renders as the empty string, and it is the only
      one that does. */
  lemma EmptyPositionText(p: Position)
    requires Encodable(p)
    ensures PositionText(p) == "" <==> p == POS_NONE
  {
  }
}
