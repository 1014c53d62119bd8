/** Two places where the parser as written departs from what it evidently
    means to do, each shown on a concrete input, next to the corrected
    reading and what is proved about it. */
module SanFindings {
  import opened Vocabulary
  import opened Squares
  import opened San
  import opened SanProperties
  import opened SanInverse

  // ---------------------------------------------------------------------
  // `check_type!` drops the check marker

  /** As written, `e4+` is read as a plain pawn push: the check is lost,
      and compiling the result gives `e4`, not the input back. (The input
      is a parameter fixed by `requires`, as in the literal cases of
      `SanProperties`, to keep the proof cheap.) */
  lemma CheckMarkerDropped(s: string)
    requires s == "e4+"
    ensures !RankUnderflow(AsWritten, s)
    ensures Decode(AsWritten, s) == Ok(NewMove(Pawn, Normal(POS_NONE, Of(4, 4))))
    ensures CompileText(NewMove(Pawn, Normal(POS_NONE, Of(4, 4)))) == "e4"
  {
    DecodeNormal(AsWritten, PawnPush, s);
    assert s[2..] == "+";
  }

  /** Corrected, `e4+` is read as a pawn push giving check, and compiles
      back to itself. */
  lemma CheckMarkerKept(s: string)
    requires s == "e4+"
    ensures !RankUnderflow(Intended, s)
    ensures Decode(Intended, s) == Ok(NewMove(Pawn, Normal(POS_NONE, Of(4, 4))).(checkType := Some(Check)))
    ensures CompileText(NewMove(Pawn, Normal(POS_NONE, Of(4, 4))).(checkType := Some(Check))) == s
  {
    DecodeNormal(Intended, PawnPush, s);
    assert s[2..] == "+";
  }

  /** Corrected, the check marker always survives the parser: a parsed
      move gives check or mate exactly when its input has `+` or `#`. */
  lemma CheckMarkerDecoded(t: string, m: Move)
    requires !RankUnderflow(Intended, t) && Decode(Intended, t) == Ok(m)
    ensures m.checkType == Some(Check) <==> '+' in t
    ensures m.checkType == Some(Mate) <==> '#' in t
  {
    var sh := FirstShape(Intended, t).value;
    MatchDecides(Intended, sh, t);
    MarkerInTail(Intended, sh, t);
  }

  /** A matched input holds `+` (or `#`) exactly when its check group is
      that marker. */
  lemma MarkerInTail(rev: Revision, sh: Shape, t: string)
    requires Matches(rev, sh, t)
    ensures var tail := t[TailStart(rev, sh, t)..];
            && ('+' in t <==> CheckGroup(tail) == "+")
            && ('#' in t <==> CheckGroup(tail) == "#")
  {
    TailIsSuffix(rev, sh, t);
    MarkersOnlyInTail(rev, sh, t);
    MarkerAtTailStart(t, TailStart(rev, sh, t));
  }

  /** When no marker precedes a tail, a marker is in the text exactly when
      the tail's check group is that marker. */
  lemma MarkerAtTailStart(t: string, ts: nat)
    requires ts <= |t| && IsSuffix(t[ts..])
    requires forall i :: 0 <= i < ts ==> !IsCheckMarker(t[i])
    ensures var tail := t[ts..];
            && ('+' in t <==> CheckGroup(tail) == "+")
            && ('#' in t <==> CheckGroup(tail) == "#")
  {
    var tail := t[ts..];
    if '+' in t || '#' in t {
      var i :| 0 <= i < |t| && (t[i] == '+' || t[i] == '#');
      assert tail[i - ts] == t[i];
      SuffixMarkerFirst(tail, i - ts);
    }
    if |tail| > 0 {
      assert t[ts] == tail[0];
      assert tail[..1] == [tail[0]];
    }
  }

  /** In a tail, a check marker can only come first. */
  lemma SuffixMarkerFirst(tail: string, j: nat)
    requires IsSuffix(tail) && j < |tail| && IsCheckMarker(tail[j])
    ensures j == 0
  {
  }

  /** No `+` or `#` occurs before the tail of a matched input. */
  lemma MarkersOnlyInTail(rev: Revision, sh: Shape, t: string)
    requires Matches(rev, sh, t)
    ensures forall i :: 0 <= i < TailStart(rev, sh, t) ==> !IsCheckMarker(t[i])
  {
    var h := HeadLength(rev, sh, t);
    forall i | 0 <= i < TailStart(rev, sh, t)
      ensures !IsCheckMarker(t[i])
    {
      if sh.CastleMove? {
        if IsShortCastle(t) {
          assert t[i] == t[..3][i];
        } else {
          assert t[i] == t[..5][i];
        }
      } else if i >= h {
        assert t[i] == t[h..][i - h];
      } else {
        assert i <= 5;
      }
    }
  }

  // ---------------------------------------------------------------------
  // Rank disambiguators of `[0-9]` reach `pos_row!` with 0 or 9

  /** As written, `R0e4` and `Rb9xh3` match a rank pattern whose digit
      `pos_row!` cannot decode: `0 - 1` and `7 - 8` underflow `usize`. */
  lemma RankDigitUnderflows()
    ensures Matches(AsWritten, PieceFromRank, "R0e4") && RankUnderflow(AsWritten, "R0e4")
    ensures Matches(AsWritten, PieceCaptureFromSquare, "Rb9xh3") && RankUnderflow(AsWritten, "Rb9xh3")
  {
  }

  /** Corrected to `[1-8]`, no input reaches the underflow. */
  lemma IntendedNeverUnderflows(s: string)
    ensures !RankUnderflow(Intended, s)
  {
  }

  /** The corrected patterns match exactly the inputs the written ones
      match with a rank disambiguator, if any, in range. */
  lemma MatchesAcross(sh: Shape, s: string)
    ensures Matches(Intended, sh, s) <==> Matches(AsWritten, sh, s) && DisambiguatorInRange(AsWritten, sh, s)
  {
  }

  /** Corrected, an input the written patterns would have decoded with an
      underflow is rejected as unparsable instead. */
  lemma IntendedRejectsBadRank(s: string)
    requires RankUnderflow(AsWritten, s)
    ensures !RankUnderflow(Intended, s)
    ensures Decode(Intended, s) == Err(RegexExhausted("could not parse: " + s))
  {
    match FirstShape(Intended, s)
    case Some(sh) =>
      MatchesAcross(sh, s);
      NoUnderflow(AsWritten, sh, s);
      assert false;
    case None =>
  }

  /** Without a check marker, both readings extract the same move from a
      shape. */
  lemma ExtractAgrees(sh: Shape, s: string)
    requires Matches(Intended, sh, s) && '+' !in s && '#' !in s
    ensures Matches(AsWritten, sh, s) && DisambiguatorInRange(AsWritten, sh, s)
    ensures Extract(AsWritten, sh, s) == Extract(Intended, sh, s)
  {
    MatchesAcross(sh, s);
    MarkerInTail(Intended, sh, s);
  }

  /** Away from check markers and the underflow, the two readings agree. */
  lemma RevisionsAgree(s: string)
    requires !RankUnderflow(AsWritten, s) && '+' !in s && '#' !in s
    ensures Decode(AsWritten, s) == Decode(Intended, s)
  {
    match FirstShape(Intended, s)
    case Some(sh) =>
      ExtractAgrees(sh, s);
      MatchDecides(AsWritten, sh, s);
      MatchDecides(Intended, sh, s);
    case None =>
      match FirstShape(AsWritten, s)
      case Some(sh) =>
        MatchDecides(AsWritten, sh, s);
        MatchesAcross(sh, s);
        MatchDecides(Intended, sh, s);
      case None =>
  }
}
