/** The date check of the validator: the regular expression
    `^\d{4}-\d{2}-\d{2}$` tested against the whole string. The pattern is a
    sequence of pieces, each a character class repeated a fixed number of
    times; with fixed counts and both anchors, a string matches iff it
    splits into consecutive runs of exactly those lengths. */
module DateFormat {

  /** `\d` (in JavaScript the ASCII digits `[0-9]`) or one literal character. */
  datatype CharClass = Digit | Literal(c: char)

  /** `cls{count}` */
  datatype Piece = Piece(cls: CharClass, count: nat)

  predicate IsAsciiDigit(c: char) { '0' <= c <= '9' }

  predicate InClass(cls: CharClass, c: char) {
    match cls
    case Digit => IsAsciiDigit(c)
    case Literal(l) => c == l
  }

  /** `^\d{4}-\d{2}-\d{2}$` */
  const DatePattern: seq<Piece> :=
    [Piece(Digit, 4), Piece(Literal('-'), 1), Piece(Digit, 2), Piece(Literal('-'), 1), Piece(Digit, 2)]

  /** The number of characters a pattern consumes. */
  function Width(p: seq<Piece>): nat {
    if p == [] then 0 else p[0].count + Width(p[1..])
  }

  /** `s` is a run of `piece.count` characters of `piece.cls`. */
  predicate RunMatches(piece: Piece, s: string) {
    |s| == piece.count && forall i :: 0 <= i < |s| ==> InClass(piece.cls, s[i])
  }

  /** Anchored match of the pattern `p` against all of `s`. */
  predicate FullMatch(p: seq<Piece>, s: string)
    decreases |p|
  {
    if p == [] then s == []
    else
      p[0].count <= |s| && RunMatches(p[0], s[..p[0].count]) && FullMatch(p[1..], s[p[0].count..])
  }

  /** A matching string is exactly as long as the pattern is wide. */
  lemma {:induction false} FullMatchWidth(p: seq<Piece>, s: string)
    requires FullMatch(p, s)
    ensures |s| == Width(p)
  {
    if p != [] {
      FullMatchWidth(p[1..], s[p[0].count..]);
    }
  }

  /** The date shape stated position by position: ten characters, hyphens
      at offsets 4 and 7, ASCII digits everywhere else. No calendar check. */
  predicate IsDateShape(s: string) {
    && |s| == 10
    && s[4] == '-' && s[7] == '-'
    && forall i :: 0 <= i < 10 && i != 4 && i != 7 ==> IsAsciiDigit(s[i])
  }

  /** The regex accepts exactly the strings of the date shape. */
  lemma DatePatternIsDateShape(s: string)
    ensures FullMatch(DatePattern, s) <==> IsDateShape(s)
  {
    var p := DatePattern;
    assert p[1..][1..][1..][1..][1..] == [];
    if FullMatch(p, s) {
      FullMatchWidth(p, s);
      assert Width(p) == 10;
      assert RunMatches(p[0], s[..4]);
      assert RunMatches(p[1], s[4..][..1]);
      assert RunMatches(p[2], s[5..][..2]);
      assert RunMatches(p[3], s[7..][..1]);
      assert RunMatches(p[4], s[8..][..2]);
      forall i | 0 <= i < 10 && i != 4 && i != 7
        ensures IsAsciiDigit(s[i])
      {
        if i < 4 {
          assert s[..4][i] == s[i];
        } else if i < 7 {
          assert s[5..][..2][i - 5] == s[i];
        } else {
          assert s[8..][..2][i - 8] == s[i];
        }
      }
    }
    if IsDateShape(s) {
      assert RunMatches(p[4], s[8..]);
      assert FullMatch(p[4..], s[8..]);
      assert RunMatches(p[3], s[7..8]);
      assert FullMatch(p[3..], s[7..]);
      assert RunMatches(p[2], s[5..7]);
      assert FullMatch(p[2..], s[5..]);
      assert RunMatches(p[1], s[4..5]);
      assert FullMatch(p[1..], s[4..]);
      assert RunMatches(p[0], s[..4]);
    }
  }

  /** The check is lexical only: a month of 13 and a day of 99 pass, while
      day-month-year order fails. */
  lemma LexicalOnly()
    ensures FullMatch(DatePattern, "2023-13-99")
    ensures !FullMatch(DatePattern, "01-01-2023")
  {
    DatePatternIsDateShape("2023-13-99");
    DatePatternIsDateShape("01-01-2023");
  }
}
