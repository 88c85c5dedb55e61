/**
 * The delivery phone number format accepted by the order serializer: the Belarusian
 * forms `80…` and `+375…` followed by nine digits grouped 2-3-2-2, the first group
 * optionally in parentheses, with at most one space or hyphen before each group, and
 * nothing before or after. `Matches` is a hand-written scanner; `InGrammar` is the
 * same language stated as a sequence of pieces; `MatchesIffGrammar` proves them equal.
 */
module Phone {
  import opened Wrappers

  /** A decimal digit (the model reads `\d` as the ASCII digits). */
  predicate IsDigit(c: char) {
    '0' <= c <= '9'
  }

  /** A character of the class `[ -]`. */
  predicate IsSepChar(c: char) {
    c == ' ' || c == '-'
  }

  predicate AllDigits(w: string) {
    forall k :: 0 <= k < |w| ==> IsDigit(w[k])
  }

  // ---------------------------------------------------------------------------------
  // The grammar

  /** The pieces of the pattern, in the order the pattern lists them. */
  datatype Piece =
    | CountryCode     // (80|\+375)
    | OptSep          // [ -]?
    | AreaCode        // (\(\d{2}\)|\d{2})
    | Digits(n: nat)  // \d{n}

  const Pattern: seq<Piece> :=
    [CountryCode, OptSep, AreaCode, OptSep, Digits(3), OptSep, Digits(2), OptSep, Digits(2)]

  /** The words one piece stands for. */
  predicate Word(p: Piece, w: string) {
    match p
    case CountryCode => w == "80" || w == "+375"
    case OptSep => w == "" || (|w| == 1 && IsSepChar(w[0]))
    case AreaCode =>
      (|w| == 2 && AllDigits(w)) || (|w| == 4 && w[0] == '(' && AllDigits(w[1..3]) && w[3] == ')')
    case Digits(n) => |w| == n && AllDigits(w)
  }

  /** `s` is a word of each piece in turn, and nothing else. */
  ghost predicate Derives(s: string, pieces: seq<Piece>)
    decreases |pieces|
  {
    if pieces == [] then s == ""
    else exists k :: 0 <= k <= |s| && Word(pieces[0], s[..k]) && Derives(s[k..], pieces[1..])
  }

  /** The language of the whole pattern under `re.fullmatch`. */
  ghost predicate InGrammar(s: string) {
    Derives(s, Pattern)
  }

  // ---------------------------------------------------------------------------------
  // The matcher

  /** What follows the country code `80` or `+375` that `s` starts with. */
  function SkipCountryCode(s: string): Option<string> {
    if |s| >= 2 && s[0] == '8' && s[1] == '0' then Some(s[2..])
    else if |s| >= 4 && s[0] == '+' && s[1] == '3' && s[2] == '7' && s[3] == '5' then Some(s[4..])
    else None
  }

  /** `s` without the one space or hyphen it may start with. */
  function SkipSep(s: string): string {
    if |s| > 0 && IsSepChar(s[0]) then s[1..] else s
  }

  /** What follows the `n` digits that `s` starts with. */
  function SkipDigits(s: string, n: nat): Option<string> {
    if n <= |s| && AllDigits(s[..n]) then Some(s[n..]) else None
  }

  /** What follows the area code, `(dd)` or `dd`, that `s` starts with. */
  function SkipAreaCode(s: string): Option<string> {
    if |s| >= 4 && s[0] == '(' && IsDigit(s[1]) && IsDigit(s[2]) && s[3] == ')' then Some(s[4..])
    else SkipDigits(s, 2)
  }

  /** The phone-number check of the order serializer. */
  function Matches(s: string): bool {
    match SkipCountryCode(s)
    case None => false
    case Some(r1) =>
      match SkipAreaCode(SkipSep(r1))
      case None => false
      case Some(r2) =>
        match SkipDigits(SkipSep(r2), 3)
        case None => false
        case Some(r3) =>
          match SkipDigits(SkipSep(r3), 2)
          case None => false
          case Some(r4) => SkipDigits(SkipSep(r4), 2) == Some("")
  }

  // ---------------------------------------------------------------------------------
  // Matcher and grammar agree

  /** The matcher's step for one piece. */
  function Step(p: Piece, s: string): Option<string> {
    match p
    case CountryCode => SkipCountryCode(s)
    case OptSep => Some(SkipSep(s))
    case AreaCode => SkipAreaCode(s)
    case Digits(n) => SkipDigits(s, n)
  }

  /** The matcher's steps for a sequence of pieces. */
  function Run(pieces: seq<Piece>, s: string): Option<string>
    decreases |pieces|
  {
    if pieces == [] then Some(s)
    else match Step(pieces[0], s)
      case None => None
      case Some(rest) => Run(pieces[1..], rest)
  }

  lemma MatchesIsRun(s: string)
    ensures Matches(s) == (Run(Pattern, s) == Some(""))
  {
    var p := Pattern;
    assert p[1..] == [OptSep, AreaCode, OptSep, Digits(3), OptSep, Digits(2), OptSep, Digits(2)];
    assert p[1..][1..] == [AreaCode, OptSep, Digits(3), OptSep, Digits(2), OptSep, Digits(2)];
    assert p[1..][1..][1..] == [OptSep, Digits(3), OptSep, Digits(2), OptSep, Digits(2)];
    assert p[1..][1..][1..][1..] == [Digits(3), OptSep, Digits(2), OptSep, Digits(2)];
    assert p[1..][1..][1..][1..][1..] == [OptSep, Digits(2), OptSep, Digits(2)];
    assert p[1..][1..][1..][1..][1..][1..] == [Digits(2), OptSep, Digits(2)];
    assert p[1..][1..][1..][1..][1..][1..][1..] == [OptSep, Digits(2)];
    assert p[1..][1..][1..][1..][1..][1..][1..][1..] == [Digits(2)];
  }

  /** A step consumes a word of its piece from the front of `s`. */
  lemma StepSound(p: Piece, s: string)
    requires Step(p, s).Some?
    ensures var k := |s| - |Step(p, s).value|;
      0 <= k <= |s| && Word(p, s[..k]) && s[k..] == Step(p, s).value
  {
    var k := |s| - |Step(p, s).value|;
    match p
    case CountryCode =>
      if |s| >= 2 && s[0] == '8' && s[1] == '0' { assert s[..k] == "80"; }
      else { assert s[..k] == "+375"; }
    case OptSep =>
    case AreaCode =>
      if |s| >= 4 && s[0] == '(' && IsDigit(s[1]) && IsDigit(s[2]) && s[3] == ')' {
        assert s[..k][1..3] == s[1..3];
      }
    case Digits(n) =>
  }

  /** A piece that always starts with a character other than a space or hyphen. */
  predicate StartsSolid(p: Piece) {
    p == CountryCode || p == AreaCode || (p.Digits? && p.n > 0)
  }

  /** Every optional separator is followed by a piece that starts solid. */
  predicate SeparatorsFollowed(pieces: seq<Piece>) {
    forall i :: 0 <= i < |pieces| && pieces[i] == OptSep ==> i + 1 < |pieces| && StartsSolid(pieces[i + 1])
  }

  /** A step takes exactly a word of its piece off the front of `w + t`. */
  lemma StepComplete(p: Piece, w: string, t: string)
    requires Word(p, w)
    requires p == OptSep ==> t == [] || !IsSepChar(t[0])
    ensures Step(p, w + t) == Some(t)
  {
    var s := w + t;
    match p
    case CountryCode =>
      assert s[..|w|] == w && s[|w|..] == t;
    case OptSep =>
      if w == "" { assert s == t; } else { assert s[1..] == t; }
    case AreaCode =>
      assert s[|w|..] == t;
      if |w| == 2 {
        assert IsDigit(w[0]);
        assert s[..2] == w;
      } else {
        assert IsDigit(w[1..3][0]) && IsDigit(w[1..3][1]);
      }
    case Digits(n) =>
      assert s[..n] == w && s[n..] == t;
  }

  /** A word derived from a sequence starting with a solid piece starts with a solid character. */
  lemma DerivesStartsSolid(s: string, pieces: seq<Piece>)
    requires pieces != [] && StartsSolid(pieces[0]) && Derives(s, pieces)
    ensures s != [] && !IsSepChar(s[0])
  {
    var k :| 0 <= k <= |s| && Word(pieces[0], s[..k]) && Derives(s[k..], pieces[1..]);
    var w := s[..k];
    assert w[0] == s[0];
    match pieces[0]
    case CountryCode =>
    case AreaCode =>
      if |w| == 2 { assert IsDigit(w[0]); }
    case Digits(n) =>
      assert IsDigit(w[0]);
  }

  lemma {:induction false} RunSound(pieces: seq<Piece>, s: string)
    requires Run(pieces, s) == Some("")
    ensures Derives(s, pieces)
    decreases |pieces|
  {
    if pieces == [] {
    } else {
      var rest := Step(pieces[0], s).value;
      StepSound(pieces[0], s);
      RunSound(pieces[1..], rest);
      var k := |s| - |rest|;
      assert 0 <= k <= |s| && Word(pieces[0], s[..k]) && Derives(s[k..], pieces[1..]);
    }
  }

  lemma {:induction false} RunComplete(pieces: seq<Piece>, s: string)
    requires SeparatorsFollowed(pieces) && Derives(s, pieces)
    ensures Run(pieces, s) == Some("")
    decreases |pieces|
  {
    if pieces != [] {
      var k :| 0 <= k <= |s| && Word(pieces[0], s[..k]) && Derives(s[k..], pieces[1..]);
      var w, t := s[..k], s[k..];
      assert w + t == s;
      assert SeparatorsFollowed(pieces[1..]) by {
        forall i | 0 <= i < |pieces[1..]| && pieces[1..][i] == OptSep
          ensures i + 1 < |pieces[1..]| && StartsSolid(pieces[1..][i + 1])
        {
          assert pieces[i + 1] == OptSep;
        }
      }
      if pieces[0] == OptSep {
        assert 0 + 1 < |pieces| && StartsSolid(pieces[1]);
        DerivesStartsSolid(t, pieces[1..]);
      }
      StepComplete(pieces[0], w, t);
      RunComplete(pieces[1..], t);
    }
  }

  /** In the pattern, every optional separator comes before a country code, area code or digit group. */
  lemma PatternSeparatorsFollowed()
    ensures SeparatorsFollowed(Pattern)
  {
    forall i | 0 <= i < |Pattern| && Pattern[i] == OptSep
      ensures i + 1 < |Pattern| && StartsSolid(Pattern[i + 1])
    {
      assert i in {1, 3, 5, 7};
    }
  }

  /** The matcher accepts exactly the strings of the grammar. */
  lemma MatchesIffGrammar(s: string)
    ensures Matches(s) <==> InGrammar(s)
  {
    MatchesIsRun(s);
    if Matches(s) {
      RunSound(Pattern, s);
    }
    if InGrammar(s) {
      PatternSeparatorsFollowed();
      RunComplete(Pattern, s);
    }
  }

  // ---------------------------------------------------------------------------------
  // Length and examples

  /** The shortest and the longest word of one piece. */
  function MinWord(p: Piece): nat {
    match p
    case CountryCode => 2
    case OptSep => 0
    case AreaCode => 2
    case Digits(n) => n
  }

  function MaxWord(p: Piece): nat {
    match p
    case CountryCode => 4
    case OptSep => 1
    case AreaCode => 4
    case Digits(n) => n
  }

  function MinLength(pieces: seq<Piece>): nat {
    if pieces == [] then 0 else MinWord(pieces[0]) + MinLength(pieces[1..])
  }

  function MaxLength(pieces: seq<Piece>): nat {
    if pieces == [] then 0 else MaxWord(pieces[0]) + MaxLength(pieces[1..])
  }

  lemma {:induction false} DerivesLength(s: string, pieces: seq<Piece>)
    requires Derives(s, pieces)
    ensures MinLength(pieces) <= |s| <= MaxLength(pieces)
    decreases |pieces|
  {
    if pieces != [] {
      var k :| 0 <= k <= |s| && Word(pieces[0], s[..k]) && Derives(s[k..], pieces[1..]);
      DerivesLength(s[k..], pieces[1..]);
    }
  }

  /** Every accepted number is 11 to 19 characters long, within the column's 20. */
  lemma AcceptedLength(s: string)
    requires Matches(s)
    ensures 11 <= |s| <= 19
  {
    MatchesIffGrammar(s);
    DerivesLength(s, Pattern);
    assert MinLength(Pattern) == 11 && MaxLength(Pattern) == 19 by {
      MatchesIsRun(s);
    }
  }

  /** `Matches` as a chain of the matcher's steps, one named remainder per group. */
  lemma MatchesByGroups(s: string, r1: string, r2: string, r3: string, r4: string)
    requires SkipCountryCode(s) == Some(r1) && SkipAreaCode(SkipSep(r1)) == Some(r2)
    requires SkipDigits(SkipSep(r2), 3) == Some(r3) && SkipDigits(SkipSep(r3), 2) == Some(r4)
    requires SkipDigits(SkipSep(r4), 2) == Some("")
    ensures Matches(s)
  {
  }

  lemma GroupedCountryCode()
    ensures SkipCountryCode("+375 (29) 999-99-99") == Some(" (29) 999-99-99")
  {
  }

  lemma GroupedAreaCode()
    ensures SkipAreaCode(SkipSep(" (29) 999-99-99")) == Some(" 999-99-99")
  {
  }

  lemma GroupedFirstDigits()
    ensures SkipDigits(SkipSep(" 999-99-99"), 3) == Some("-99-99")
  {
    assert AllDigits("999");
  }

  lemma GroupedSecondDigits()
    ensures SkipDigits(SkipSep("-99-99"), 2) == Some("-99")
  {
    assert AllDigits("99");
  }

  lemma GroupedLastDigits()
    ensures SkipDigits(SkipSep("-99"), 2) == Some("")
  {
    assert AllDigits("99");
  }

  /** A number written with parentheses, spaces and hyphens is accepted. */
  lemma GroupedExampleAccepted()
    ensures Matches("+375 (29) 999-99-99")
  {
    GroupedCountryCode();
    GroupedAreaCode();
    GroupedFirstDigits();
    GroupedSecondDigits();
    GroupedLastDigits();
    MatchesByGroups("+375 (29) 999-99-99", " (29) 999-99-99", " 999-99-99", "-99-99", "-99");
  }

  /** After the country code, `299999999` is the area code `29` and the groups 3-2-2. */
  lemma NinesSplit()
    ensures SkipAreaCode(SkipSep("299999999")) == Some("9999999")
    ensures SkipDigits(SkipSep("9999999"), 3) == Some("9999")
    ensures SkipDigits(SkipSep("9999"), 2) == Some("99")
    ensures SkipDigits(SkipSep("99"), 2) == Some("")
  {
    assert AllDigits("29");
    assert AllDigits("999");
    assert AllDigits("99");
  }

  /** The international form named in the error message is accepted. */
  lemma InternationalExampleAccepted()
    ensures Matches("+375299999999")
  {
    assert SkipCountryCode("+375299999999") == Some("299999999");
    NinesSplit();
    MatchesByGroups("+375299999999", "299999999", "9999999", "9999", "99");
  }

  /** The national form named in the error message is accepted. */
  lemma NationalExampleAccepted()
    ensures Matches("80299999999")
  {
    assert SkipCountryCode("80299999999") == Some("299999999");
    NinesSplit();
    MatchesByGroups("80299999999", "299999999", "9999999", "9999", "99");
  }

  /** A string without either country code is rejected. */
  lemma ShortExampleRejected()
    ensures !Matches("123456")
  {
    assert SkipCountryCode("123456") == None;
  }
}
