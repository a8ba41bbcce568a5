/**
 * Decimal rendering and parsing of integers and substring search, as used by the
 * C++ stream operators, boost::lexical_cast and std::string::find.
 */
module Text {
  import opened Wrappers

  predicate IsDigit(c: char) {
    '0' <= c <= '9'
  }

  predicate AllDigits(s: string) {
    forall i :: 0 <= i < |s| ==> IsDigit(s[i])
  }

  function DigitChar(d: nat): (c: char)
    requires d < 10
    ensures IsDigit(c) && c as int - '0' as int == d
  {
    ('0' as int + d) as char
  }

  /** The value of a string of decimal digits, most significant first. */
  function DigitsValue(s: string): nat
    requires AllDigits(s)
  {
    if s == [] then 0
    else DigitsValue(s[..|s| - 1]) * 10 + (s[|s| - 1] as int - '0' as int)
  }

  /** The shortest decimal rendering of a natural number. */
  function NatToString(n: nat): (s: string)
    ensures |s| >= 1 && AllDigits(s)
    ensures |s| > 1 ==> s[0] != '0'
    decreases n
  {
    if n < 10 then [DigitChar(n)]
    else NatToString(n / 10) + [DigitChar(n % 10)]
  }

  /** How `operator<<` and `"%d" %` render an integer: a '-' for negatives, then the digits. */
  function IntToString(i: int): (s: string)
    ensures |s| >= 1
    ensures i < 0 <==> s[0] == '-'
  {
    if i < 0 then "-" + NatToString(-i) else NatToString(i)
  }

  /**
   * An optional sign followed by at least one decimal digit and nothing else,
   * read as an unbounded integer. Range checks belong to the caller.
   */
  function ParseSigned(s: string): (r: Option<int>)
    ensures r.Some? ==> |s| >= 1
    ensures r.Some? && s[0] != '-' && s[0] != '+' ==> AllDigits(s) && r.value >= 0
  {
    if |s| >= 2 && s[0] == '-' && AllDigits(s[1..]) then Some(0 - DigitsValue(s[1..]) as int)
    else if |s| >= 2 && s[0] == '+' && AllDigits(s[1..]) then Some(DigitsValue(s[1..]))
    else if |s| >= 1 && AllDigits(s) then Some(DigitsValue(s))
    else None
  }

  lemma {:induction false} DigitsValueOfNatToString(n: nat)
    ensures DigitsValue(NatToString(n)) == n
    decreases n
  {
    var s := NatToString(n);
    if n >= 10 {
      DigitsValueOfNatToString(n / 10);
      assert s[..|s| - 1] == NatToString(n / 10);
    }
  }

  lemma ParseSignedOfNatToString(n: nat)
    ensures ParseSigned(NatToString(n)) == Some(n)
  {
    var d := NatToString(n);
    DigitsValueOfNatToString(n);
    assert IsDigit(d[0]);
  }

  lemma ParseSignedOfNegative(n: nat)
    requires n > 0
    ensures ParseSigned("-" + NatToString(n)) == Some(0 - n)
  {
    var d := NatToString(n);
    DigitsValueOfNatToString(n);
    var s := "-" + d;
    assert s[0] == '-' && s[1..] == d;
  }

  /** Rendering and then parsing an integer gives it back. */
  lemma ParseSignedOfIntToString(i: int)
    ensures ParseSigned(IntToString(i)) == Some(i)
  {
    if i < 0 {
      ParseSignedOfNegative(-i);
    } else {
      ParseSignedOfNatToString(i);
    }
  }

  /** The position of the first occurrence of `c` in `s` (std::string::find of a char). */
  function IndexOf(s: string, c: char): (r: Option<nat>)
    ensures r.None? <==> c !in s
    ensures r.Some? ==> r.value < |s| && s[r.value] == c && c !in s[..r.value]
  {
    if |s| == 0 then None
    else if s[0] == c then Some(0)
    else
      match IndexOf(s[1..], c)
      case None => None
      case Some(k) =>
        assert s[..k + 1] == [s[0]] + s[1..][..k];
        Some(k + 1)
  }

  predicate OccursAt(s: string, pat: string, k: nat) {
    k + |pat| <= |s| && s[k..k + |pat|] == pat
  }

  /** The position of the first occurrence of `pat` in `s` (std::string::find of a string). */
  function FindSub(s: string, pat: string, from: nat := 0): (r: Option<nat>)
    requires from <= |s|
    ensures r.None? ==> forall k :: from <= k <= |s| ==> !OccursAt(s, pat, k)
    ensures r.Some? ==> from <= r.value && OccursAt(s, pat, r.value)
    ensures r.Some? ==> forall k :: from <= k < r.value ==> !OccursAt(s, pat, k)
    decreases |s| - from
  {
    if OccursAt(s, pat, from) then Some(from)
    else if from == |s| then None
    else FindSub(s, pat, from + 1)
  }

  // ---------------------------------------------------------------------------
  // boost::lexical_cast from a string to an integer type

  const Int32Min := -0x8000_0000
  const Int32Max := 0x7FFF_FFFF
  const UInt32Limit := 0x1_0000_0000
  const Int64Min := -0x8000_0000_0000_0000
  const Int64Max := 0x7FFF_FFFF_FFFF_FFFF

  /** boost::lexical_cast<int>: a sign, digits, and the value must fit 32 bits. */
  function LexInt(s: string): (r: Option<int>)
    ensures r.Some? ==> Int32Min <= r.value <= Int32Max
    ensures r.Some? <==> ParseSigned(s).Some? && Int32Min <= ParseSigned(s).value <= Int32Max
  {
    match ParseSigned(s)
    case Some(v) => if Int32Min <= v <= Int32Max then Some(v) else None
    case None => None
  }

  /** boost::lexical_cast<long long>. */
  function LexLongLong(s: string): (r: Option<int>)
    ensures r.Some? ==> Int64Min <= r.value <= Int64Max
    ensures r.Some? <==> ParseSigned(s).Some? && Int64Min <= ParseSigned(s).value <= Int64Max
  {
    match ParseSigned(s)
    case Some(v) => if Int64Min <= v <= Int64Max then Some(v) else None
    case None => None
  }

  /**
   * boost::lexical_cast<unsigned>: the magnitude must fit 32 bits, and a leading
   * '-' is accepted and wraps modulo 2^32.
   */
  function LexUnsigned(s: string): (r: Option<int>)
    ensures r.Some? ==> 0 <= r.value < UInt32Limit
    ensures r.Some? <==> ParseSigned(s).Some? && -UInt32Limit < ParseSigned(s).value < UInt32Limit
    ensures r.Some? && ParseSigned(s).value >= 0 ==> r.value == ParseSigned(s).value
  {
    match ParseSigned(s)
    case Some(v) =>
      if 0 <= v < UInt32Limit then Some(v)
      else if -UInt32Limit < v < 0 then Some(v + UInt32Limit)
      else None
    case None => None
  }

  // ---------------------------------------------------------------------------
  // Tokenising on a separator character

  /** The pieces between occurrences of `sep`, empty ones included. */
  function Pieces(s: string, sep: char): (r: seq<string>)
    ensures |r| >= 1
    ensures forall i :: 0 <= i < |r| ==> sep !in r[i]
    decreases |s|
  {
    match IndexOf(s, sep)
    case None => [s]
    case Some(k) => [s[..k]] + Pieces(s[k + 1..], sep)
  }

  function NonEmpty(ps: seq<string>): (r: seq<string>)
    ensures forall i :: 0 <= i < |r| ==> r[i] != ""
    ensures forall i :: 0 <= i < |r| ==> r[i] in ps
  {
    if ps == [] then []
    else if ps[0] == "" then NonEmpty(ps[1..])
    else [ps[0]] + NonEmpty(ps[1..])
  }

  /** boost::tokenizer with char_separator(sep): the non-empty pieces, in order. */
  function Tokens(s: string, sep: char): (r: seq<string>)
    ensures forall i :: 0 <= i < |r| ==> r[i] != "" && sep !in r[i]
  {
    NonEmpty(Pieces(s, sep))
  }

  /** The words joined with one `sep` between each two. */
  function Join(words: seq<string>, sep: char): string {
    if words == [] then ""
    else if |words| == 1 then words[0]
    else words[0] + [sep] + Join(words[1..], sep)
  }

  lemma {:induction false} PiecesOfJoin(words: seq<string>, sep: char)
    requires |words| >= 1
    requires forall i :: 0 <= i < |words| ==> sep !in words[i]
    ensures Pieces(Join(words, sep), sep) == words
    decreases |words|
  {
    var s := Join(words, sep);
    if |words| == 1 {
      assert IndexOf(s, sep).None?;
    } else {
      PiecesCons(words[0], sep, Join(words[1..], sep));
      PiecesOfJoin(words[1..], sep);
    }
  }

  /** A word without the separator, the separator, then the rest: the word is the first piece. */
  lemma PiecesCons(w: string, sep: char, rest: string)
    requires sep !in w
    ensures Pieces(w + [sep] + rest, sep) == [w] + Pieces(rest, sep)
  {
    var s := w + [sep] + rest;
    assert s[..|w|] == w;
    assert s[|w|] == sep;
    assert IndexOf(s, sep) == Some(|w|);
    assert s[|w| + 1..] == rest;
  }

  lemma TokensCons(w: string, sep: char, rest: string)
    requires w != "" && sep !in w
    ensures Tokens(w + [sep] + rest, sep) == [w] + Tokens(rest, sep)
  {
    PiecesCons(w, sep, rest);
    assert ([w] + Pieces(rest, sep))[1..] == Pieces(rest, sep);
  }

  lemma TokensOfEmpty(sep: char)
    ensures Tokens("", sep) == []
  {
    assert Pieces("", sep) == [""];
    assert NonEmpty([""]) == NonEmpty([""][1..]);
  }

  lemma {:induction false} NonEmptyOfNonEmpty(ws: seq<string>)
    requires forall i :: 0 <= i < |ws| ==> ws[i] != ""
    ensures NonEmpty(ws) == ws
    decreases |ws|
  {
    if ws != [] {
      NonEmptyOfNonEmpty(ws[1..]);
    }
  }

  /** Tokenising words joined by the separator gives the words back when none is empty or holds it. */
  lemma TokensOfJoin(words: seq<string>, sep: char)
    requires forall i :: 0 <= i < |words| ==> words[i] != "" && sep !in words[i]
    ensures Tokens(Join(words, sep), sep) == words
  {
    if words == [] {
      TokensOfEmpty(sep);
    } else {
      PiecesOfJoin(words, sep);
      NonEmptyOfNonEmpty(words);
    }
  }
}
