/**
 * The status line of `updateStatus`:
 * "Remaining: <remaining> | Liked: <liked>" while cards remain, "" after.
 * Integers are rendered in decimal, as JavaScript template literals do for
 * non-negative integers.
 */
module StatusText {
  import opened Options

  const REMAINING_LABEL := "Remaining: "
  const LIKED_LABEL := " | Liked: "

  predicate IsDigit(c: char) { '0' <= c <= '9' }

  predicate AllDigits(s: string) { forall i :: 0 <= i < |s| ==> IsDigit(s[i]) }

  function DigitChar(d: nat): (c: char)
    requires d < 10
    ensures IsDigit(c) && c as int - '0' as int == d
  {
    ('0' as int + d) as char
  }

  /** Decimal rendering of a natural number, without leading zeros. */
  function NatToString(n: nat): (s: string)
    ensures |s| >= 1 && AllDigits(s)
    ensures |s| > 1 ==> s[0] != '0'
  {
    if n < 10 then [DigitChar(n)] else NatToString(n / 10) + [DigitChar(n % 10)]
  }

  /** Value of a string of decimal digits (0 for the empty string). */
  function ParseNat(s: string): nat
    requires AllDigits(s)
  {
    if s == [] then 0
    else ParseNat(s[..|s| - 1]) * 10 + (s[|s| - 1] as int - '0' as int)
  }

  lemma {:induction false} ParseNatToString(n: nat)
    ensures ParseNat(NatToString(n)) == n
  {
    if n >= 10 {
      var s := NatToString(n / 10);
      var t := s + [DigitChar(n % 10)];
      assert t[..|t| - 1] == s;
      ParseNatToString(n / 10);
    }
  }

  /** Number of leading decimal digits of `s`. */
  function DigitPrefix(s: string): (k: nat)
    ensures k <= |s| && AllDigits(s[..k])
    ensures k < |s| ==> !IsDigit(s[k])
  {
    if s == [] || !IsDigit(s[0]) then 0
    else
      var k := 1 + DigitPrefix(s[1..]);
      assert s[..k] == [s[0]] + s[1..][..k - 1];
      k
  }

  lemma {:induction false} DigitPrefixOfDigits(d: string, t: string)
    requires AllDigits(d)
    requires t != [] && !IsDigit(t[0])
    ensures DigitPrefix(d + t) == |d|
  {
    if d != [] {
      assert (d + t)[1..] == d[1..] + t;
      DigitPrefixOfDigits(d[1..], t);
    }
  }

  /** The text `updateStatus` writes for `remaining` cards and `liked` likes. */
  function StatusLine(remaining: int, liked: nat): (line: string)
    ensures line == "" <==> remaining <= 0
  {
    if remaining > 0 then
      REMAINING_LABEL + NatToString(remaining) + LIKED_LABEL + NatToString(liked)
    else ""
  }

  /** Reads the two counts back from a status line. */
  function ParseStatus(line: string): Option<(nat, nat)>
  {
    var p := |REMAINING_LABEL|;
    if |line| < p || line[..p] != REMAINING_LABEL then None
    else
      var rest := line[p..];
      var k := DigitPrefix(rest);
      var tail := rest[k..];
      var q := |LIKED_LABEL|;
      if k == 0 || |tail| < q || tail[..q] != LIKED_LABEL then None
      else
        var likedText := tail[q..];
        if likedText == [] || !AllDigits(likedText) then None
        else Some((ParseNat(rest[..k]), ParseNat(likedText)))
  }

  /** A non-empty status line determines both counts it displays. */
  lemma {:induction false} StatusLineRoundTrip(remaining: nat, liked: nat)
    requires remaining > 0
    ensures ParseStatus(StatusLine(remaining, liked)) == Some((remaining, liked))
  {
    var r := NatToString(remaining);
    var l := NatToString(liked);
    var line := REMAINING_LABEL + r + LIKED_LABEL + l;
    assert StatusLine(remaining, liked) == line;
    var p := |REMAINING_LABEL|;
    assert line[..p] == REMAINING_LABEL;
    var rest := line[p..];
    assert rest == r + (LIKED_LABEL + l);
    DigitPrefixOfDigits(r, LIKED_LABEL + l);
    assert rest[..|r|] == r;
    var tail := rest[|r|..];
    assert tail == LIKED_LABEL + l;
    assert tail[..|LIKED_LABEL|] == LIKED_LABEL;
    assert tail[|LIKED_LABEL|..] == l;
    ParseNatToString(remaining);
    ParseNatToString(liked);
  }
}
