/**
 * String helpers used by the factory: whitespace removal as done by
 * `''.join(s.split())` and by `.replace('\n','').replace(' ','')`, the
 * substitution that turns a group name into a file-name stem, decimal
 * formatting of integers ("%d"), ordinal numerals and URL normalisation.
 */
module Text {

  /** The characters Python's `str.split()` without arguments splits on. */
  predicate IsPySpace(c: char)
  {
    c == ' ' || ('\t' <= c <= '\r') || ('\U{1C}' <= c <= '\U{1F}')
    || c == '\U{85}' || c == '\U{A0}' || c == '\U{1680}'
    || ('\U{2000}' <= c <= '\U{200A}') || c == '\U{2028}' || c == '\U{2029}'
    || c == '\U{202F}' || c == '\U{205F}' || c == '\U{3000}'
  }

  /**
   * `''.join([t.strip() for t in s.split()])`: every whitespace character
   * disappears and everything else keeps its order.
   */
  function RemoveWhitespace(s: string): (r: string)
    ensures |r| <= |s|
    ensures forall i :: 0 <= i < |r| ==> !IsPySpace(r[i])
    ensures (forall i :: 0 <= i < |s| ==> !IsPySpace(s[i])) ==> r == s
  {
    if s == [] then []
    else if IsPySpace(s[0]) then RemoveWhitespace(s[1..])
    else [s[0]] + RemoveWhitespace(s[1..])
  }

  /** `s.replace('\n', '').replace(' ', '')`: only newlines and blanks go. */
  function RemoveBlanksAndNewlines(s: string): (r: string)
    ensures |r| <= |s|
    ensures forall i :: 0 <= i < |r| ==> r[i] != ' ' && r[i] != '\n'
    ensures (forall i :: 0 <= i < |s| ==> s[i] != ' ' && s[i] != '\n') ==> r == s
  {
    if s == [] then []
    else if s[0] == ' ' || s[0] == '\n' then RemoveBlanksAndNewlines(s[1..])
    else [s[0]] + RemoveBlanksAndNewlines(s[1..])
  }

  /**
   * Whitespace removal works piece by piece: with its value on single
   * characters this determines it, so the characters kept stay in order.
   */
  lemma {:induction false} RemoveWhitespaceConcat(s: string, t: string)
    ensures RemoveWhitespace(s + t) == RemoveWhitespace(s) + RemoveWhitespace(t)
  {
    if s != [] {
      RemoveWhitespaceConcat(s[1..], t);
      var st := s + t;
      assert st[0] == s[0] && st[1..] == s[1..] + t;
      RemoveWhitespaceCons(st);
      RemoveWhitespaceCons(s);
      var head := if IsPySpace(s[0]) then [] else [s[0]];
      assert head + (RemoveWhitespace(s[1..]) + RemoveWhitespace(t))
          == (head + RemoveWhitespace(s[1..])) + RemoveWhitespace(t);
    } else {
      assert s + t == t;
    }
  }

  /** The first character is removed or kept on its own. */
  lemma RemoveWhitespaceCons(s: string)
    requires s != []
    ensures RemoveWhitespace(s) == (if IsPySpace(s[0]) then [] else [s[0]]) + RemoveWhitespace(s[1..])
  {
  }

  /** Every character other than whitespace is kept as often as it occurs. */
  lemma {:induction false} RemoveWhitespaceCounts(s: string)
    ensures forall c :: !IsPySpace(c) ==> multiset(RemoveWhitespace(s))[c] == multiset(s)[c]
  {
    if s != [] {
      RemoveWhitespaceCounts(s[1..]);
      assert s == [s[0]] + s[1..];
    }
  }

  lemma RemoveWhitespaceChar(c: char)
    ensures RemoveWhitespace([c]) == if IsPySpace(c) then [] else [c]
  {
    assert [c][1..] == [];
  }

  /** The same for the removal of blanks and newlines. */
  lemma {:induction false} RemoveBlanksAndNewlinesConcat(s: string, t: string)
    ensures RemoveBlanksAndNewlines(s + t) == RemoveBlanksAndNewlines(s) + RemoveBlanksAndNewlines(t)
  {
    if s != [] {
      RemoveBlanksAndNewlinesConcat(s[1..], t);
      var st := s + t;
      assert st[0] == s[0] && st[1..] == s[1..] + t;
      if s[0] == ' ' || s[0] == '\n' {
        assert RemoveBlanksAndNewlines(st) == RemoveBlanksAndNewlines(s[1..] + t);
      } else {
        assert RemoveBlanksAndNewlines(st) == [s[0]] + RemoveBlanksAndNewlines(s[1..] + t);
        assert RemoveBlanksAndNewlines(s) == [s[0]] + RemoveBlanksAndNewlines(s[1..]);
      }
    } else {
      assert s + t == t;
    }
  }

  /** Every character other than a blank or a newline is kept as often as it occurs. */
  lemma {:induction false} RemoveBlanksAndNewlinesCounts(s: string)
    ensures forall c :: c != ' ' && c != '\n' ==> multiset(RemoveBlanksAndNewlines(s))[c] == multiset(s)[c]
  {
    if s != [] {
      RemoveBlanksAndNewlinesCounts(s[1..]);
      assert s == [s[0]] + s[1..];
    }
  }

  lemma RemoveBlanksAndNewlinesChar(c: char)
    ensures RemoveBlanksAndNewlines([c]) == if c == ' ' || c == '\n' then [] else [c]
  {
    assert [c][1..] == [];
  }

  /** Characters the stem pattern `[^0-9a-zA-Z]` leaves alone. */
  predicate IsStemChar(c: char)
  {
    '0' <= c <= '9' || 'a' <= c <= 'z' || 'A' <= c <= 'Z'
  }

  /**
   * The regular-expression substitution of factory.py: every character
   * outside `[0-9a-zA-Z]` is replaced by one underscore.
   */
  function Sanitise(s: string): (r: string)
    ensures |r| == |s|
    ensures forall i :: 0 <= i < |r| ==> IsStemChar(r[i]) || r[i] == '_'
    ensures forall i :: 0 <= i < |s| && IsStemChar(s[i]) ==> r[i] == s[i]
    ensures forall i :: 0 <= i < |s| && !IsStemChar(s[i]) ==> r[i] == '_'
  {
    if s == [] then []
    else [if IsStemChar(s[0]) then s[0] else '_'] + Sanitise(s[1..])
  }

  /** Sanitising a stem a second time changes nothing. */
  lemma {:induction false} SanitiseIdempotent(s: string)
    ensures Sanitise(Sanitise(s)) == Sanitise(s)
  {
    if s != [] {
      SanitiseIdempotent(s[1..]);
      assert Sanitise(s)[1..] == Sanitise(s[1..]);
    }
  }

  predicate IsDigit(c: char)
  {
    '0' <= c <= '9'
  }

  function DigitChar(d: nat): (c: char)
    requires d < 10
    ensures IsDigit(c)
  {
    "0123456789"[d]
  }

  function DigitValue(c: char): (d: nat)
    requires IsDigit(c)
    ensures d < 10
  {
    (c as int - '0' as int) as nat
  }

  /** Decimal notation of a natural number, without leading zeros. */
  function NatToString(n: nat): (r: string)
    ensures |r| >= 1
    ensures forall i :: 0 <= i < |r| ==> IsDigit(r[i])
    ensures |r| > 1 ==> r[0] != '0'
    decreases n
  {
    if n < 10 then [DigitChar(n)] else NatToString(n / 10) + [DigitChar(n % 10)]
  }

  /** The value of a string of decimal digits. */
  function DigitsValue(s: string): nat
    requires forall i :: 0 <= i < |s| ==> IsDigit(s[i])
  {
    if s == [] then 0 else DigitsValue(s[..|s| - 1]) * 10 + DigitValue(s[|s| - 1])
  }

  /** Reading back the decimal notation gives the number. */
  lemma {:induction false} NatToStringRoundTrip(n: nat)
    ensures DigitsValue(NatToString(n)) == n
    decreases n
  {
    var r := NatToString(n);
    if n < 10 {
      assert r[..|r| - 1] == [];
    } else {
      NatToStringRoundTrip(n / 10);
      assert r[..|r| - 1] == NatToString(n / 10);
    }
  }

  /** Python's `"%d" % i`. */
  function IntToString(i: int): (r: string)
    ensures |r| >= 1
    ensures i < 0 <==> r[0] == '-'
    ensures forall k :: 0 <= k < |r| ==> IsDigit(r[k]) || r[k] == '-'
  {
    if i < 0 then "-" + NatToString(-i) else NatToString(i)
  }

  /** The text of an integer reads back into its sign and its magnitude. */
  lemma IntToStringRoundTrip(i: int)
    ensures i >= 0 ==> DigitsValue(IntToString(i)) == i
    ensures i < 0 ==> IntToString(i)[1..] == NatToString(-i) && DigitsValue(IntToString(i)[1..]) == -i
  {
    if i >= 0 {
      NatToStringRoundTrip(i);
    } else {
      assert IntToString(i)[1..] == NatToString(-i);
      NatToStringRoundTrip(-i);
    }
  }

  /** Sage's `ordinal_str`: 1st, 2nd, 3rd, 4th, ..., 11th, 12th, 13th, ..., 21st. */
  function Ordinal(n: nat): (r: string)
    ensures |r| > 2
    ensures r[..|r| - 2] == NatToString(n)
    ensures n % 100 in {11, 12, 13} ==> r[|r| - 2..] == "th"
  {
    var suffix :=
      if n % 100 in {11, 12, 13} then "th"
      else if n % 10 == 1 then "st"
      else if n % 10 == 2 then "nd"
      else if n % 10 == 3 then "rd"
      else "th";
    NatToString(n) + suffix
  }

  /** A remote source URL is normalised to end with a slash. */
  function WithTrailingSlash(url: string): (r: string)
    ensures |r| > 0 && r[|r| - 1] == '/'
    ensures |url| > 0 && url[|url| - 1] == '/' ==> r == url
    ensures IsPrefix(url, r) && |r| <= |url| + 1
  {
    if |url| > 0 && url[|url| - 1] == '/' then url else url + "/"
  }

  predicate IsPrefix(a: string, b: string)
  {
    |a| <= |b| && b[..|a|] == a
  }
}
