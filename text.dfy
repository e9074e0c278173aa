/**
 * The string operations the screens and the numbering rely on: ASCII
 * lower-casing, `includes`, `trim`, `padStart`, `split('-')[1]`, the
 * leading-digit part of `parseInt`, decimal rendering of naturals and
 * the `", "` join.
 */
module Text {

  // ---------------------------------------------------------------------
  // Case folding and substring search
  // ---------------------------------------------------------------------

  /** Lower-cases an ASCII capital; every other character is kept. */
  function LowerChar(c: char): char {
    if 'A' <= c <= 'Z' then (c as int + 32) as char else c
  }

  /** `s.toLowerCase()`, restricted to ASCII letters. */
  function Lower(s: string): string {
    seq(|s|, i requires 0 <= i < |s| => LowerChar(s[i]))
  }

  /** `s.includes(term)`: `term` occurs at some position of `s`. */
  predicate Includes(s: string, term: string)
    decreases |s|
  {
    term <= s || (|s| > 0 && Includes(s[1..], term))
  }

  /** Case-insensitive search as the screens write it:
    * `field.toLowerCase().includes(term.toLowerCase())`. */
  predicate MatchesIgnoringCase(field: string, term: string) {
    Includes(Lower(field), Lower(term))
  }

  /** `term` starts at position `i` of `s`. */
  predicate OccursAt(s: string, term: string, i: int) {
    0 <= i && i + |term| <= |s| && s[i..i + |term|] == term
  }

  /** `Includes` holds exactly when `term` starts at some position of `s`. */
  lemma {:induction false} IncludesIffOccurs(s: string, term: string)
    ensures Includes(s, term) <==> exists i :: OccursAt(s, term, i)
    decreases |s|
  {
    if term <= s {
      assert OccursAt(s, term, 0);
    } else {
      assert !OccursAt(s, term, 0);
      if |s| > 0 {
        IncludesIffOccurs(s[1..], term);
        forall i | 1 <= i ensures OccursAt(s, term, i) <==> OccursAt(s[1..], term, i - 1) {
          if i + |term| <= |s| {
            assert s[1..][i - 1..i - 1 + |term|] == s[i..i + |term|];
          }
        }
        if exists i :: OccursAt(s, term, i) {
          var i :| OccursAt(s, term, i);
          assert OccursAt(s[1..], term, i - 1);
        }
        if exists j :: OccursAt(s[1..], term, j) {
          var j :| OccursAt(s[1..], term, j);
          assert OccursAt(s, term, j + 1);
        }
      }
    }
  }

  /** The empty search term matches every field, as `includes('')` does. */
  lemma EmptyTermMatchesEverything(field: string)
    ensures MatchesIgnoringCase(field, "")
  {
  }

  lemma PrefixOfConcat(a: string, b: string)
    ensures a <= a + b
  {
  }

  lemma ConcatAssoc(a: string, b: string, c: string)
    ensures a + (b + c) == (a + b) + c
  {
  }

  // ---------------------------------------------------------------------
  // Whitespace
  // ---------------------------------------------------------------------

  /** The characters `String.prototype.trim` removes that this model knows of. */
  predicate IsSpace(c: char) {
    c == ' ' || c == '\t' || c == '\n' || c == '\r' || c == '\U{0B}' || c == '\U{0C}' ||
    c == '\U{A0}' || c == '\U{FEFF}' || c == '\U{2028}' || c == '\U{2029}'
  }

  function TrimStart(s: string): string
    decreases |s|
  {
    if s != [] && IsSpace(s[0]) then TrimStart(s[1..]) else s
  }

  function TrimEnd(s: string): string
    decreases |s|
  {
    if s != [] && IsSpace(s[|s| - 1]) then TrimEnd(s[..|s| - 1]) else s
  }

  /** `s.trim()` */
  function Trim(s: string): string {
    TrimEnd(TrimStart(s))
  }

  predicate AllSpace(s: string) {
    forall i :: 0 <= i < |s| ==> IsSpace(s[i])
  }

  lemma {:induction false} TrimStartEmptyIff(s: string)
    ensures TrimStart(s) == [] <==> AllSpace(s)
    decreases |s|
  {
    if s != [] && IsSpace(s[0]) {
      TrimStartEmptyIff(s[1..]);
      assert AllSpace(s) <==> AllSpace(s[1..]) by {
        if AllSpace(s[1..]) {
          forall i | 0 <= i < |s| ensures IsSpace(s[i]) {
            if i > 0 { assert s[i] == s[1..][i - 1]; }
          }
        }
      }
    } else if s != [] {
      assert !IsSpace(s[0]);
    }
  }

  lemma {:induction false} TrimEndKeepsNonSpaceHead(s: string)
    requires s != [] && !IsSpace(s[0])
    ensures TrimEnd(s) != []
    decreases |s|
  {
    if IsSpace(s[|s| - 1]) {
      TrimEndKeepsNonSpaceHead(s[..|s| - 1]);
    }
  }

  /** `s.trim() === ''` exactly when `s` holds nothing but whitespace. */
  lemma TrimEmptyIffAllSpace(s: string)
    ensures Trim(s) == [] <==> AllSpace(s)
  {
    TrimStartEmptyIff(s);
    var t := TrimStart(s);
    if t != [] {
      TrimStartHead(s);
      TrimEndKeepsNonSpaceHead(t);
    }
  }

  lemma {:induction false} TrimStartHead(s: string)
    requires TrimStart(s) != []
    ensures !IsSpace(TrimStart(s)[0])
    decreases |s|
  {
    if s != [] && IsSpace(s[0]) {
      TrimStartHead(s[1..]);
    }
  }

  // ---------------------------------------------------------------------
  // Decimal digits
  // ---------------------------------------------------------------------

  predicate IsDigit(c: char) {
    '0' <= c <= '9'
  }

  predicate AllDigits(s: string) {
    forall i :: 0 <= i < |s| ==> IsDigit(s[i])
  }

  function DigitChar(d: nat): (c: char)
    requires d < 10
    ensures IsDigit(c)
  {
    ('0' as int + d) as char
  }

  function DigitValue(c: char): (d: nat)
    requires IsDigit(c)
    ensures d < 10
  {
    c as int - '0' as int
  }

  /** `n.toString()` for a natural number. */
  function NatToDigits(n: nat): (s: string)
    ensures |s| >= 1 && AllDigits(s)
    decreases n
  {
    if n < 10 then [DigitChar(n)] else NatToDigits(n / 10) + [DigitChar(n % 10)]
  }

  /** The value of a string of decimal digits, read left to right. */
  function DigitsToNat(s: string): nat
    requires AllDigits(s)
    decreases |s|
  {
    if s == [] then 0 else DigitsToNat(s[..|s| - 1]) * 10 + DigitValue(s[|s| - 1])
  }

  /** Reading back what `NatToDigits` wrote gives the number again. */
  lemma {:induction false} DigitsRoundTrip(n: nat)
    ensures DigitsToNat(NatToDigits(n)) == n
    decreases n
  {
    if n >= 10 {
      DigitsRoundTrip(n / 10);
      var s := NatToDigits(n);
      assert s[..|s| - 1] == NatToDigits(n / 10);
    }
  }

  /** A leading zero does not change the value of a digit string. */
  lemma {:induction false} LeadingZeroIgnored(s: string)
    requires AllDigits(s)
    ensures AllDigits("0" + s) && DigitsToNat("0" + s) == DigitsToNat(s)
    decreases |s|
  {
    var z := "0" + s;
    assert AllDigits(z) by {
      forall i | 0 <= i < |z| ensures IsDigit(z[i]) {
        if i > 0 { assert z[i] == s[i - 1]; }
      }
    }
    if s != [] {
      var p := s[..|s| - 1];
      LeadingZeroIgnored(p);
      assert z[..|z| - 1] == "0" + p;
    }
  }

  /** `n` characters `c`. */
  function Repeat(c: char, n: nat): (r: string)
    ensures |r| == n && forall i :: 0 <= i < n ==> r[i] == c
  {
    seq(n, _ => c)
  }

  lemma {:induction false} LeadingZerosIgnored(k: nat, s: string)
    requires AllDigits(s)
    ensures AllDigits(Repeat('0', k) + s) && DigitsToNat(Repeat('0', k) + s) == DigitsToNat(s)
    decreases k
  {
    if k > 0 {
      LeadingZerosIgnored(k - 1, s);
      var t := Repeat('0', k - 1) + s;
      LeadingZeroIgnored(t);
      assert Repeat('0', k) == "0" + Repeat('0', k - 1);
      assert Repeat('0', k) + s == "0" + t;
    } else {
      assert Repeat('0', k) + s == s;
    }
  }

  /** `s.padStart(width, c)`: left-pads with `c` up to `width` characters and
    * never shortens `s`. */
  function PadStart(s: string, width: nat, c: char): (r: string)
    ensures |r| == if |s| >= width then |s| else width
    ensures s <= r[|r| - |s|..] && r[|r| - |s|..] == s
    ensures forall i :: 0 <= i < |r| - |s| ==> r[i] == c
  {
    if |s| >= width then s else Repeat(c, width - |s|) + s
  }

  /** The longest prefix of `s` made of decimal digits. */
  function LeadingDigits(s: string): (d: string)
    ensures d <= s && AllDigits(d)
    decreases |s|
  {
    if s != [] && IsDigit(s[0]) then [s[0]] + LeadingDigits(s[1..]) else []
  }

  lemma {:induction false} LeadingDigitsOfDigits(s: string)
    requires AllDigits(s)
    ensures LeadingDigits(s) == s
    decreases |s|
  {
    if s != [] {
      LeadingDigitsOfDigits(s[1..]);
    }
  }

  datatype Option<+T> = None | Some(value: T)

  /** `parseInt(segment)` where the segment holds no sign and no leading
    * blanks: the value of the leading digits, or `None` (JavaScript's `NaN`)
    * when there are none. */
  function ParseLeadingInt(s: string): (r: Option<nat>)
    ensures r.None? <==> (s == [] || !IsDigit(s[0]))
  {
    var d := LeadingDigits(s);
    if d == [] then None else Some(DigitsToNat(d))
  }

  // ---------------------------------------------------------------------
  // split('-')
  // ---------------------------------------------------------------------

  /** What follows the first `-`, or `None` when there is no `-`. */
  function AfterFirstDash(s: string): Option<string>
    decreases |s|
  {
    if s == [] then None else if s[0] == '-' then Some(s[1..]) else AfterFirstDash(s[1..])
  }

  /** The text before the first `-` (all of `s` when it has none). */
  function UpToDash(s: string): (r: string)
    ensures r <= s && '-' !in r
    decreases |s|
  {
    if s == [] || s[0] == '-' then [] else [s[0]] + UpToDash(s[1..])
  }

  /** `s.split('-')[1]`: the segment between the first and the second `-`,
    * `None` (JavaScript's `undefined`) when `s` has no `-`. */
  function SecondSegment(s: string): Option<string> {
    match AfterFirstDash(s)
    case None => None
    case Some(rest) => Some(UpToDash(rest))
  }

  lemma {:induction false} AfterFirstDashOfJoin(p: string, q: string)
    requires '-' !in p
    ensures AfterFirstDash(p + "-" + q) == Some(q)
    decreases |p|
  {
    if p != [] {
      assert (p + "-" + q)[1..] == p[1..] + "-" + q;
      AfterFirstDashOfJoin(p[1..], q);
    } else {
      assert p + "-" + q == "-" + q;
    }
  }

  /** A string without `-` has nothing after a first `-`. */
  lemma {:induction false} AfterFirstDashNone(s: string)
    requires '-' !in s
    ensures AfterFirstDash(s) == None
    decreases |s|
  {
    if s != [] {
      AfterFirstDashNone(s[1..]);
    }
  }

  lemma {:induction false} UpToDashOfDashFree(s: string)
    requires '-' !in s
    ensures UpToDash(s) == s
    decreases |s|
  {
    if s != [] {
      UpToDashOfDashFree(s[1..]);
    }
  }

  /** The segment after the first `-` of `p-q` is `q` when neither part has a `-`. */
  lemma SecondSegmentOfJoin(p: string, q: string)
    requires '-' !in p && '-' !in q
    ensures SecondSegment(p + "-" + q) == Some(q)
  {
    AfterFirstDashOfJoin(p, q);
    UpToDashOfDashFree(q);
  }

  // ---------------------------------------------------------------------
  // join(', ')
  // ---------------------------------------------------------------------

  /** `parts.join(', ')` */
  function JoinComma(parts: seq<string>): string {
    if parts == [] then ""
    else if |parts| == 1 then parts[0]
    else parts[0] + ", " + JoinComma(parts[1..])
  }
}
