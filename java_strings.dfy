/**
 * The java.lang.String operations the core relies on: `trim`, `toUpperCase`
 * and `equalsIgnoreCase` (as far as they concern ASCII letters), `startsWith`.
 */
module JavaStrings {

  /** `String.trim` removes every character whose code is at most U+0020. */
  predicate IsTrimmable(c: char) { c <= ' ' }

  predicate AllTrimmable(s: string) {
    forall i :: 0 <= i < |s| ==> IsTrimmable(s[i])
  }

  function TrimStart(s: string): string {
    if |s| > 0 && IsTrimmable(s[0]) then TrimStart(s[1..]) else s
  }

  function TrimEnd(s: string): string {
    if |s| > 0 && IsTrimmable(s[|s| - 1]) then TrimEnd(s[..|s| - 1]) else s
  }

  /** `String.trim`. */
  function Trim(s: string): string { TrimEnd(TrimStart(s)) }

  /**
   * `Character.toUpperCase` wherever it yields an ASCII capital: a-z, the
   * dotless i (U+0131) to I and the long s (U+017F) to S. Every other
   * character is kept as it is.
   */
  function UpperChar(c: char): char {
    if 'a' <= c <= 'z' then (c as int - 32) as char
    else if c == '\U{0131}' then 'I'
    else if c == '\U{017F}' then 'S'
    else c
  }

  /**
   * `Character.toLowerCase` wherever it yields an ASCII small letter: A-Z, the
   * dotted capital I (U+0130) to i and the Kelvin sign (U+212A) to k.
   */
  function LowerChar(c: char): char {
    if 'A' <= c <= 'Z' then (c as int + 32) as char
    else if c == '\U{0130}' then 'i'
    else if c == '\U{212A}' then 'k'
    else c
  }

  /** `String.toUpperCase`, character by character, as `UpperChar` describes it. */
  function ToUpper(s: string): string {
    seq(|s|, i requires 0 <= i < |s| => UpperChar(s[i]))
  }

  /** `String.startsWith` (also JavaScript's, which is the same test). */
  predicate StartsWith(s: string, prefix: string) {
    |prefix| <= |s| && s[..|prefix|] == prefix
  }

  /**
   * The character test of `String.equalsIgnoreCase`: equal, equal capitals, or
   * equal small letters of the capitals.
   */
  predicate SameIgnoringCase(a: char, b: char) {
    a == b || UpperChar(a) == UpperChar(b) || LowerChar(UpperChar(a)) == LowerChar(UpperChar(b))
  }

  /** The small letter of the capital: the last alternative of the character test. */
  function FoldChar(c: char): char {
    LowerChar(UpperChar(c))
  }

  function FoldCase(s: string): string {
    seq(|s|, i requires 0 <= i < |s| => FoldChar(s[i]))
  }

  /** `String.equalsIgnoreCase`, stated through the folded texts (see `EqualsIgnoreCaseCharwise`). */
  predicate EqualsIgnoreCase(a: string, b: string) {
    FoldCase(a) == FoldCase(b)
  }

  /** The last alternative of the character test holds whenever either of the others does. */
  lemma SameIgnoringCaseIsFold(a: char, b: char)
    ensures SameIgnoringCase(a, b) <==> FoldChar(a) == FoldChar(b)
  {
  }

  /** `EqualsIgnoreCase` is the character test at every position of two texts of equal length. */
  lemma EqualsIgnoreCaseCharwise(a: string, b: string)
    ensures EqualsIgnoreCase(a, b) <==> |a| == |b| && forall i :: 0 <= i < |a| ==> SameIgnoringCase(a[i], b[i])
  {
    if |a| == |b| && forall i :: 0 <= i < |a| ==> SameIgnoringCase(a[i], b[i]) {
      forall i | 0 <= i < |a| ensures FoldCase(a)[i] == FoldCase(b)[i] {
        SameIgnoringCaseIsFold(a[i], b[i]);
      }
    }
    if EqualsIgnoreCase(a, b) {
      forall i | 0 <= i < |a| ensures SameIgnoringCase(a[i], b[i]) {
        assert FoldCase(a)[i] == FoldCase(b)[i];
      }
    }
  }

  lemma {:induction false} TrimStartShape(s: string)
    ensures |TrimStart(s)| <= |s|
    ensures TrimStart(s) == s[|s| - |TrimStart(s)|..]
    ensures AllTrimmable(s[..|s| - |TrimStart(s)|])
    ensures |TrimStart(s)| > 0 ==> !IsTrimmable(TrimStart(s)[0])
  {
    if |s| > 0 && IsTrimmable(s[0]) {
      TrimStartShape(s[1..]);
      var n := |s| - |TrimStart(s)|;
      assert s[..n] == [s[0]] + s[1..][..n - 1];
    }
  }

  lemma {:induction false} TrimEndShape(s: string)
    ensures |TrimEnd(s)| <= |s|
    ensures TrimEnd(s) == s[..|TrimEnd(s)|]
    ensures AllTrimmable(s[|TrimEnd(s)|..])
    ensures |TrimEnd(s)| > 0 ==> !IsTrimmable(TrimEnd(s)[|TrimEnd(s)| - 1])
  {
    if |s| > 0 && IsTrimmable(s[|s| - 1]) {
      var p := s[..|s| - 1];
      TrimEndShape(p);
      var n := |TrimEnd(s)|;
      assert s[n..] == p[n..] + [s[|s| - 1]];
    }
  }

  /**
   * What `trim` returns: the stretch of `s` left after removing a run of
   * characters at most U+0020 from each end; what remains starts and ends
   * with a character above U+0020, or is empty.
   */
  lemma TrimIsInfix(s: string)
    ensures exists i, j :: 0 <= i <= j <= |s| && Trim(s) == s[i..j]
                           && AllTrimmable(s[..i]) && AllTrimmable(s[j..])
    ensures |Trim(s)| > 0 ==> !IsTrimmable(Trim(s)[0]) && !IsTrimmable(Trim(s)[|Trim(s)| - 1])
  {
    TrimStartShape(s);
    var t := TrimStart(s);
    var i := |s| - |t|;
    TrimEndShape(t);
    var j := i + |Trim(s)|;
    assert Trim(s) == s[i..j];
    assert s[j..] == t[|Trim(s)|..];
  }

  /** Leading characters at most U+0020 never change the result of `trim`. */
  lemma {:induction false} TrimSkipsLeading(w: string, s: string)
    requires AllTrimmable(w)
    ensures Trim(w + s) == Trim(s)
  {
    TrimStartSkipsLeading(w, s);
  }

  lemma {:induction false} TrimStartSkipsLeading(w: string, s: string)
    requires AllTrimmable(w)
    ensures TrimStart(w + s) == TrimStart(s)
  {
    if w != [] {
      assert (w + s)[0] == w[0];
      assert (w + s)[1..] == w[1..] + s;
      TrimStartSkipsLeading(w[1..], s);
    } else {
      assert w + s == s;
    }
  }

  /** `trim` is idempotent. */
  lemma TrimIdempotent(s: string)
    ensures Trim(Trim(s)) == Trim(s)
  {
    TrimIsInfix(s);
    var t := Trim(s);
    if |t| > 0 {
      assert TrimStart(t) == t;
      assert TrimEnd(t) == t;
    }
  }

  /** If `trim` leaves some character, the trimmed text starts at the first character above U+0020. */
  lemma {:induction false} TrimStartAt(s: string, i: nat)
    requires i < |s| && AllTrimmable(s[..i]) && !IsTrimmable(s[i])
    ensures TrimStart(s) == s[i..]
  {
    if i > 0 {
      assert IsTrimmable(s[..i][0]);
      assert s[1..][..i - 1] == s[..i][1..];
      TrimStartAt(s[1..], i - 1);
      assert s[1..][i - 1..] == s[i..];
    }
  }

  /** A run of characters at most U+0020 that is not empty begins with such a character. */
  lemma LeadingRun(s: string, i: nat)
    requires i <= |s| && AllTrimmable(s[..i])
    ensures i == 0 || IsTrimmable(s[0])
  {
    if i > 0 {
      assert s[..i][0] == s[0];
    }
  }

  /** Trimming the end never removes a character above U+0020, nor anything before it. */
  lemma {:induction false} TrimEndKeeps(s: string, k: nat)
    requires k < |s| && !IsTrimmable(s[k])
    ensures k < |TrimEnd(s)|
  {
    if |s| > 0 && IsTrimmable(s[|s| - 1]) {
      TrimEndKeeps(s[..|s| - 1], k);
    }
  }

  /** Uppercasing keeps the length and commutes with taking a slice. */
  lemma ToUpperSlice(s: string, i: nat, j: nat)
    requires i <= j <= |s|
    ensures ToUpper(s[i..j]) == ToUpper(s)[i..j]
  {
  }
}
