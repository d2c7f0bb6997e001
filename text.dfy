/** String helpers shared by the router, the profile assembly and the
    renderers: substring search, suffix test, ASCII lower-casing, JavaScript's
    `trim`, `slice(0, n)` and decimal rendering of numbers. */
module Text {

  // ---------------------------------------------------------------------------
  // Substring search
  // ---------------------------------------------------------------------------

  /** `t` sits in `s` at index `p`. */
  ghost predicate OccursAt(s: string, t: string, p: int)
  {
    0 <= p && p + |t| <= |s| && s[p..p + |t|] == t
  }

  /** `t[k..]` matches `s` at index `i + k` (compared character by character). */
  predicate MatchesAt(s: string, t: string, i: nat, k: nat)
    requires i + |t| <= |s| && k <= |t|
    decreases |t| - k
  {
    k == |t| || (s[i + k] == t[k] && MatchesAt(s, t, i, k + 1))
  }

  /** `t` occurs in `s` at some index `i` or later. */
  predicate OccursFrom(s: string, t: string, i: nat)
    decreases |s| + 1 - i
  {
    i + |t| <= |s| && (MatchesAt(s, t, i, 0) || OccursFrom(s, t, i + 1))
  }

  /** `t` is a substring of `s` (what an unanchored regular expression made of
      one literal alternative tests). */
  predicate Contains(s: string, t: string)
  {
    OccursFrom(s, t, 0)
  }

  /** Some word of `ws` is a substring of `s`: an alternation `/a|b|c/`. */
  predicate ContainsAny(s: string, ws: seq<string>)
  {
    |ws| > 0 && (Contains(s, ws[0]) || ContainsAny(s, ws[1..]))
  }

  predicate EndsWith(s: string, suffix: string)
  {
    |suffix| <= |s| && s[|s| - |suffix|..] == suffix
  }

  predicate EndsWithAny(s: string, suffixes: seq<string>)
  {
    |suffixes| > 0 && (EndsWith(s, suffixes[0]) || EndsWithAny(s, suffixes[1..]))
  }

  lemma {:induction false} MatchesAtIff(s: string, t: string, i: nat, k: nat)
    requires i + |t| <= |s| && k <= |t|
    ensures MatchesAt(s, t, i, k) <==> s[i + k..i + |t|] == t[k..]
    decreases |t| - k
  {
    if k < |t| {
      MatchesAtIff(s, t, i, k + 1);
      assert s[i + k..i + |t|] == [s[i + k]] + s[i + k + 1..i + |t|];
      assert t[k..] == [t[k]] + t[k + 1..];
    }
  }

  lemma {:induction false} OccursFromIff(s: string, t: string, i: nat)
    ensures OccursFrom(s, t, i) <==> exists p :: i <= p && OccursAt(s, t, p)
    decreases |s| + 1 - i
  {
    if i + |t| <= |s| {
      MatchesAtIff(s, t, i, 0);
      OccursFromIff(s, t, i + 1);
      if OccursFrom(s, t, i) {
        if MatchesAt(s, t, i, 0) {
          assert OccursAt(s, t, i);
        }
      }
      if exists p :: i <= p && OccursAt(s, t, p) {
        var p :| i <= p && OccursAt(s, t, p);
        if p == i {
          assert MatchesAt(s, t, i, 0);
        } else {
          assert i + 1 <= p;
        }
      }
    }
  }

  /** `Contains` is exactly "there is an index where `t` sits in `s`". */
  lemma ContainsIff(s: string, t: string)
    ensures Contains(s, t) <==> exists p :: OccursAt(s, t, p)
  {
    OccursFromIff(s, t, 0);
  }

  lemma ContainsAtIndex(s: string, t: string, p: int)
    requires OccursAt(s, t, p)
    ensures Contains(s, t)
  {
    ContainsIff(s, t);
  }

  /** Substring is transitive: whatever contains "explain why" contains "explain". */
  lemma ContainsTransitive(s: string, t: string, u: string)
    requires Contains(s, t) && Contains(t, u)
    ensures Contains(s, u)
  {
    ContainsIff(s, t);
    ContainsIff(t, u);
    var p :| OccursAt(s, t, p);
    var q :| OccursAt(t, u, q);
    forall k | 0 <= k < |u| ensures s[p + q + k] == u[k] {
      assert t[q + k] == u[k];
      assert s[p..p + |t|][q + k] == s[p + q + k];
    }
    assert s[p + q..p + q + |u|] == u;
    assert OccursAt(s, u, p + q);
    ContainsIff(s, u);
  }

  /** A word that does not contain the character `x` cannot straddle an `x`:
      an occurrence in `a + [x] + b` lies wholly in `a` or wholly in `b`. */
  lemma ContainsSplit(a: string, x: char, b: string, t: string)
    requires x !in t
    requires Contains(a + [x] + b, t)
    ensures Contains(a, t) || Contains(b, t)
  {
    var s := a + [x] + b;
    ContainsIff(s, t);
    var p :| OccursAt(s, t, p);
    assert s[|a|] == x;
    assert forall k :: p <= k < p + |t| ==> s[k] == t[k - p] by {
      forall k | p <= k < p + |t| ensures s[k] == t[k - p] {
        assert s[p..p + |t|][k - p] == s[k];
      }
    }
    if p + |t| <= |a| {
      assert a[p..p + |t|] == s[p..p + |t|];
      ContainsAtIndex(a, t, p);
    } else if p > |a| {
      assert b[p - |a| - 1..p - |a| - 1 + |t|] == s[p..p + |t|];
      ContainsAtIndex(b, t, p - |a| - 1);
    }
  }

  /** Containing any one of the words is enough for `ContainsAny`. */
  lemma {:induction false} ContainsAnyMember(s: string, ws: seq<string>, k: nat)
    requires k < |ws| && Contains(s, ws[k])
    ensures ContainsAny(s, ws)
    decreases k
  {
    if k > 0 {
      assert ws[1..][k - 1] == ws[k];
      ContainsAnyMember(s, ws[1..], k - 1);
    }
  }

  lemma {:induction false} ContainsAnySplit(a: string, x: char, b: string, ws: seq<string>)
    requires forall i :: 0 <= i < |ws| ==> x !in ws[i]
    requires ContainsAny(a + [x] + b, ws)
    ensures ContainsAny(a, ws) || ContainsAny(b, ws)
  {
    if Contains(a + [x] + b, ws[0]) {
      ContainsSplit(a, x, b, ws[0]);
    } else {
      ContainsAnySplit(a, x, b, ws[1..]);
    }
  }

  // ---------------------------------------------------------------------------
  // Array join
  // ---------------------------------------------------------------------------

  /** `parts.join(sep)`. */
  function Join(parts: seq<string>, sep: string): string
    decreases |parts|
  {
    if parts == [] then ""
    else if |parts| == 1 then parts[0]
    else parts[0] + sep + Join(parts[1..], sep)
  }

  /** The joined text starts with the first part. */
  lemma JoinHead(parts: seq<string>, sep: string)
    requires parts != []
    ensures parts[0] <= Join(parts, sep)
  {
  }

  /** Joining one more part appends the separator and that part. */
  lemma {:induction false} JoinAppend(parts: seq<string>, p: string, sep: string)
    requires parts != []
    ensures Join(parts + [p], sep) == Join(parts, sep) + sep + p
    decreases |parts|
  {
    var ps := parts + [p];
    assert ps[0] == parts[0] && ps[1..] == parts[1..] + [p];
    if |parts| == 1 {
      assert ps[1..] == [p];
    } else {
      JoinAppend(parts[1..], p, sep);
      calc {
        Join(ps, sep);
        parts[0] + sep + Join(parts[1..] + [p], sep);
        parts[0] + sep + (Join(parts[1..], sep) + sep + p);
        (parts[0] + sep + Join(parts[1..], sep)) + sep + p;
      }
    }
  }

  /** With a one-character separator that none of the words contains, a word
      found in the joined text is found inside a single part. */
  lemma {:induction false} ContainsAnyJoin(parts: seq<string>, x: char, ws: seq<string>)
    requires parts != []
    requires forall i :: 0 <= i < |ws| ==> x !in ws[i]
    requires ContainsAny(Join(parts, [x]), ws)
    ensures exists i :: 0 <= i < |parts| && ContainsAny(parts[i], ws)
    decreases |parts|
  {
    if |parts| == 1 {
      assert ContainsAny(parts[0], ws);
    } else {
      var rest := Join(parts[1..], [x]);
      ContainsAnySplit(parts[0], x, rest, ws);
      if ContainsAny(parts[0], ws) {
        assert ContainsAny(parts[0], ws);
      } else {
        ContainsAnyJoin(parts[1..], x, ws);
        var i :| 0 <= i < |parts[1..]| && ContainsAny(parts[1..][i], ws);
        assert parts[1..][i] == parts[i + 1];
      }
    }
  }

  // ---------------------------------------------------------------------------
  // Characters
  // ---------------------------------------------------------------------------

  predicate IsUpper(c: char) { 'A' <= c <= 'Z' }

  predicate IsAlnum(c: char)
  {
    ('a' <= c <= 'z') || IsUpper(c) || ('0' <= c <= '9')
  }

  /** The JavaScript white-space and line-terminator characters, which both
      `String.prototype.trim` and the regular-expression class `\s` remove or
      match. */
  predicate IsSpace(c: char)
  {
    c == ' ' || c == '\t' || c == '\n' || c == '\r' || c == '\U{000B}' || c == '\U{000C}'
    || c == '\U{00A0}' || c == '\U{1680}' || ('\U{2000}' <= c <= '\U{200A}')
    || c == '\U{2028}' || c == '\U{2029}' || c == '\U{202F}' || c == '\U{205F}'
    || c == '\U{3000}' || c == '\U{FEFF}'
  }

  /** The characters a regular-expression `.` does not match. */
  predicate IsLineTerminator(c: char)
  {
    c == '\n' || c == '\r' || c == '\U{2028}' || c == '\U{2029}'
  }

  function LowerChar(c: char): (d: char)
    ensures !IsUpper(d)
    ensures IsUpper(c) ==> d as int == c as int + 32
    ensures !IsUpper(c) ==> d == c
  {
    if IsUpper(c) then (c as int + 32) as char else c
  }

  /** `toLowerCase`, on the ASCII letters. */
  function ToLower(s: string): (r: string)
  {
    seq(|s|, i requires 0 <= i < |s| => LowerChar(s[i]))
  }

  lemma ToLowerIdempotent(s: string)
    ensures ToLower(ToLower(s)) == ToLower(s)
  {
  }

  lemma ToLowerConcat(a: string, b: string)
    ensures ToLower(a + b) == ToLower(a) + ToLower(b)
  {
  }

  /** A string without upper-case letters is its own lower-case form. */
  lemma ToLowerNoUpper(s: string)
    requires forall c :: c in s ==> !IsUpper(c)
    ensures ToLower(s) == s
  {
    forall i | 0 <= i < |s| ensures ToLower(s)[i] == s[i] {
      assert s[i] in s;
    }
  }

  // ---------------------------------------------------------------------------
  // trim
  // ---------------------------------------------------------------------------

  function TrimStart(s: string): (r: string)
    decreases |s|
  {
    if |s| > 0 && IsSpace(s[0]) then TrimStart(s[1..]) else s
  }

  function TrimEnd(s: string): (r: string)
    decreases |s|
  {
    if |s| > 0 && IsSpace(s[|s| - 1]) then TrimEnd(s[..|s| - 1]) else s
  }

  /** `String.prototype.trim`. */
  function Trim(s: string): string
  {
    TrimEnd(TrimStart(s))
  }

  ghost predicate AllSpace(s: string)
  {
    forall i :: 0 <= i < |s| ==> IsSpace(s[i])
  }

  lemma {:induction false} TrimStartShape(s: string)
    ensures |TrimStart(s)| <= |s|
    ensures TrimStart(s) == s[|s| - |TrimStart(s)|..]
    ensures AllSpace(s[..|s| - |TrimStart(s)|])
    ensures TrimStart(s) != [] ==> !IsSpace(TrimStart(s)[0])
    decreases |s|
  {
    if |s| > 0 && IsSpace(s[0]) {
      TrimStartShape(s[1..]);
      var n := |s| - |TrimStart(s)|;
      assert s[1..][n - 1..] == s[n..];
      assert s[..n] == [s[0]] + s[1..][..n - 1];
    }
  }

  lemma {:induction false} TrimEndShape(s: string)
    ensures |TrimEnd(s)| <= |s|
    ensures TrimEnd(s) == s[..|TrimEnd(s)|]
    ensures AllSpace(s[|TrimEnd(s)|..])
    ensures TrimEnd(s) != [] ==> !IsSpace(TrimEnd(s)[|TrimEnd(s)| - 1])
    decreases |s|
  {
    if |s| > 0 && IsSpace(s[|s| - 1]) {
      var s' := s[..|s| - 1];
      TrimEndShape(s');
      var j := |TrimEnd(s)|;
      assert s'[..j] == s[..j];
      assert s[j..] == s'[j..] + [s[|s| - 1]];
    }
  }

  /** `trim` removes white space from both ends and nothing else: the result
      is the slice `s[i..j]`, everything cut off is white space, and a
      non-empty result starts and ends with a non-space character. */
  lemma TrimShape(s: string)
    ensures exists i, j :: 0 <= i <= j <= |s| && Trim(s) == s[i..j]
                           && AllSpace(s[..i]) && AllSpace(s[j..])
    ensures Trim(s) != [] ==> !IsSpace(Trim(s)[0]) && !IsSpace(Trim(s)[|Trim(s)| - 1])
  {
    TrimStartShape(s);
    var t := TrimStart(s);
    var i := |s| - |t|;
    TrimEndShape(t);
    var j := |TrimEnd(t)|;
    assert t[..j] == s[i..i + j];
    assert t[j..] == s[i + j..];
    assert Trim(s) == s[i..i + j];
    if Trim(s) != [] {
      assert Trim(s)[0] == t[0];
    }
  }

  /** `memory.trim()` is falsy exactly when `memory` is all white space. */
  lemma TrimEmptyIff(s: string)
    ensures Trim(s) == [] <==> AllSpace(s)
  {
    TrimStartShape(s);
    var t := TrimStart(s);
    TrimEndShape(t);
    if Trim(s) == [] {
      assert t == t[0..];
      assert s == s[..|s| - |t|] + t;
    }
    assert t != [] ==> t[0] == s[|s| - |t|];
  }

  // ---------------------------------------------------------------------------
  // slice(0, n) and the "first n characters, then ..." abbreviation
  // ---------------------------------------------------------------------------

  /** `s.slice(0, n)`. */
  function Take(s: string, n: nat): (r: string)
    ensures |r| <= n && r <= s
    ensures |s| <= n ==> r == s
  {
    if |s| <= n then s else s[..n]
  }

  /** The source's `s.length > n ? s.slice(0, n) + "..." : s`, written twice in
      the source with n = 300 (search snippets and history answers). */
  function Abbreviate(s: string, n: nat): (r: string)
    ensures |r| <= n + 3
    ensures |s| <= n ==> r == s
    ensures |s| > n ==> |r| == n + 3
    ensures |s| > n ==> r[..n] == s[..n] && r[n..] == "..."
  {
    if |s| > n then s[..n] + "..." else s
  }

  // ---------------------------------------------------------------------------
  // Decimal rendering of numbers (template-literal interpolation of integers)
  // ---------------------------------------------------------------------------

  function DigitChar(d: nat): (c: char)
    requires d < 10
  {
    ('0' as int + d) as char
  }

  predicate IsDigit(c: char) { '0' <= c <= '9' }

  function NatToString(n: nat): (s: string)
    decreases n
  {
    if n < 10 then [DigitChar(n)] else NatToString(n / 10) + [DigitChar(n % 10)]
  }

  /** Reads a decimal numeral back. */
  function ParseDecimal(s: string): nat
    requires forall i :: 0 <= i < |s| ==> IsDigit(s[i])
    decreases |s|
  {
    if s == [] then 0
    else
      assert IsDigit(s[|s| - 1]);
      10 * ParseDecimal(s[..|s| - 1]) + (s[|s| - 1] as int - '0' as int)
  }

  /** The decimal rendering is a non-empty digit string without a leading zero
      (other than "0" itself) that reads back as the number. */
  lemma {:induction false} NatToStringRoundTrip(n: nat)
    ensures |NatToString(n)| > 0
    ensures forall i :: 0 <= i < |NatToString(n)| ==> IsDigit(NatToString(n)[i])
    ensures NatToString(n)[0] == '0' ==> n == 0
    ensures ParseDecimal(NatToString(n)) == n
    decreases n
  {
    if n >= 10 {
      NatToStringRoundTrip(n / 10);
      var s := NatToString(n);
      assert s[..|s| - 1] == NatToString(n / 10);
      assert s[0] == NatToString(n / 10)[0];
    }
  }
}
