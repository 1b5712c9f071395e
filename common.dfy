/** Small shared vocabulary: optional values, results, bytes and the handful of
    JavaScript string operations the rest of the model relies on. */
module Common {

  datatype Option<+T> = None | Some(value: T)

  /** An operation of the program that can throw: `Err` carries the message. */
  datatype Result<+T> = Ok(value: T) | Err(message: string)

  newtype byte = b: int | 0 <= b < 256

  // ---------------------------------------------------------------------------
  // Decimal rendering, as JavaScript's String(n) does for integers

  function DigitChar(d: nat): (c: char)
    requires d < 10
    ensures '0' <= c <= '9'
    ensures c as int - '0' as int == d
  {
    ['0','1','2','3','4','5','6','7','8','9'][d]
  }

  predicate IsDigit(c: char) { '0' <= c <= '9' }

  predicate AllDigits(s: string) { forall i :: 0 <= i < |s| ==> IsDigit(s[i]) }

  /** Decimal digits of n, most significant first, no leading zero. */
  function NatToString(n: nat): (s: string)
    ensures |s| >= 1
    ensures AllDigits(s)
    ensures |s| > 1 ==> s[0] != '0'
    ensures n < 10 <==> |s| == 1
  {
    if n < 10 then [DigitChar(n)] else NatToString(n / 10) + [DigitChar(n % 10)]
  }

  function IntToString(i: int): (s: string)
    ensures |s| >= 1
    ensures i < 0 <==> s[0] == '-'
  {
    if i < 0 then "-" + NatToString(-i) else NatToString(i)
  }

  /** Reads a string of decimal digits back (the inverse of NatToString). */
  function ParseNat(s: string): nat
    requires AllDigits(s)
  {
    if s == [] then 0 else ParseNat(s[..|s| - 1]) * 10 + (s[|s| - 1] as int - '0' as int)
  }

  lemma {:induction false} ParseNatToString(n: nat)
    ensures ParseNat(NatToString(n)) == n
  {
    var s := NatToString(n);
    if n >= 10 {
      var t := NatToString(n / 10);
      assert s == t + [DigitChar(n % 10)];
      assert s[..|s| - 1] == t;
      ParseNatToString(n / 10);
    }
  }

  /** Two different numbers never render alike. */
  lemma NatToStringInjective(m: nat, n: nat)
    requires NatToString(m) == NatToString(n)
    ensures m == n
  {
    ParseNatToString(m);
    ParseNatToString(n);
  }

  /** String(n).padStart(2, '0'). */
  function PadStart2(s: string): (r: string)
    ensures |s| >= 2 ==> r == s
    ensures |s| < 2 ==> |r| == 2 && r[2 - |s|..] == s
  {
    if |s| >= 2 then s else seq(2 - |s|, _ => '0') + s
  }

  // ---------------------------------------------------------------------------
  // ASCII case mapping

  function LowerChar(c: char): char
  {
    if 'A' <= c <= 'Z' then (c as int + 32) as char else c
  }

  function UpperChar(c: char): char
  {
    if 'a' <= c <= 'z' then (c as int - 32) as char else c
  }

  function ToLower(s: string): (r: string)
    ensures |r| == |s|
    ensures forall i :: 0 <= i < |s| ==> r[i] == LowerChar(s[i])
  {
    seq(|s|, i requires 0 <= i < |s| => LowerChar(s[i]))
  }

  function ToUpper(s: string): (r: string)
    ensures |r| == |s|
    ensures forall i :: 0 <= i < |s| ==> r[i] == UpperChar(s[i])
  {
    seq(|s|, i requires 0 <= i < |s| => UpperChar(s[i]))
  }

  // ---------------------------------------------------------------------------
  // Hexadecimal digits

  /** A digit of Number.prototype.toString(16): lower case. */
  function HexDigit(d: nat): (c: char)
    requires d < 16
    ensures IsLowerHexDigit(c) && HexValue(c) == d
  {
    if d < 10 then ('0' as int + d) as char else ('a' as int + d - 10) as char
  }

  predicate IsLowerHexDigit(c: char) { '0' <= c <= '9' || 'a' <= c <= 'f' }

  /** `[0-9a-f]` matched case-insensitively. */
  predicate IsHexDigit(c: char) { IsLowerHexDigit(c) || 'A' <= c <= 'F' }

  /** The value parseInt(c, 16) gives a hex digit of either case. */
  function HexValue(c: char): (v: nat)
    ensures IsHexDigit(c) ==> v < 16
  {
    if '0' <= c <= '9' then c as int - '0' as int
    else if 'a' <= c <= 'f' then c as int - 'a' as int + 10
    else if 'A' <= c <= 'F' then c as int - 'A' as int + 10
    else 0
  }

  // ---------------------------------------------------------------------------
  // Substrings

  /** JavaScript's `s.slice(0, n)`: at most the first n characters. */
  function Take(s: string, n: nat): (r: string)
    ensures |r| == if |s| <= n then |s| else n
    ensures r <= s
  {
    if |s| <= n then s else s[..n]
  }

  predicate OccursAt(s: string, pat: string, j: nat)
  {
    j + |pat| <= |s| && s[j..j + |pat|] == pat
  }

  /** The first index at or after k where pat occurs. */
  function IndexOfFrom(s: string, pat: string, k: nat): (r: Option<nat>)
    requires k <= |s|
    ensures r.Some? ==> k <= r.value && OccursAt(s, pat, r.value)
    ensures r.Some? ==> forall j :: k <= j < r.value ==> !OccursAt(s, pat, j)
    ensures r.None? ==> forall j :: k <= j <= |s| ==> !OccursAt(s, pat, j)
    decreases |s| - k
  {
    if OccursAt(s, pat, k) then Some(k)
    else if k == |s| then None
    else IndexOfFrom(s, pat, k + 1)
  }

  function IndexOf(s: string, pat: string): (r: Option<nat>)
    ensures r.Some? ==> OccursAt(s, pat, r.value)
    ensures r.Some? ==> forall j :: 0 <= j < r.value ==> !OccursAt(s, pat, j)
    ensures r.None? ==> forall j :: 0 <= j <= |s| ==> !OccursAt(s, pat, j)
  {
    IndexOfFrom(s, pat, 0)
  }

  /** JavaScript's `s.replace(pat, rep)` with a string pattern and a
      replacement without `$` patterns: only the first occurrence changes. */
  function ReplaceFirst(s: string, pat: string, rep: string): (r: string)
  {
    match IndexOf(s, pat)
    case None => s
    case Some(i) => s[..i] + rep + s[i + |pat|..]
  }

  /** The replacement happens exactly at the first occurrence: everything
      before it is untouched, and so is everything after it. */
  lemma ReplaceFirstSplit(s: string, pat: string, rep: string, pre: string, post: string)
    requires s == pre + pat + post
    requires forall j :: 0 <= j < |pre| ==> !OccursAt(s, pat, j)
    ensures ReplaceFirst(s, pat, rep) == pre + rep + post
  {
    assert OccursAt(s, pat, |pre|) by {
      assert s[|pre|..|pre| + |pat|] == pat;
    }
    var i := IndexOf(s, pat);
    assert i == Some(|pre|);
    assert s[..|pre|] == pre;
    assert s[|pre| + |pat|..] == post;
  }

  /** The same, when the text before `pat` does not hold its first
      character. */
  lemma ReplaceFirstAfter(s: string, pat: string, rep: string, pre: string, post: string)
    requires s == pre + pat + post && pat != [] && pat[0] !in pre
    ensures ReplaceFirst(s, pat, rep) == pre + rep + post
  {
    forall j | 0 <= j < |pre| ensures !OccursAt(s, pat, j) {
      assert s[j] == pre[j] != pat[0];
    }
    ReplaceFirstSplit(s, pat, rep, pre, post);
  }

  lemma ReplaceFirstAbsent(s: string, pat: string, rep: string)
    requires forall j :: 0 <= j <= |s| ==> !OccursAt(s, pat, j)
    ensures ReplaceFirst(s, pat, rep) == s
  {
  }

  // ---------------------------------------------------------------------------
  // Whitespace, as String.prototype.trim sees it: the WhiteSpace and
  // LineTerminator code points of ECMA-262 (tab,
  // line tabulation, form feed, space, no-break space, the Unicode space
  // separators, the byte order mark, and LF, CR, U+2028, U+2029)

  predicate IsSpace(c: char)
  {
    c == ' ' || c == '\t' || c == '\n' || c == '\r' || c == '\U{0B}' || c == '\U{0C}'
    || c == '\U{A0}' || c == '\U{1680}' || ('\U{2000}' <= c <= '\U{200A}')
    || c == '\U{2028}' || c == '\U{2029}' || c == '\U{202F}' || c == '\U{205F}'
    || c == '\U{3000}' || c == '\U{FEFF}'
  }

  function TrimStart(s: string): (r: string)
    ensures |r| <= |s| && r == s[|s| - |r|..]
  {
    if s != [] && IsSpace(s[0]) then TrimStart(s[1..]) else s
  }

  function TrimEnd(s: string): (r: string)
    ensures |r| <= |s| && r == s[..|r|]
  {
    if s != [] && IsSpace(s[|s| - 1]) then TrimEnd(s[..|s| - 1]) else s
  }

  /** String.prototype.trim: white space off both ends. */
  function Trim(s: string): string
  {
    TrimEnd(TrimStart(s))
  }

  /** The Unicode space separators beyond Latin-1 are white space too: a
      name of only ideographic, en and Ogham spaces trims to nothing. */
  lemma TrimUnicodeSpaces()
    ensures Trim("\U{3000}\U{2002}\U{1680}") == ""
  {
    var s := "\U{3000}\U{2002}\U{1680}";
    assert IsSpace(s[2]);
    assert TrimStart(s[2..]) == [] by { assert s[2..][1..] == []; }
    assert IsSpace(s[1]);
    assert TrimStart(s[1..]) == [] by { assert s[1..][1..] == s[2..]; }
    assert IsSpace(s[0]);
  }

  /** Narrow no-break and medium mathematical spaces are trimmed off. */
  lemma TrimUnicodeEnds()
    ensures Trim("\U{202F}a\U{205F}") == "a"
  {
    var u := "\U{202F}a\U{205F}";
    var v := u[1..];
    assert IsSpace(u[0]);
    assert v[0] == 'a' && !IsSpace('a');
    assert TrimStart(u) == v;
    assert IsSpace(v[1]);
    assert v[..1] == "a";
    assert TrimEnd("a") == "a";
  }

  /** TrimStart removes only white space, and stops at the first other
      character. */
  lemma {:induction false} TrimStartSpaces(s: string)
    ensures TrimStart(s) != [] ==> !IsSpace(TrimStart(s)[0])
    ensures forall i :: 0 <= i < |s| - |TrimStart(s)| ==> IsSpace(s[i])
  {
    if s != [] && IsSpace(s[0]) {
      TrimStartSpaces(s[1..]);
      forall i | 0 <= i < |s| - |TrimStart(s)| ensures IsSpace(s[i]) {
        if i > 0 { assert s[i] == s[1..][i - 1]; }
      }
    }
  }

  /** TrimEnd removes only white space, and stops at the last other
      character. */
  lemma {:induction false} TrimEndSpaces(s: string)
    ensures TrimEnd(s) != [] ==> !IsSpace(TrimEnd(s)[|TrimEnd(s)| - 1])
    ensures forall i :: |TrimEnd(s)| <= i < |s| ==> IsSpace(s[i])
  {
    if s != [] && IsSpace(s[|s| - 1]) {
      TrimEndSpaces(s[..|s| - 1]);
      forall i | |TrimEnd(s)| <= i < |s| ensures IsSpace(s[i]) {
        if i < |s| - 1 { assert s[i] == s[..|s| - 1][i]; }
      }
    }
  }

  /** `s.trim()` is falsy exactly when s holds nothing but white space. */
  lemma TrimEmptyIff(s: string)
    ensures Trim(s) == [] <==> forall i :: 0 <= i < |s| ==> IsSpace(s[i])
  {
    if Trim(s) == [] {
      TrimEmptyAllSpace(s);
    } else {
      var k := TrimKeptChar(s);
    }
  }

  lemma TrimEmptyAllSpace(s: string)
    requires Trim(s) == []
    ensures forall i :: 0 <= i < |s| ==> IsSpace(s[i])
  {
    var t := TrimStart(s);
    TrimStartSpaces(s);
    TrimEndSpaces(t);
    assert t == [];
  }

  /** A non-empty trim result keeps a character that is not white space. */
  lemma TrimKeptChar(s: string) returns (k: nat)
    requires Trim(s) != []
    ensures k < |s| && !IsSpace(s[k])
  {
    var t := TrimStart(s);
    var u := TrimEnd(t);
    TrimEndSpaces(t);
    k := |s| - |t| + |u| - 1;
    assert u[|u| - 1] == t[|u| - 1];
    assert t[|u| - 1] == s[k];
  }

  // ---------------------------------------------------------------------------
  // Sequences

  /** `xs.filter(x => x != v)`. */
  function Without<T(==)>(xs: seq<T>, v: T): (r: seq<T>)
    ensures |r| <= |xs|
    ensures forall i :: 0 <= i < |r| ==> r[i] in xs && r[i] != v
    ensures forall i :: 0 <= i < |xs| && xs[i] != v ==> xs[i] in r
  {
    if xs == [] then [] else (if xs[0] == v then [] else [xs[0]]) + Without(xs[1..], v)
  }

  predicate NoDuplicates<T(==)>(xs: seq<T>)
  {
    forall i, j :: 0 <= i < j < |xs| ==> xs[i] != xs[j]
  }

  /** xs is obtained from ys by deleting elements (order kept). */
  predicate IsSubsequence<T(==)>(xs: seq<T>, ys: seq<T>)
    decreases |ys|
  {
    if xs == [] then true
    else if ys == [] then false
    else if xs[0] == ys[0] then IsSubsequence(xs[1..], ys[1..])
    else IsSubsequence(xs, ys[1..])
  }

  lemma {:induction false} WithoutIsSubsequence<T>(xs: seq<T>, v: T)
    ensures IsSubsequence(Without(xs, v), xs)
  {
    if xs != [] {
      WithoutIsSubsequence(xs[1..], v);
      var w := Without(xs, v);
      if xs[0] != v {
        assert w == [xs[0]] + Without(xs[1..], v);
        assert w[1..] == Without(xs[1..], v);
      } else {
        assert w == Without(xs[1..], v);
        // w holds no copy of v, so its head cannot match xs[0]
        assert w != [] ==> w[0] != xs[0];
      }
    }
  }

  lemma {:induction false} WithoutNoDuplicates<T>(xs: seq<T>, v: T)
    requires NoDuplicates(xs)
    ensures NoDuplicates(Without(xs, v))
  {
    if xs != [] {
      WithoutNoDuplicates(xs[1..], v);
      var rest := Without(xs[1..], v);
      if xs[0] != v {
        assert xs[0] !in xs[1..];
        assert xs[0] !in rest;
      }
    }
  }

  lemma {:induction false} WithoutAppend<T>(xs: seq<T>, ys: seq<T>, v: T)
    ensures Without(xs + ys, v) == Without(xs, v) + Without(ys, v)
  {
    if xs != [] {
      assert (xs + ys)[1..] == xs[1..] + ys;
      WithoutAppend(xs[1..], ys, v);
    } else {
      assert xs + ys == ys;
    }
  }

  /** The elements of Without(xs, v) are those of xs other than v. */
  lemma WithoutMembers<T>(xs: seq<T>, v: T)
    ensures forall x :: x in Without(xs, v) <==> x in xs && x != v
  {
    forall x | x in Without(xs, v) ensures x in xs && x != v {
      var i :| 0 <= i < |Without(xs, v)| && Without(xs, v)[i] == x;
    }
    forall x | x in xs && x != v ensures x in Without(xs, v) {
      var i :| 0 <= i < |xs| && xs[i] == x;
    }
  }

  lemma WithoutAbsent<T>(xs: seq<T>, v: T)
    requires v !in xs
    ensures Without(xs, v) == xs
  {
    if xs != [] {
      WithoutAbsent(xs[1..], v);
      assert xs == [xs[0]] + xs[1..];
    }
  }

  /** Filtering out a value appended to a list without it undoes the
      append. */
  lemma WithoutLast<T>(xs: seq<T>, v: T)
    requires v !in xs
    ensures Without(xs + [v], v) == xs
  {
    WithoutAppend(xs, [v], v);
    WithoutAbsent(xs, v);
    assert [v][1..] == [];
  }

  lemma WithoutOnce<T>(xs: seq<T>, v: T)
    requires NoDuplicates(xs)
    requires v in xs
    ensures |Without(xs, v)| == |xs| - 1
  {
    if xs[0] == v {
      assert v !in xs[1..];
      WithoutAbsent(xs[1..], v);
    } else {
      WithoutOnce(xs[1..], v);
    }
  }

  // ---------------------------------------------------------------------------
  // Swapping two entries of a copied list

  /** The list with entries i and j exchanged. */
  function Swapped<T>(xs: seq<T>, i: nat, j: nat): (r: seq<T>)
    requires i < |xs| && j < |xs|
    ensures |r| == |xs| && r[i] == xs[j] && r[j] == xs[i]
    ensures forall k :: 0 <= k < |xs| && k != i && k != j ==> r[k] == xs[k]
  {
    xs[i := xs[j]][j := xs[i]]
  }

  /** A swap keeps the entries, keeps them distinct, and undoes itself. */
  lemma SwappedPermutes<T>(xs: seq<T>, i: nat, j: nat)
    requires i < |xs| && j < |xs|
    ensures multiset(Swapped(xs, i, j)) == multiset(xs)
    ensures Swapped(Swapped(xs, i, j), i, j) == xs
    ensures Swapped(xs, i, j) == Swapped(xs, j, i)
    ensures NoDuplicates(xs) ==> NoDuplicates(Swapped(xs, i, j))
  {
    var r := Swapped(xs, i, j);
    if NoDuplicates(xs) {
      forall p, q | 0 <= p < q < |r| ensures r[p] != r[q] {
        var p' := if p == i then j else if p == j then i else p;
        var q' := if q == i then j else if q == j then i else q;
        assert r[p] == xs[p'] && r[q] == xs[q'] && p' != q';
      }
    }
  }

  /** `const next = [...xs]; [next[i], next[j]] = [next[j], next[i]]`: a
      copy of the list in an array, two entries exchanged in place. */
  method SwapCopy<T>(xs: seq<T>, i: nat, j: nat) returns (r: seq<T>)
    requires i < |xs| && j < |xs|
    ensures r == Swapped(xs, i, j)
  {
    var next := new T[|xs|](k requires 0 <= k < |xs| => xs[k]);
    assert next[..] == xs;
    next[i], next[j] := next[j], next[i];
    r := next[..];
  }
}
