/**
 * Character-level string helpers shared by the text-processing modules:
 * splitting on one separator character and its inverse, first/last occurrence
 * search, and whitespace trimming.  Strings are `seq<char>`; the modelled
 * sources only ever handle ASCII text.
 */
module StringUtil {
  import opened Wrappers

  /** `s` split on every occurrence of `c`; like Rust's `str::split` there is always one more piece than separators. */
  function Split(s: string, c: char): (parts: seq<string>)
    ensures |parts| >= 1
    decreases |s|
  {
    if s == [] then [""] else Extend(Split(s[..|s| - 1], c), s[|s| - 1], c)
  }

  /** One more character read by `Split`: a separator starts a new piece, anything else grows the last one. */
  function Extend(p: seq<string>, x: char, c: char): (q: seq<string>)
    requires |p| >= 1
    ensures |q| >= 1
  {
    if x == c then p + [""] else p[..|p| - 1] + [p[|p| - 1] + [x]]
  }

  /** The pieces joined back together with `c` between neighbours. */
  function Join(parts: seq<string>, c: char): string
    decreases |parts|
  {
    if |parts| == 0 then ""
    else if |parts| == 1 then parts[0]
    else Join(parts[..|parts| - 1], c) + [c] + parts[|parts| - 1]
  }

  lemma JoinExtendLast(q: seq<string>, a: string, x: char, c: char)
    ensures Join(q + [a + [x]], c) == Join(q + [a], c) + [x]
  {
    if |q| > 0 {
      assert (q + [a + [x]])[..|q|] == q;
      assert (q + [a])[..|q|] == q;
    }
  }

  /** Splitting and joining again gives back the original text. */
  lemma {:induction false} JoinSplit(s: string, c: char)
    ensures Join(Split(s, c), c) == s
    decreases |s|
  {
    if s != [] {
      var init, x := s[..|s| - 1], s[|s| - 1];
      assert s == init + [x];
      var p := Split(init, c);
      JoinSplit(init, c);
      if x == c {
        assert (p + [""])[..|p|] == p;
      } else {
        var q := p[..|p| - 1];
        assert p == q + [p[|p| - 1]];
        JoinExtendLast(q, p[|p| - 1], x, c);
      }
    }
  }

  /** No piece of a split contains the separator. */
  lemma {:induction false} SplitPiecesFree(s: string, c: char)
    ensures forall i :: 0 <= i < |Split(s, c)| ==> c !in Split(s, c)[i]
    decreases |s|
  {
    if s != [] {
      SplitPiecesFree(s[..|s| - 1], c);
    }
  }

  lemma {:induction false} SplitAppendPlain(t: string, a: string, c: char)
    requires c !in a
    ensures var p := Split(t, c);
      Split(t + a, c) == p[..|p| - 1] + [p[|p| - 1] + a]
    decreases |a|
  {
    var p := Split(t, c);
    if a == [] {
      assert t + a == t;
      assert p[|p| - 1] + a == p[|p| - 1];
      assert p == p[..|p| - 1] + [p[|p| - 1]];
    } else {
      var a0, x := a[..|a| - 1], a[|a| - 1];
      SplitAppendPlain(t, a0, c);
      var p0 := Split(t + a0, c);
      assert x == a[|a| - 1] && x != c;
      assert (t + a)[..|t + a| - 1] == t + a0;
      assert (t + a)[|t + a| - 1] == x;
      assert Split(t + a, c) == p0[..|p0| - 1] + [p0[|p0| - 1] + [x]];
      assert p0[..|p0| - 1] == p[..|p| - 1];
      assert p0[|p0| - 1] + [x] == p[|p| - 1] + a0 + [x];
      assert a0 + [x] == a;
      assert p[|p| - 1] + a0 + [x] == p[|p| - 1] + a;
    }
  }

  /** Joining pieces that do not contain the separator and splitting again gives back the pieces. */
  lemma {:induction false} SplitJoin(parts: seq<string>, c: char)
    requires |parts| >= 1
    requires forall i :: 0 <= i < |parts| ==> c !in parts[i]
    ensures Split(Join(parts, c), c) == parts
    decreases |parts|
  {
    if |parts| == 1 {
      SplitPlain(parts[0], c);
    } else {
      var q, a := parts[..|parts| - 1], parts[|parts| - 1];
      FreeOfSeparatorPrefix(parts, q, c);
      SplitJoin(q, c);
      assert Join(parts, c) == Join(q, c) + [c] + a;
      SplitAfterSeparator(Join(q, c), q, a, c);
    }
  }

  lemma FreeOfSeparatorPrefix(parts: seq<string>, q: seq<string>, c: char)
    requires |parts| >= 1 && q == parts[..|parts| - 1]
    requires forall i :: 0 <= i < |parts| ==> c !in parts[i]
    ensures forall i :: 0 <= i < |q| ==> c !in q[i]
    ensures c !in parts[|parts| - 1]
  {
    forall i | 0 <= i < |q| ensures c !in q[i] {
      assert q[i] == parts[i];
    }
  }

  /** One more separator-free piece after a separator adds one piece to a split. */
  lemma SplitAfterSeparator(j: string, q: seq<string>, a: string, c: char)
    requires Split(j, c) == q && c !in a
    ensures Split(j + [c] + a, c) == q + [a]
  {
    var t := j + [c];
    assert t[..|t| - 1] == j;
    var p := Split(t, c);
    assert p == q + [""];
    SplitAppendPlain(t, a, c);
    assert p[..|p| - 1] == q;
    assert p[|p| - 1] + a == a;
  }

  /** Whether `pat` occurs in `s` starting at index `i`. */
  predicate MatchAt(s: string, pat: string, i: nat)
  {
    i + |pat| <= |s| && forall k :: 0 <= k < |pat| ==> s[i + k] == pat[k]
  }

  /** Index of the first occurrence of `pat` in `s`, like `find` in C++ and Rust. */
  function Find(s: string, pat: string): (r: Option<nat>)
    ensures r.Some? ==> r.value + |pat| <= |s|
    decreases |s|
  {
    if |s| < |pat| then None
    else if MatchAt(s, pat, 0) then Some(0)
    else
      match Find(s[1..], pat)
      case None => None
      case Some(k) => Some(k + 1)
  }

  /** `Find` returns the first match, and nothing only when there is no match at all. */
  lemma {:induction false} FindSpec(s: string, pat: string)
    ensures var r := Find(s, pat);
      (r.Some? ==> MatchAt(s, pat, r.value) && forall j :: 0 <= j < r.value ==> !MatchAt(s, pat, j)) &&
      (r.None? ==> forall j :: 0 <= j ==> !MatchAt(s, pat, j))
    decreases |s|
  {
    if |s| >= |pat| && !MatchAt(s, pat, 0) {
      FindSpec(s[1..], pat);
      assert forall j :: 1 <= j ==> (MatchAt(s, pat, j) <==> MatchAt(s[1..], pat, j - 1));
    }
  }

  /** A match at k with none before it is what `Find` returns. */
  lemma {:induction false} FindFirst(s: string, pat: string, k: nat)
    requires MatchAt(s, pat, k) && forall j :: 0 <= j < k ==> !MatchAt(s, pat, j)
    ensures Find(s, pat) == Some(k)
    decreases k
  {
    if k > 0 {
      assert !MatchAt(s, pat, 0);
      MatchAtShift(s, pat, k - 1);
      forall j | 0 <= j < k - 1 ensures !MatchAt(s[1..], pat, j) {
        MatchAtShift(s, pat, j);
      }
      FindFirst(s[1..], pat, k - 1);
    }
  }

  lemma MatchAtShift(s: string, pat: string, j: nat)
    requires s != []
    ensures MatchAt(s, pat, j + 1) <==> MatchAt(s[1..], pat, j)
  {
    if MatchAt(s[1..], pat, j) {
      forall k | 0 <= k < |pat| ensures s[j + 1 + k] == pat[k] {
        assert s[1..][j + k] == pat[k];
      }
    }
  }

  /** Index of the first occurrence of `c` in `s`, like `find_first_of` with one character. */
  function FindChar(s: string, c: char): (r: Option<nat>)
    ensures r.Some? ==> r.value < |s| && s[r.value] == c && c !in s[..r.value]
    ensures r.None? <==> c !in s
    decreases |s|
  {
    if s == [] then None
    else if s[0] == c then Some(0)
    else match FindChar(s[1..], c)
      case None => None
      case Some(k) => Some(k + 1)
  }

  /** Index of the last occurrence of `c` in `s`, like `rfind` with a one-character pattern. */
  function RFind(s: string, c: char): (r: Option<nat>)
    ensures r.Some? ==> r.value < |s| && s[r.value] == c && c !in s[r.value + 1..]
    ensures r.None? <==> c !in s
    decreases |s|
  {
    if s == [] then None
    else if s[|s| - 1] == c then Some(|s| - 1)
    else RFind(s[..|s| - 1], c)
  }

  /** The whitespace characters that Rust's `trim` removes from ASCII text. */
  predicate IsSpace(ch: char)
  {
    ch == ' ' || ch == '\t' || ch == '\n' || ch == '\r' || ch == '\U{B}' || ch == '\U{C}'
  }

  function TrimStart(s: string): (r: string)
    ensures |r| <= |s|
    decreases |s|
  {
    if s != [] && IsSpace(s[0]) then TrimStart(s[1..]) else s
  }

  function TrimEnd(s: string): (r: string)
    ensures |r| <= |s|
    decreases |s|
  {
    if s != [] && IsSpace(s[|s| - 1]) then TrimEnd(s[..|s| - 1]) else s
  }

  lemma {:induction false} TrimStartSpec(s: string)
    ensures var r := TrimStart(s);
      r == s[|s| - |r|..] && (r == [] || !IsSpace(r[0])) &&
      forall i :: 0 <= i < |s| - |r| ==> IsSpace(s[i])
    decreases |s|
  {
    if s != [] && IsSpace(s[0]) {
      TrimStartSpec(s[1..]);
    }
  }

  lemma {:induction false} TrimEndSpec(s: string)
    ensures var r := TrimEnd(s);
      r == s[..|r|] && (r == [] || !IsSpace(r[|r| - 1])) &&
      forall i :: |r| <= i < |s| ==> IsSpace(s[i])
    decreases |s|
  {
    if s != [] && IsSpace(s[|s| - 1]) {
      TrimEndSpec(s[..|s| - 1]);
    }
  }

  /** Number of whitespace characters `Trim` drops from the front of `s`. */
  function Leading(s: string): nat
  {
    |s| - |TrimStart(s)|
  }

  /** `s` without leading and trailing whitespace, like Rust's `trim`. */
  function Trim(s: string): (r: string)
    ensures |r| <= |s|
  {
    TrimEnd(TrimStart(s))
  }

  /** `Trim` keeps a contiguous slice whose dropped ends are all whitespace, and whose own ends are not. */
  lemma TrimSpec(s: string)
    ensures var r := Trim(s);
      Leading(s) + |r| <= |s| && r == s[Leading(s)..Leading(s) + |r|] &&
      (forall k :: 0 <= k < Leading(s) ==> IsSpace(s[k])) &&
      (forall k :: Leading(s) + |r| <= k < |s| ==> IsSpace(s[k])) &&
      (r == [] || (!IsSpace(r[0]) && !IsSpace(r[|r| - 1])))
  {
    var t := TrimStart(s);
    TrimStartSpec(s);
    TrimEndSpec(t);
  }

  /** Each line followed by a newline, concatenated: the text a writer produces line by line. */
  function Unlines(lines: seq<string>): string
    decreases |lines|
  {
    if lines == [] then "" else Unlines(lines[..|lines| - 1]) + lines[|lines| - 1] + "\n"
  }

  /** Lines written with a newline each, then one more line without: the same as joining them all with newlines. */
  lemma {:induction false} JoinAfterUnlines(lines: seq<string>, last: string)
    ensures Join(lines + [last], '\n') == Unlines(lines) + last
    decreases |lines|
  {
    if lines != [] {
      var init, x := lines[..|lines| - 1], lines[|lines| - 1];
      JoinAfterUnlines(init, x);
      assert (lines + [last])[..|lines|] == lines;
      assert init + [x] == lines;
    }
  }

  /** Text written line by line splits back into exactly those lines, followed by the empty piece after the last newline. */
  lemma UnlinesSplit(lines: seq<string>)
    requires forall i :: 0 <= i < |lines| ==> '\n' !in lines[i]
    ensures Split(Unlines(lines), '\n') == lines + [""]
  {
    var parts := lines + [""];
    assert Unlines(lines) == Join(parts, '\n') by {
      JoinAfterUnlines(lines, "");
      assert Unlines(lines) + "" == Unlines(lines);
    }
    JoinedLinesSplit(lines);
  }

  lemma JoinedLinesSplit(lines: seq<string>)
    requires forall i :: 0 <= i < |lines| ==> '\n' !in lines[i]
    ensures Split(Join(lines + [""], '\n'), '\n') == lines + [""]
  {
    FreeOfSeparatorSnocEmpty(lines, '\n');
    SplitJoin(lines + [""], '\n');
  }

  lemma FreeOfSeparatorSnocEmpty(lines: seq<string>, c: char)
    requires forall i :: 0 <= i < |lines| ==> c !in lines[i]
    ensures forall i :: 0 <= i < |lines + [""]| ==> c !in (lines + [""])[i]
  {
    var parts := lines + [""];
    forall i | 0 <= i < |parts| ensures c !in parts[i] {
      if i < |lines| {
        assert parts[i] == lines[i];
      } else {
        assert parts[i] == "";
      }
    }
  }

  /** `Split` of text that starts with a separator-free piece and a separator. */
  lemma {:induction false} SplitFirst(a: string, c: char, t: string)
    requires c !in a
    ensures Split(a + [c] + t, c) == [a] + Split(t, c)
    decreases |t|
  {
    if t == [] {
      SplitAppendPlain("", a, c);
      assert "" + a == a;
      var s := a + [c];
      assert s[..|s| - 1] == a && s[|s| - 1] == c;
      assert a + [c] + t == s;
    } else {
      var t0, x := t[..|t| - 1], t[|t| - 1];
      var s, s0 := a + [c] + t, a + [c] + t0;
      var p := Split(t0, c);
      assert s[..|s| - 1] == s0 && s[|s| - 1] == x;
      calc {
        Split(s, c);
        Extend(Split(s0, c), x, c);
        { SplitFirst(a, c, t0); }
        Extend([a] + p, x, c);
        { if x != c { assert ([a] + p)[..|p|] == [a] + p[..|p| - 1]; } }
        [a] + Extend(p, x, c);
        [a] + Split(t, c);
      }
    }
  }

  /** A separator-free string splits into itself alone. */
  lemma SplitPlain(a: string, c: char)
    requires c !in a
    ensures Split(a, c) == [a]
  {
    SplitAppendPlain("", a, c);
    assert "" + a == a;
  }

  /** Whether `s` begins with `p`, the test C++ code writes as `s.find(p) == 0`. */
  predicate StartsWith(s: string, p: string)
  {
    Find(s, p) == Some(0)
  }

  /** A string begins with whatever it was built from. */
  lemma StartsWithConcat(p: string, t: string)
    ensures StartsWith(p + t, p)
  {
    assert MatchAt(p + t, p, 0);
  }

  /** The run of non-whitespace characters at the front of `s`: what `%s` reads once leading whitespace is skipped. */
  function Token(s: string): (r: string)
    ensures |r| <= |s| && r == s[..|r|]
    ensures forall k :: 0 <= k < |r| ==> !IsSpace(r[k])
    ensures |r| < |s| ==> IsSpace(s[|r|])
    decreases |s|
  {
    if s == [] || IsSpace(s[0]) then [] else [s[0]] + Token(s[1..])
  }

  /** A token stops at the first whitespace character that follows it. */
  lemma {:induction false} TokenOf(a: string, t: string)
    requires forall k :: 0 <= k < |a| ==> !IsSpace(a[k])
    requires t == [] || IsSpace(t[0])
    ensures Token(a + t) == a
    decreases |a|
  {
    if a != [] {
      assert (a + t)[1..] == a[1..] + t;
      TokenOf(a[1..], t);
      assert a == [a[0]] + a[1..];
    } else {
      assert a + t == t;
    }
  }

  /** The decimal digit character for `d`. */
  function DigitChar(d: nat): char
    requires d < 10
  {
    ['0', '1', '2', '3', '4', '5', '6', '7', '8', '9'][d]
  }

  /** The value of a decimal digit character. */
  function DigitValue(ch: char): nat
  {
    if '0' <= ch <= '9' then (ch as int - '0' as int) as nat else 0
  }

  /** `n` written in decimal without leading zeros, as `std::to_string` and `%u` print it. */
  function DecimalString(n: nat): (r: string)
    ensures |r| >= 1
    ensures forall k :: 0 <= k < |r| ==> '0' <= r[k] <= '9'
    ensures r[0] == '0' ==> r == "0"
  {
    if n < 10 then [DigitChar(n)] else DecimalString(n / 10) + [DigitChar(n % 10)]
  }

  /** The number a string of decimal digits denotes. */
  function DecimalValue(s: string): nat
    decreases |s|
  {
    if s == [] then 0 else 10 * DecimalValue(s[..|s| - 1]) + DigitValue(s[|s| - 1])
  }

  lemma DigitRoundTrip(d: nat)
    requires d < 10
    ensures DigitValue(DigitChar(d)) == d
  {
  }

  /** Reading back a printed number gives the number. */
  lemma {:induction false} DecimalRoundTrip(n: nat)
    ensures DecimalValue(DecimalString(n)) == n
  {
    DigitRoundTrip(n % 10);
    if n >= 10 {
      DecimalRoundTrip(n / 10);
      var s := DecimalString(n);
      assert s == DecimalString(n / 10) + [DigitChar(n % 10)];
      assert s[..|s| - 1] == DecimalString(n / 10);
      assert DecimalValue(s) == 10 * (n / 10) + n % 10;
    } else {
      assert DecimalString(n) == [DigitChar(n)];
      assert DecimalString(n)[..0] == [];
    }
  }

  /** `a` is no greater than `b` in the order `std::string` compares in:
      character by character, a proper prefix first. */
  predicate LexLe(a: string, b: string)
    decreases |a|
  {
    a == [] || (b != [] && (a[0] < b[0] || (a[0] == b[0] && LexLe(a[1..], b[1..]))))
  }

  lemma {:induction false} LexTotal(a: string, b: string)
    ensures LexLe(a, b) || LexLe(b, a)
    decreases |a|
  {
    if a != [] && b != [] && a[0] == b[0] {
      LexTotal(a[1..], b[1..]);
    }
  }

  lemma {:induction false} LexTrans(a: string, b: string, c: string)
    requires LexLe(a, b) && LexLe(b, c)
    ensures LexLe(a, c)
    decreases |a|
  {
    if a != [] && a[0] == b[0] && b[0] == c[0] {
      LexTrans(a[1..], b[1..], c[1..]);
    }
  }

  lemma {:induction false} LexAntisym(a: string, b: string)
    requires LexLe(a, b) && LexLe(b, a)
    ensures a == b
    decreases |a|
  {
    if a != [] {
      LexAntisym(a[1..], b[1..]);
      assert a == [a[0]] + a[1..] && b == [b[0]] + b[1..];
    }
  }
}
