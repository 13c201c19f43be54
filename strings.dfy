/** String and number helpers shared by the page models: the parts of the
    JavaScript built-ins (`trim`, `split`, `join`, `toLowerCase`,
    `parseFloat`, number-to-string) that the pages rely on. */
module Strings {

  datatype Option<T> = None | Some(value: T)

  /** `x || 0` for a number that may be missing or NaN. */
  function OrZero(o: Option<int>): int {
    if o.Some? then o.value else 0
  }

  /** The ECMAScript WhiteSpace and LineTerminator code points: what `\s`
      matches and what `trim` removes. */
  predicate IsSpace(c: char) {
    || c == ' ' || c == '\t' || c == '\n' || c == '\r' || c == '\U{B}' || c == '\U{C}'
    || c == '\U{A0}' || c == '\U{1680}' || ('\U{2000}' <= c <= '\U{200A}')
    || c == '\U{2028}' || c == '\U{2029}' || c == '\U{202F}' || c == '\U{205F}'
    || c == '\U{3000}' || c == '\U{FEFF}'
  }

  predicate NoSpace(s: string) {
    forall i :: 0 <= i < |s| ==> !IsSpace(s[i])
  }

  predicate AllSpace(s: string) {
    forall i :: 0 <= i < |s| ==> IsSpace(s[i])
  }

  /** How many whitespace characters `s` starts with. */
  function LeadingSpace(s: string): (n: nat)
    ensures n <= |s|
  {
    if |s| > 0 && IsSpace(s[0]) then 1 + LeadingSpace(s[1..]) else 0
  }

  /** The leading run is all whitespace and stops at a non-space. */
  lemma {:induction false} LeadingSpaceMeaning(s: string)
    ensures var n := LeadingSpace(s); AllSpace(s[..n]) && (n == |s| || !IsSpace(s[n]))
  {
    if |s| > 0 && IsSpace(s[0]) {
      var t := s[1..];
      LeadingSpaceMeaning(t);
      var n := LeadingSpace(s);
      forall i | 0 <= i < n ensures IsSpace(s[..n][i]) {
        if i > 0 { assert s[..n][i] == t[..n - 1][i - 1]; }
      }
      if n < |s| { assert s[n] == t[n - 1]; }
    }
  }

  /** Where the whitespace that `s` ends with begins. */
  function TrailingSpace(s: string): (n: nat)
    ensures n <= |s|
  {
    if |s| > 0 && IsSpace(s[|s| - 1]) then TrailingSpace(s[..|s| - 1]) else |s|
  }

  /** The trailing run is all whitespace and starts after a non-space. */
  lemma {:induction false} TrailingSpaceMeaning(s: string)
    ensures var n := TrailingSpace(s); AllSpace(s[n..]) && (n == 0 || !IsSpace(s[n - 1]))
  {
    if |s| > 0 && IsSpace(s[|s| - 1]) {
      var p := s[..|s| - 1];
      TrailingSpaceMeaning(p);
      var n := TrailingSpace(s);
      forall i | 0 <= i < |s| - n ensures IsSpace(s[n..][i]) {
        if n + i < |s| - 1 { assert s[n..][i] == p[n..][i]; }
      }
      if n > 0 { assert s[n - 1] == p[n - 1]; }
    }
  }

  /** `trimStart`: a suffix of `s`. */
  function TrimStart(s: string): string {
    s[LeadingSpace(s)..]
  }

  /** `trimEnd`: a prefix of `s`. */
  function TrimEnd(s: string): string {
    s[..TrailingSpace(s)]
  }

  /** `String.prototype.trim`. */
  function Trim(s: string): (r: string)
    ensures |r| <= |s|
    ensures r == [] || (!IsSpace(r[0]) && !IsSpace(r[|r| - 1]))
  {
    var t := TrimStart(s);
    LeadingSpaceMeaning(s);
    TrailingSpaceMeaning(t);
    TrimEnd(t)
  }

  /** What `trim` removes: the leading whitespace (`a` characters) and the
      trailing whitespace, and nothing in between. */
  lemma TrimMeaning(s: string)
    ensures var a := LeadingSpace(s); var r := Trim(s);
      a + |r| <= |s| && r == s[a..a + |r|] && AllSpace(s[..a]) && AllSpace(s[a + |r|..])
  {
    LeadingSpaceMeaning(s);
    TrimIsSlice(s);
    TrimCutsTrailing(s);
  }

  lemma TrimIsSlice(s: string)
    ensures LeadingSpace(s) + |Trim(s)| <= |s|
    ensures Trim(s) == s[LeadingSpace(s)..LeadingSpace(s) + |Trim(s)|]
  {
    var a := LeadingSpace(s);
    var t := s[a..];
    assert Trim(s) == t[..TrailingSpace(t)];
  }

  lemma TrimCutsTrailing(s: string)
    ensures LeadingSpace(s) + |Trim(s)| <= |s|
    ensures AllSpace(s[LeadingSpace(s) + |Trim(s)|..])
  {
    var a := LeadingSpace(s);
    var t := s[a..];
    var e := TrailingSpace(t);
    TrailingSpaceMeaning(t);
    assert t[e..] == s[a + e..];
  }

  /** A string that neither starts nor ends with whitespace is its own
      trim. */
  lemma TrimOfTrimmed(s: string)
    requires s == [] || (!IsSpace(s[0]) && !IsSpace(s[|s| - 1]))
    ensures Trim(s) == s
  {
    if s != [] {
      assert LeadingSpace(s) == 0;
      assert s[0..] == s;
      assert TrailingSpace(s) == |s|;
    }
  }

  /** Trimming twice is trimming once. */
  lemma TrimIdempotent(s: string)
    ensures Trim(Trim(s)) == Trim(s)
  {
    TrimOfTrimmed(Trim(s));
  }

  /** `s.trim() === ''` */
  predicate IsBlank(s: string) {
    Trim(s) == ""
  }

  lemma BlankIffAllSpace(s: string)
    ensures IsBlank(s) <==> AllSpace(s)
  {
    var r := Trim(s);
    TrimMeaning(s);
    var a := LeadingSpace(s);
    if r == "" {
      assert s == s[..a] + s[a + |r|..];
      AllSpaceConcat(s[..a], s[a + |r|..]);
    } else {
      assert !IsSpace(s[a]) by { assert r[0] == s[a]; }
    }
  }

  lemma AllSpaceConcat(x: string, y: string)
    requires AllSpace(x) && AllSpace(y)
    ensures AllSpace(x + y)
  {
    forall i | 0 <= i < |x + y| ensures IsSpace((x + y)[i]) {
      if i >= |x| { assert (x + y)[i] == y[i - |x|]; }
    }
  }

  /** `s.split(sep)` for a one-character separator: never empty, and no
      piece contains the separator. */
  function Split(s: string, sep: char): (r: seq<string>)
    ensures |r| >= 1
    ensures forall k :: 0 <= k < |r| ==> sep !in r[k]
  {
    if |s| == 0 then [""]
    else
      var rest := Split(s[1..], sep);
      if s[0] == sep then [""] + rest else [[s[0]] + rest[0]] + rest[1..]
  }

  /** `parts.join(sep)` */
  function Join(parts: seq<string>, sep: string): string {
    if |parts| == 0 then ""
    else if |parts| == 1 then parts[0]
    else parts[0] + sep + Join(parts[1..], sep)
  }

  /** Splitting and joining again with the same separator gives back the
      original text. */
  lemma {:induction false} JoinSplit(s: string, sep: char)
    ensures Join(Split(s, sep), [sep]) == s
  {
    if |s| > 0 {
      var rest := Split(s[1..], sep);
      JoinSplit(s[1..], sep);
      if s[0] == sep {
        assert Split(s, sep) == [""] + rest;
        assert ([""] + rest)[1..] == rest;
      } else {
        var r := [[s[0]] + rest[0]] + rest[1..];
        assert Split(s, sep) == r;
        if |rest| == 1 {
          assert Join(rest, [sep]) == rest[0];
        } else {
          assert r[1..] == rest[1..];
          assert Join(rest, [sep]) == rest[0] + [sep] + Join(rest[1..], [sep]);
        }
      }
    }
  }

  /** Text without the separator is one piece, itself. */
  lemma {:induction false} SplitWithoutSeparator(s: string, sep: char)
    requires sep !in s
    ensures Split(s, sep) == [s]
  {
    if |s| > 0 {
      SplitWithoutSeparator(s[1..], sep);
      assert [s[0]] + s[1..] == s;
    }
  }

  /** Splitting at a separator occurrence splits the two sides
      independently. */
  lemma {:induction false} SplitConcat(a: string, b: string, sep: char)
    ensures Split(a + [sep] + b, sep) == Split(a, sep) + Split(b, sep)
  {
    var s := a + [sep] + b;
    if |a| == 0 {
      assert s == [sep] + b && s[1..] == b;
    } else {
      assert s[0] == a[0] && s[1..] == a[1..] + [sep] + b;
      SplitConcat(a[1..], b, sep);
      var front := Split(a[1..], sep);
      var rest := Split(s[1..], sep);
      assert rest == front + Split(b, sep);
      if a[0] != sep {
        assert rest[0] == front[0];
        assert rest[1..] == front[1..] + Split(b, sep);
      }
    }
  }

  /** The last piece after a final separator is the text behind it. */
  lemma LastPiece(a: string, b: string, sep: char)
    requires sep !in b
    ensures LastOf(Split(a + [sep] + b, sep)) == b
  {
    SplitConcat(a, b, sep);
    SplitWithoutSeparator(b, sep);
  }

  function LastOf(parts: seq<string>): string
    requires |parts| > 0
  {
    parts[|parts| - 1]
  }

  predicate EndsWith(s: string, suffix: string) {
    |suffix| <= |s| && s[|s| - |suffix|..] == suffix
  }

  /** `hay.includes(needle)` */
  predicate Contains(hay: string, needle: string) {
    exists i :: 0 <= i <= |hay| - |needle| && OccursAt(hay, needle, i)
  }

  predicate OccursAt(hay: string, needle: string, i: int) {
    0 <= i <= |hay| - |needle| && hay[i..i + |needle|] == needle
  }

  function LowerChar(c: char): char {
    if 'A' <= c <= 'Z' then (c as int + 32) as char else c
  }

  function UpperChar(c: char): char {
    if 'a' <= c <= 'z' then (c as int - 32) as char else c
  }

  /** `toLowerCase` on the ASCII letters. */
  function Lower(s: string): (r: string)
    ensures |r| == |s| && forall i :: 0 <= i < |s| ==> r[i] == LowerChar(s[i])
  {
    seq(|s|, i requires 0 <= i < |s| => LowerChar(s[i]))
  }

  predicate IsDigit(c: char) {
    '0' <= c <= '9'
  }

  function DigitValue(c: char): nat
    requires IsDigit(c)
  {
    c as int - '0' as int
  }

  function DigitChar(d: nat): (c: char)
    requires d < 10
    ensures IsDigit(c) && DigitValue(c) == d
  {
    ('0' as int + d) as char
  }

  /** The value of a string of decimal digits. */
  function DigitsValue(s: string): nat
    requires forall i :: 0 <= i < |s| ==> IsDigit(s[i])
  {
    if |s| == 0 then 0 else DigitsValue(s[..|s| - 1]) * 10 + DigitValue(s[|s| - 1])
  }

  /** Decimal rendering of a natural number, as JavaScript prints it. */
  function NatToString(n: nat): (r: string)
    ensures |r| >= 1 && forall i :: 0 <= i < |r| ==> IsDigit(r[i])
    ensures DigitsValue(r) == n
  {
    if n < 10 then [DigitChar(n)]
    else
      var p := NatToString(n / 10);
      var r := p + [DigitChar(n % 10)];
      assert r[..|r| - 1] == p;
      r
  }

  /** Decimal rendering of an integer, minus sign included. */
  function IntToString(n: int): (r: string)
    ensures n >= 0 ==> r == NatToString(n)
    ensures n < 0 ==> r == "-" + NatToString(-n)
  {
    if n >= 0 then NatToString(n) else "-" + NatToString(-n)
  }

  /** The longest prefix of `s` made of digits. */
  function DigitPrefix(s: string): (r: string)
    ensures |r| <= |s| && r == s[..|r|]
    ensures forall i :: 0 <= i < |r| ==> IsDigit(r[i])
    ensures |r| == |s| || !IsDigit(s[|r|])
  {
    if |s| > 0 && IsDigit(s[0]) then [s[0]] + DigitPrefix(s[1..]) else ""
  }

  /** Cents contributed by the digits after the decimal point: the first
      two digits, further digits dropped. */
  function FractionCents(f: string): (c: nat)
    requires forall i :: 0 <= i < |f| ==> IsDigit(f[i])
    ensures c < 100
  {
    if |f| == 0 then 0
    else if |f| == 1 then DigitValue(f[0]) * 10
    else DigitValue(f[0]) * 10 + DigitValue(f[1])
  }

  /** `parseFloat(s)` for a money amount, in cents: leading whitespace,
      an optional sign, digits with an optional fraction. None is NaN,
      the result when no digit is found. */
  function ParseCents(s: string): Option<int> {
    var t := TrimStart(s);
    var neg := |t| > 0 && t[0] == '-';
    var body := if |t| > 0 && (t[0] == '-' || t[0] == '+') then t[1..] else t;
    var whole := DigitPrefix(body);
    var rest := body[|whole|..];
    var frac := if |rest| > 0 && rest[0] == '.' then DigitPrefix(rest[1..]) else "";
    if |whole| == 0 && |frac| == 0 then None
    else
      var cents := DigitsValue(whole) * 100 + FractionCents(frac);
      Some(if neg then -cents else cents)
  }

  /** Parsing a printed whole number gives back that many units. */
  lemma ParseCentsOfNat(n: nat)
    ensures ParseCents(NatToString(n)) == Some(n * 100)
  {
    var s := NatToString(n);
    assert IsDigit(s[0]);
    assert LeadingSpace(s) == 0 && s[0..] == s;
    assert !(s[0] == '-' || s[0] == '+');
    DigitPrefixOfDigits(s);
    assert s[|s|..] == "";
    assert FractionCents("") == 0;
  }

  lemma {:induction false} DigitPrefixOfDigits(s: string)
    requires forall i :: 0 <= i < |s| ==> IsDigit(s[i])
    ensures DigitPrefix(s) == s
  {
    if |s| > 0 {
      DigitPrefixOfDigits(s[1..]);
      assert [s[0]] + s[1..] == s;
    }
  }

  /** No value occurs twice. */
  predicate NoDuplicates<T(==)>(xs: seq<T>) {
    forall i, j :: 0 <= i < j < |xs| ==> xs[i] != xs[j]
  }

  /** `xs.filter(p)`: the elements satisfying `p`, in their original
      order. */
  function Filter<T(!new)>(xs: seq<T>, p: T -> bool): (r: seq<T>)
    ensures |r| <= |xs|
    ensures forall x :: x in r <==> x in xs && p(x)
  {
    if |xs| == 0 then []
    else if p(xs[0]) then [xs[0]] + Filter(xs[1..], p)
    else Filter(xs[1..], p)
  }

  /** Filtering distributes over concatenation: kept elements keep their
      relative order. */
  lemma {:induction false} FilterAppend<T(!new)>(a: seq<T>, b: seq<T>, p: T -> bool)
    ensures Filter(a + b, p) == Filter(a, p) + Filter(b, p)
  {
    if |a| == 0 {
      assert a + b == b;
    } else {
      assert (a + b)[1..] == a[1..] + b;
      FilterAppend(a[1..], b, p);
    }
  }

  /** Nothing is kept exactly when no element passes. */
  lemma FilterEmptyIff<T(!new)>(xs: seq<T>, p: T -> bool)
    ensures |Filter(xs, p)| == 0 <==> forall i :: 0 <= i < |xs| ==> !p(xs[i])
  {
    var r := Filter(xs, p);
    if |r| > 0 {
      assert r[0] in r;
    }
  }

  /** Filtering with a test every element passes keeps everything. */
  lemma {:induction false} FilterAll<T(!new)>(xs: seq<T>, p: T -> bool)
    requires forall i :: 0 <= i < |xs| ==> p(xs[i])
    ensures Filter(xs, p) == xs
  {
    if |xs| > 0 {
      FilterAll(xs[1..], p);
      assert [xs[0]] + xs[1..] == xs;
    }
  }

  /** `xs.filter((_, i) => i !== index)`: the element at `index` removed,
      or nothing removed when `index` is not a position. */
  function WithoutIndex<T>(xs: seq<T>, index: int): (r: seq<T>)
    ensures 0 <= index < |xs| ==> (|r| == |xs| - 1
      && (forall j :: 0 <= j < index ==> r[j] == xs[j])
      && (forall j :: index <= j < |r| ==> r[j] == xs[j + 1]))
    ensures !(0 <= index < |xs|) ==> r == xs
  {
    if 0 <= index < |xs| then xs[..index] + xs[index + 1..] else xs
  }

  /** A list is what comes before an index, the element there and what
      follows; removing the index joins the outer parts. */
  lemma SplitAround<T>(xs: seq<T>, index: int)
    requires 0 <= index < |xs|
    ensures xs == xs[..index] + ([xs[index]] + xs[index + 1..])
    ensures WithoutIndex(xs, index) == xs[..index] + xs[index + 1..]
  {
    assert [xs[index]] + xs[index + 1..] == xs[index..];
  }

  /** `strings.filter(x => x.trim() !== '')` */
  function NonBlank(xs: seq<string>): (r: seq<string>)
    ensures |r| <= |xs|
    ensures forall i :: 0 <= i < |r| ==> !IsBlank(r[i])
    ensures forall x :: x in r <==> x in xs && !IsBlank(x)
    ensures NoDuplicates(xs) ==> NoDuplicates(r)
  {
    if |xs| == 0 then []
    else if IsBlank(xs[0]) then NonBlank(xs[1..])
    else [xs[0]] + NonBlank(xs[1..])
  }

  /** The filter keeps the order of the list: filtering a list made of two
      parts filters each part and keeps the first part's entries first. */
  lemma {:induction false} NonBlankAppend(a: seq<string>, b: seq<string>)
    ensures NonBlank(a + b) == NonBlank(a) + NonBlank(b)
  {
    if |a| > 0 {
      assert (a + b)[1..] == a[1..] + b;
      NonBlankAppend(a[1..], b);
    } else {
      assert a + b == b;
    }
  }

  /** A single entry stays exactly when it is not blank. */
  lemma NonBlankSingle(x: string)
    ensures NonBlank([x]) == if IsBlank(x) then [] else [x]
  {
    assert [x][1..] == [];
  }

  /** An entry the non-blank filter keeps. */
  predicate NotBlank(x: string) {
    !IsBlank(x)
  }

  /** NonBlank is the generic filter with the non-blank test. It keeps its
      own recursion because that also carries the duplicate-free clause. */
  lemma {:induction false} NonBlankIsFilter(xs: seq<string>)
    ensures NonBlank(xs) == Filter(xs, NotBlank)
  {
    if |xs| > 0 {
      NonBlankIsFilter(xs[1..]);
    }
  }
}

