/** Strings as the Go standard library treats them: trimming, splitting, numbers, order. */
module Text {

  datatype Option<+T> = None | Some(value: T) {
    function GetOr(default: T): T {
      match this case Some(v) => v case None => default
    }
  }

  // ------------------------------------------------------------------- length

  /** Bytes of one character in UTF-8, as section 3 of RFC 3629 lays them out. */
  function Width(c: char): (n: nat)
    ensures 1 <= n <= 4
  {
    if c < '\U{80}' then 1 else if c < '\U{800}' then 2 else if c < '\U{10000}' then 3 else 4
  }

  /** Go's `len`: the length in bytes. */
  function Bytes(s: string): nat {
    if s == [] then 0 else Bytes(s[..|s| - 1]) + Width(s[|s| - 1])
  }

  // ---------------------------------------------------------------- searching

  /** Position of the first `c` in `s`, or `|s|` when there is none. */
  function IndexOf(s: string, c: char): (i: nat)
    ensures i <= |s| && c !in s[..i]
    ensures i < |s| ==> s[i] == c
  {
    if s == [] then 0 else if s[0] == c then 0 else 1 + IndexOf(s[1..], c)
  }

  /** Position of the last `c` in `s`, or -1 when there is none. */
  function LastIndexOf(s: string, c: char): (i: int)
    ensures -1 <= i < |s|
    ensures i >= 0 ==> s[i] == c
    ensures c !in s[i + 1..]
  {
    if s == [] then -1
    else if s[|s| - 1] == c then |s| - 1
    else LastIndexOf(s[..|s| - 1], c)
  }

  function Count(s: string, c: char): (n: nat)
    ensures n == 0 <==> c !in s
  {
    if s == [] then 0 else (if s[0] == c then 1 else 0) + Count(s[1..], c)
  }

  predicate HasSuffix(s: string, suffix: string) {
    |suffix| <= |s| && s[|s| - |suffix|..] == suffix
  }

  function TrimSuffix(s: string, suffix: string): string {
    if HasSuffix(s, suffix) then s[..|s| - |suffix|] else s
  }

  /** The first non-empty value, or "" when all are empty. */
  function FirstNonEmpty(vals: seq<string>): (r: string)
    ensures r == "" ==> forall v | v in vals :: v == ""
    ensures r != "" ==> r in vals
  {
    if vals == [] then ""
    else if vals[0] != "" then vals[0]
    else
      assert vals == [vals[0]] + vals[1..];
      FirstNonEmpty(vals[1..])
  }

  // --------------------------------------------------------------------- case

  /** The same letters, up to the case of those in the first text. */
  predicate SameLetters(text: string, lower: string) {
    |text| == |lower| &&
    forall i | 0 <= i < |text| ::
      text[i] == lower[i] || ('A' <= text[i] <= 'Z' && text[i] as int + 32 == lower[i] as int)
  }

  // ----------------------------------------------------------------- trimming

  predicate IsSpace(c: char) {
    c in {' ', '\t', '\n', '\r', '\U{0B}', '\U{0C}', '\U{85}', '\U{A0}', '\U{1680}',
          '\U{2028}', '\U{2029}', '\U{202F}', '\U{205F}', '\U{3000}'}
    || '\U{2000}' <= c <= '\U{200A}'
  }

  predicate IsSlash(c: char) { c == '/' }

  function TrimLeft(cut: char -> bool, s: string): (r: string)
    ensures r == [] || !cut(r[0])
    ensures forall c | c in r :: c in s
  {
    if s != [] && cut(s[0]) then TrimLeft(cut, s[1..]) else s
  }

  function TrimRight(cut: char -> bool, s: string): (r: string)
    ensures r == [] || !cut(r[|r| - 1])
    ensures r <= s
  {
    if s != [] && cut(s[|s| - 1]) then TrimRight(cut, s[..|s| - 1]) else s
  }

  function Trim(cut: char -> bool, s: string): (r: string)
    ensures r == [] || (!cut(r[0]) && !cut(r[|r| - 1]))
    ensures forall c | c in r :: c in s
  {
    TrimRight(cut, TrimLeft(cut, s))
  }

  function TrimSpace(s: string): (r: string)
    ensures r == [] || (!IsSpace(r[0]) && !IsSpace(r[|r| - 1]))
  {
    Trim(IsSpace, s)
  }

  /** Text whose two ends are not blank: trimming leaves it alone. */
  predicate Trimmed(s: string) {
    s == [] || (!IsSpace(s[0]) && !IsSpace(s[|s| - 1]))
  }

  /** Blank padding on both sides of trimmed text disappears. */
  lemma {:induction false} TrimSpacePadded(a: string, s: string, b: string)
    requires Trimmed(s) && s != []
    requires forall c | c in a :: IsSpace(c)
    requires forall c | c in b :: IsSpace(c)
    ensures TrimSpace(a + s + b) == s
  {
    TrimLeftPadded(IsSpace, a, s + b);
    assert a + s + b == a + (s + b);
    TrimRightPadded(IsSpace, s, b);
  }

  lemma {:induction false} TrimLeftPadded(cut: char -> bool, a: string, s: string)
    requires s == [] || !cut(s[0])
    requires forall c | c in a :: cut(c)
    ensures TrimLeft(cut, a + s) == s
  {
    if a == [] {
      assert a + s == s;
    } else {
      assert (a + s)[1..] == a[1..] + s;
      TrimLeftPadded(cut, a[1..], s);
    }
  }

  lemma {:induction false} TrimRightPadded(cut: char -> bool, s: string, b: string)
    requires s == [] || !cut(s[|s| - 1])
    requires forall c | c in b :: cut(c)
    ensures TrimRight(cut, s + b) == s
  {
    if b == [] {
      assert s + b == s;
    } else {
      assert (s + b)[..|s + b| - 1] == s + b[..|b| - 1];
      TrimRightPadded(cut, s, b[..|b| - 1]);
    }
  }

  /** `core` is the text without the slashes at its ends. */
  ghost predicate Stripped(text: string, core: string) {
    && (core == "" || (core[0] != '/' && core[|core| - 1] != '/'))
    && exists a: string, b: string :: text == a + core + b && forall c | c in a + b :: c == '/'
  }

  lemma {:induction false} LeftSlashes(s: string) returns (a: string)
    ensures s == a + TrimLeft(IsSlash, s) && forall c | c in a :: c == '/'
  {
    a := "";
    if |s| > 0 && IsSlash(s[0]) {
      a := LeftSlashes(s[1..]);
      assert s == [s[0]] + s[1..];
      a := [s[0]] + a;
    }
  }

  lemma {:induction false} RightSlashes(s: string) returns (b: string)
    ensures s == TrimRight(IsSlash, s) + b && forall c | c in b :: c == '/'
  {
    b := "";
    if |s| > 0 && IsSlash(s[|s| - 1]) {
      b := RightSlashes(s[..|s| - 1]);
      assert s == s[..|s| - 1] + [s[|s| - 1]];
      b := b + [s[|s| - 1]];
    }
  }

  /** Trimming slashes leaves exactly the text between the slashes at its ends. */
  lemma StrippedExact(text: string, core: string)
    ensures Stripped(text, core) <==> core == Trim(IsSlash, text)
  {
    TrimStrips(text);
    if Stripped(text, core) { StrippedTrims(text, core); }
  }

  lemma TrimStrips(text: string)
    ensures Stripped(text, Trim(IsSlash, text))
  {
    var a := LeftSlashes(text);
    var b := RightSlashes(TrimLeft(IsSlash, text));
    assert text == a + Trim(IsSlash, text) + b;
  }

  lemma StrippedTrims(text: string, core: string)
    requires Stripped(text, core)
    ensures Trim(IsSlash, text) == core
  {
    var a: string, b: string :| text == a + core + b && forall c | c in a + b :: c == '/';
    assert forall c | c in a :: c in a + b;
    assert forall c | c in b :: c in a + b;
    if core == "" {
      assert text == (a + b) + "";
      TrimLeftPadded(IsSlash, a + b, "");
    } else {
      assert text == a + (core + b) && (core + b)[0] == core[0];
      TrimLeftPadded(IsSlash, a, core + b);
      TrimRightPadded(IsSlash, core, b);
    }
  }

  // ---------------------------------------------------------------- splitting

  function Split(s: string, sep: char): (parts: seq<string>)
    ensures |parts| >= 1
    decreases |s|
  {
    var i := IndexOf(s, sep);
    if i == |s| then [s] else [s[..i]] + Split(s[i + 1..], sep)
  }

  function Join(parts: seq<string>, sep: string): string {
    if parts == [] then "" else if |parts| == 1 then parts[0]
    else parts[0] + sep + Join(parts[1..], sep)
  }

  /** A separator after separator-free text is the first one. */
  lemma IndexOfFirst(a: string, sep: char, b: string)
    requires sep !in a
    ensures IndexOf(a + [sep] + b, sep) == |a|
  {
    var s := a + [sep] + b;
    var i := IndexOf(s, sep);
    assert s[|a|] == sep;
    assert forall k | 0 <= k < |a| :: s[k] == a[k];
    assert forall k | 0 <= k < i :: s[k] == s[..i][k];
  }

  /** Splitting at the first separator: everything before it is the first part. */
  lemma {:induction false} SplitHead(a: string, sep: char, b: string)
    requires sep !in a
    ensures IndexOf(a + [sep] + b, sep) == |a|
    ensures Split(a + [sep] + b, sep) == [a] + Split(b, sep)
  {
    var s := a + [sep] + b;
    IndexOfFirst(a, sep, b);
    assert s[..|a|] == a && s[|a| + 1..] == b;
  }

  /** A separator between two texts separates their parts. */
  lemma {:induction false} SplitConcat(a: string, sep: char, b: string)
    ensures Split(a + [sep] + b, sep) == Split(a, sep) + Split(b, sep)
    decreases |a|
  {
    var i := IndexOf(a, sep);
    if i == |a| {
      SplitHead(a, sep, b);
    } else {
      var rest := a[i + 1..];
      calc {
        Split(a + [sep] + b, sep);
        { assert a + [sep] + b == a[..i] + [sep] + (rest + [sep] + b); }
        Split(a[..i] + [sep] + (rest + [sep] + b), sep);
        { SplitHead(a[..i], sep, rest + [sep] + b); }
        [a[..i]] + Split(rest + [sep] + b, sep);
        { SplitConcat(rest, sep, b); }
        [a[..i]] + (Split(rest, sep) + Split(b, sep));
        [a[..i]] + Split(rest, sep) + Split(b, sep);
        Split(a, sep) + Split(b, sep);
      }
    }
  }

  /** Splitting undoes joining when no part holds the separator. */
  lemma {:induction false} SplitJoin(parts: seq<string>, sep: char)
    requires parts != [] && forall p | p in parts :: sep !in p
    ensures Split(Join(parts, [sep]), sep) == parts
  {
    assert parts[0] in parts;
    if |parts| == 1 {
      assert IndexOf(parts[0], sep) == |parts[0]|;
      assert parts == [parts[0]];
    } else {
      SplitJoin(parts[1..], sep);
      SplitHead(parts[0], sep, Join(parts[1..], [sep]));
      assert parts == [parts[0]] + parts[1..];
    }
  }

  /** Joined lists of non-empty, separator-free parts are equal only when the lists are. */
  lemma JoinInjective(a: seq<string>, b: seq<string>, sep: char)
    requires forall p | p in a || p in b :: p != "" && sep !in p
    requires Join(a, [sep]) == Join(b, [sep])
    ensures a == b
  {
    assert a != [] ==> a[0] in a;
    assert b != [] ==> b[0] in b;
    if a != [] && b != [] {
      SplitJoin(a, sep);
      SplitJoin(b, sep);
    }
  }

  // ------------------------------------------------------------------ numbers

  predicate IsDigit(c: char) { '0' <= c <= '9' }

  predicate AllDigits(s: string) {
    s != [] && forall c | c in s :: IsDigit(c)
  }

  function DigitsValue(s: string): nat
    requires forall c | c in s :: IsDigit(c)
  {
    if s == [] then 0
    else
      assert IsDigit(s[|s| - 1]);
      DigitsValue(s[..|s| - 1]) * 10 + (s[|s| - 1] as int - '0' as int)
  }

  const MAX_INT64 := 0x7FFF_FFFF_FFFF_FFFF

  /** strconv.Atoi on a 64-bit platform: an optional sign, then decimal digits, in range. */
  function Atoi(s: string): Option<int> {
    var signed := s != [] && (s[0] == '-' || s[0] == '+');
    var body := if signed then s[1..] else s;
    if !AllDigits(body) then None
    else
      var n: int := DigitsValue(body);
      var v := if signed && s[0] == '-' then -n else n;
      if -MAX_INT64 - 1 <= v <= MAX_INT64 then Some(v) else None
  }

  predicate Numeric(s: string) { Atoi(s).Some? }

  /** A number is made of digits after at most one sign, so it holds none of the delimiters. */
  lemma NumericChars(s: string, c: char)
    requires Numeric(s) && !IsDigit(c) && c != '+' && c != '-'
    ensures s != [] && c !in s
  {
  }

  // -------------------------------------------------------------------- order

  /** Go's `<` on strings: lexicographic, unlike Dafny's prefix order. */
  predicate LexLess(a: string, b: string) {
    b != [] && (a == [] || a[0] < b[0] || (a[0] == b[0] && LexLess(a[1..], b[1..])))
  }

  lemma {:induction false} LexIrreflexive(a: string)
    ensures !LexLess(a, a)
  {
    if a != [] { LexIrreflexive(a[1..]); }
  }

  lemma {:induction false} LexTransitive(a: string, b: string, c: string)
    requires LexLess(a, b) && LexLess(b, c)
    ensures LexLess(a, c)
  {
    if a != [] && a[0] == b[0] == c[0] { LexTransitive(a[1..], b[1..], c[1..]); }
  }

  lemma {:induction false} LexTotal(a: string, b: string)
    ensures LexLess(a, b) || LexLess(b, a) || a == b
  {
    if a != [] && b != [] {
      LexTotal(a[1..], b[1..]);
      assert a == [a[0]] + a[1..] && b == [b[0]] + b[1..];
    }
  }

  /** `a` comes before `b` at position `k`: they agree up to there, and then `a` ends or has the smaller character. */
  ghost predicate BeforeAt(a: string, b: string, k: nat) {
    k <= |a| && k < |b| && a[..k] == b[..k] && (k == |a| || a[k] < b[k])
  }

  lemma {:induction false} LexExact(a: string, b: string)
    ensures LexLess(a, b) <==> exists k: nat :: BeforeAt(a, b, k)
  {
    if a != [] && b != [] && a[0] == b[0] {
      LexExact(a[1..], b[1..]);
      if k: nat :| BeforeAt(a[1..], b[1..], k) {
        assert a == [a[0]] + a[1..] && b == [b[0]] + b[1..];
        assert a[..k + 1] == [a[0]] + a[1..][..k] && b[..k + 1] == [b[0]] + b[1..][..k];
        assert BeforeAt(a, b, k + 1);
      }
      if k: nat :| BeforeAt(a, b, k) {
        assert k > 0 && a[1..][..k - 1] == a[..k][1..] && b[1..][..k - 1] == b[..k][1..];
        assert BeforeAt(a[1..], b[1..], k - 1);
      }
    } else if LexLess(a, b) {
      assert BeforeAt(a, b, 0);
    }
  }

  // --------------------------------------------------------- delimiter-joined keys

  /** A joined key determines its two halves when the first half is delimiter-free. */
  lemma KeyInjective(a: string, b: string, c: string, d: string, sep: char)
    requires a + [sep] + b == c + [sep] + d
    requires sep !in a && sep !in c
    ensures a == c && b == d
  {
    SplitHead(a, sep, b);
    SplitHead(c, sep, d);
    var s := a + [sep] + b;
    assert s[..|a|] == a && s[..|a|] == c;
    assert s[|a| + 1..] == b && s[|a| + 1..] == d;
  }

  /** ... and when both halves of one of the two keys are delimiter-free. */
  lemma KeyInjectiveOneSide(a: string, b: string, c: string, d: string, sep: char)
    requires a + [sep] + b == c + [sep] + d
    requires sep !in c && sep !in d
    ensures a == c && b == d
  {
    var s := a + [sep] + b;
    assert s[|a|] == sep;
    assert forall k | 0 <= k < |c| :: s[k] == c[k];
    assert forall k | 0 <= k < |d| :: s[|c| + 1 + k] == d[k];
    assert forall k | |c| < k < |s| :: s[k] == d[k - |c| - 1];
    assert s[..|a|] == a && s[..|a|] == c;
    assert s[|a| + 1..] == b && s[|a| + 1..] == d;
  }

  /** ... and also when both second halves are delimiter-free. */
  lemma KeyInjectiveRight(a: string, b: string, c: string, d: string, sep: char)
    requires a + [sep] + b == c + [sep] + d
    requires sep !in b && sep !in d
    ensures a == c && b == d
  {
    var s := a + [sep] + b;
    assert forall k | |a| < k < |s| :: s[k] == b[k - |a| - 1];
    assert forall k | |c| < k < |s| :: s[k] == d[k - |c| - 1];
    assert s[|a|] == sep && s[|c|] == sep;
    assert s[..|a|] == a && s[..|c|] == c;
    assert s[|a| + 1..] == b && s[|c| + 1..] == d;
  }
}
