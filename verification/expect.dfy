/** The expectation language of reachability probes: codes, ranges and classes in a comma list. */
module Expecting {
  import opened Text

  datatype CodeRange = CodeRange(lo: int, hi: int)

  predicate InRange(r: CodeRange, code: int) { r.lo <= code <= r.hi }

  predicate Accepts(ranges: seq<CodeRange>, code: int) {
    exists r | r in ranges :: InRange(r, code)
  }

  method Matches(ranges: seq<CodeRange>, code: int) returns (m: bool)
    ensures m == Accepts(ranges, code)
  {
    for k := 0 to |ranges|
      invariant forall l | 0 <= l < k :: !InRange(ranges[l], code)
    {
      if code >= ranges[k].lo && code <= ranges[k].hi {
        assert ranges[k] in ranges && InRange(ranges[k], code);
        return true;
      }
    }
    return false;
  }

  const DEFAULT_EXPECT := "200"
  const DEFAULT_RANGES := [CodeRange(200, 200)]

  /** A trimmed HTTP status code, 100 to 599. */
  function ParseCode(s: string): Option<int> {
    match Atoi(TrimSpace(s))
    case Some(n) => if n < 100 || n > 599 then None else Some(n)
    case None => None
  }

  function ParseTerm(term: string): Option<CodeRange> {
    var i := IndexOf(term, '-');
    if i < |term| then
      match (ParseCode(term[..i]), ParseCode(term[i + 1..]))
      case (Some(lo), Some(hi)) => if lo > hi then None else Some(CodeRange(lo, hi))
      case _ => None
    else if |term| == 3 && (HasSuffix(term, "xx") || HasSuffix(term, "XX")) then
      var d := term[0];
      if d < '1' || d > '5' then None
      else
        var base := (d as int - '0' as int) * 100;
        Some(CodeRange(base, base + 99))
    else
      match ParseCode(term)
      case Some(c) => Some(CodeRange(c, c))
      case None => None
  }

  /** How one term of the list reads. */
  datatype Term = Skipped | Bad | Codes(range: CodeRange)

  function ReadTerm(raw: string): Term {
    var term := TrimSpace(raw);
    if term == "" then Skipped
    else
      match ParseTerm(term)
      case Some(r) => Codes(r)
      case None => Bad
  }

  /** The ranges of a list of terms; blank terms are skipped, one malformed term spoils the list. */
  function ParseTerms(read: string -> Term, terms: seq<string>): Option<seq<CodeRange>> {
    if terms == [] then Some([])
    else
      match (ParseTerms(read, terms[..|terms| - 1]), read(terms[|terms| - 1]))
      case (Some(ranges), Skipped) => Some(ranges)
      case (Some(ranges), Codes(r)) => Some(ranges + [r])
      case _ => None
  }

  /** The matcher, the text to show for it, and whether the annotation parsed cleanly. */
  datatype Expectation = Expectation(ranges: seq<CodeRange>, resolved: string, ok: bool)

  function Parsed(raw: string): Expectation {
    var text := TrimSpace(raw);
    if text == "" then Expectation(DEFAULT_RANGES, DEFAULT_EXPECT, true)
    else
      var ranges := ParseTerms(ReadTerm, Split(text, ','));
      if ranges == None || ranges.value == [] then Expectation(DEFAULT_RANGES, DEFAULT_EXPECT, false)
      else Expectation(ranges.value, text, true)
  }

  lemma {:induction false} ParseTermsPrefix(read: string -> Term, terms: seq<string>, k: nat)
    requires k <= |terms| && ParseTerms(read, terms[..k]) == None
    ensures ParseTerms(read, terms) == None
    decreases |terms| - k
  {
    if k < |terms| {
      assert terms[..k + 1][..k] == terms[..k];
      ParseTermsPrefix(read, terms, k + 1);
    } else {
      assert terms[..k] == terms;
    }
  }

  method CollectTerms(read: string -> Term, terms: seq<string>) returns (result: Option<seq<CodeRange>>)
    ensures result == ParseTerms(read, terms)
  {
    var ranges := [];
    for k := 0 to |terms|
      invariant ParseTerms(read, terms[..k]) == Some(ranges)
    {
      assert terms[..k + 1][..k] == terms[..k];
      match read(terms[k]) {
        case Skipped =>
        case Codes(r) => ranges := ranges + [r];
        case Bad =>
          ParseTermsPrefix(read, terms, k + 1);
          return None;
      }
    }
    assert terms[..|terms|] == terms;
    return Some(ranges);
  }

  method ParseExpect(raw: string) returns (e: Expectation)
    ensures e == Parsed(raw)
  {
    var text := TrimSpace(raw);
    if text == "" { return Expectation(DEFAULT_RANGES, DEFAULT_EXPECT, true); }
    var ranges := CollectTerms(ReadTerm, Split(text, ','));
    if ranges == None || ranges.value == [] { return Expectation(DEFAULT_RANGES, DEFAULT_EXPECT, false); }
    return Expectation(ranges.value, text, true);
  }

  // ------------------------------------------------------------------ soundness

  predicate StatusRange(r: CodeRange) { 100 <= r.lo <= r.hi <= 599 }

  lemma TermInRange(raw: string)
    ensures ReadTerm(raw).Codes? ==> StatusRange(ReadTerm(raw).range)
  {
  }

  lemma {:induction false} TermsInRange(read: string -> Term, terms: seq<string>)
    requires forall t :: read(t).Codes? ==> StatusRange(read(t).range)
    ensures ParseTerms(read, terms).Some? ==> forall r | r in ParseTerms(read, terms).value :: StatusRange(r)
  {
    if terms != [] { TermsInRange(read, terms[..|terms| - 1]); }
  }

  /** Whatever the annotation says, only real HTTP status codes are ever accepted. */
  lemma AcceptedCodes(raw: string, code: int)
    requires Accepts(Parsed(raw).ranges, code)
    ensures 100 <= code <= 599
  {
    forall t { TermInRange(t); }
    TermsInRange(ReadTerm, Split(TrimSpace(raw), ','));
  }

  lemma {:induction false} TermsFail(read: string -> Term, terms: seq<string>)
    ensures ParseTerms(read, terms) == None <==> exists k :: 0 <= k < |terms| && read(terms[k]).Bad?
    ensures ParseTerms(read, terms) == Some([]) <==> forall k | 0 <= k < |terms| :: read(terms[k]).Skipped?
  {
    if terms != [] {
      var n := |terms| - 1;
      TermsFail(read, terms[..n]);
      assert forall k | 0 <= k < n :: terms[..n][k] == terms[k];
    }
  }

  /** An annotation is unclean exactly when it is not blank and either some term is malformed or all terms are
      blank; the matcher is then exactly {200}. */
  lemma CleanExactly(raw: string)
    ensures
      var terms := Split(TrimSpace(raw), ',');
      var malformed := exists k :: 0 <= k < |terms| && ReadTerm(terms[k]).Bad?;
      var nothing := forall k | 0 <= k < |terms| :: ReadTerm(terms[k]).Skipped?;
      !Parsed(raw).ok <==> (TrimSpace(raw) != "" && (malformed || nothing))
    ensures !Parsed(raw).ok || TrimSpace(raw) == "" ==> Parsed(raw).ranges == [CodeRange(200, 200)]
    ensures Parsed(raw).resolved == if !Parsed(raw).ok || TrimSpace(raw) == "" then "200" else TrimSpace(raw)
  {
    TermsFail(ReadTerm, Split(TrimSpace(raw), ','));
  }

  // ---------------------------------------------------------------------- unions

  lemma {:induction false} ParseTermsAppend(read: string -> Term, a: seq<string>, b: seq<string>)
    requires ParseTerms(read, a).Some? && ParseTerms(read, b).Some?
    ensures ParseTerms(read, a + b) == Some(ParseTerms(read, a).value + ParseTerms(read, b).value)
  {
    if b == [] {
      assert a + b == a && ParseTerms(read, a).value + [] == ParseTerms(read, a).value;
    } else {
      var c, front := a + b, b[..|b| - 1];
      assert c[..|c| - 1] == a + front && c[|c| - 1] == b[|b| - 1];
      ParseTermsAppend(read, a, front);
      var ra, rb := ParseTerms(read, a).value, ParseTerms(read, front).value;
      assert forall r :: (ra + rb) + [r] == ra + (rb + [r]);
    }
  }

  lemma {:induction false} SameTerms(read: string -> Term, a: seq<string>, b: seq<string>)
    requires |a| == |b| && forall k | 0 <= k < |a| :: read(a[k]) == read(b[k])
    ensures ParseTerms(read, a) == ParseTerms(read, b)
  {
    if a != [] { SameTerms(read, a[..|a| - 1], b[..|b| - 1]); }
  }

  predicate Blank(s: string) { forall c | c in s :: IsSpace(c) }

  lemma {:induction false} SplitPadLeft(w: string, s: string)
    requires ',' !in w
    ensures Split(w + s, ',') == [w + Split(s, ',')[0]] + Split(s, ',')[1..]
  {
    var i := IndexOf(s, ',');
    if i < |s| {
      assert s == s[..i] + [','] + s[i + 1..];
      assert w + s == (w + s[..i]) + [','] + s[i + 1..];
      SplitHead(w + s[..i], ',', s[i + 1..]);
    } else {
      assert ',' !in w + s;
      assert IndexOf(w + s, ',') == |w + s|;
    }
  }

  lemma PadLast(head: string, parts: seq<string>, v: string)
    requires parts != []
    ensures
      var n, all := |parts| - 1, [head] + parts;
      all[..|all| - 1] + [all[|all| - 1] + v] == [head] + (parts[..n] + [parts[n] + v])
  {
  }

  lemma {:induction false} SplitPadRight(s: string, v: string)
    requires ',' !in v
    ensures
      var parts := Split(s, ',');
      Split(s + v, ',') == parts[..|parts| - 1] + [parts[|parts| - 1] + v]
    decreases |s|
  {
    var i := IndexOf(s, ',');
    if i < |s| {
      var head, rest := s[..i], s[i + 1..];
      SplitPadRight(rest, v);
      CutPadded(s, i, v);
      SplitHead(head, ',', rest + v);
      PadLast(head, Split(rest, ','), v);
    } else {
      assert ',' !in s + v;
      assert IndexOf(s + v, ',') == |s + v|;
    }
  }

  lemma CutPadded(s: string, i: nat, v: string)
    requires i < |s|
    ensures s + v == s[..i] + [s[i]] + (s[i + 1..] + v)
  {
  }

  lemma {:induction false} TrimLeftBlank(w: string, s: string)
    requires Blank(w)
    ensures TrimLeft(IsSpace, w + s) == TrimLeft(IsSpace, s)
  {
    if w == [] {
      assert w + s == s;
    } else {
      assert (w + s)[1..] == w[1..] + s;
      TrimLeftBlank(w[1..], s);
    }
  }

  lemma {:induction false} TrimRightBlank(s: string, v: string)
    requires Blank(v)
    ensures TrimRight(IsSpace, s + v) == TrimRight(IsSpace, s)
  {
    if v == [] {
      assert s + v == s;
    } else {
      assert (s + v)[..|s + v| - 1] == s + v[..|v| - 1];
      TrimRightBlank(s, v[..|v| - 1]);
    }
  }

  lemma {:induction false} TrimLeftSplit(s: string) returns (w: string)
    ensures s == w + TrimLeft(IsSpace, s) && Blank(w)
  {
    if |s| > 0 && IsSpace(s[0]) {
      var rest := TrimLeftSplit(s[1..]);
      BlankCons(s[0], rest);
      w := [s[0]] + rest;
      assert s == [s[0]] + s[1..];
    } else {
      w := [];
    }
  }

  lemma BlankCons(c: char, w: string)
    requires IsSpace(c) && Blank(w)
    ensures Blank([c] + w)
  {
  }

  lemma {:induction false} TrimRightSplit(s: string) returns (v: string)
    ensures s == TrimRight(IsSpace, s) + v && Blank(v)
  {
    if s != [] && IsSpace(s[|s| - 1]) {
      v := TrimRightSplit(s[..|s| - 1]);
      v := v + [s[|s| - 1]];
      assert s == s[..|s| - 1] + [s[|s| - 1]];
    } else {
      v := [];
    }
  }

  lemma TrimPadRight(s: string, v: string)
    requires Blank(v)
    ensures TrimSpace(s + v) == TrimSpace(s)
  {
    var w := TrimLeftSplit(s);
    var core := TrimLeft(IsSpace, s);
    if core == [] {
      assert s + v == (w + v) + [];
      TrimLeftBlank(w + v, []);
    } else {
      assert s + v == w + (core + v);
      TrimLeftBlank(w, core + v);
      assert TrimLeft(IsSpace, core + v) == core + v;
      TrimRightBlank(core, v);
    }
  }

  lemma TrimPadLeft(w: string, s: string)
    requires Blank(w)
    ensures TrimSpace(w + s) == TrimSpace(s)
  {
    TrimLeftBlank(w, s);
  }

  lemma TermsPadRight(read: string -> Term, s: string, v: string)
    requires ',' !in v && forall x :: read(x + v) == read(x)
    ensures ParseTerms(read, Split(s + v, ',')) == ParseTerms(read, Split(s, ','))
  {
    SplitPadRight(s, v);
    SameTerms(read, Split(s, ','), Split(s + v, ','));
  }

  lemma TermsPadLeft(read: string -> Term, w: string, s: string)
    requires ',' !in w && forall x :: read(w + x) == read(x)
    ensures ParseTerms(read, Split(w + s, ',')) == ParseTerms(read, Split(s, ','))
  {
    SplitPadLeft(w, s);
    SameTerms(read, Split(s, ','), Split(w + s, ','));
  }

  /** Blanks around the whole annotation do not change its terms. */
  lemma TermsOfTrimmed(raw: string)
    ensures ParseTerms(ReadTerm, Split(TrimSpace(raw), ',')) == ParseTerms(ReadTerm, Split(raw, ','))
  {
    var w := TrimLeftSplit(raw);
    var mid := TrimLeft(IsSpace, raw);
    var v := TrimRightSplit(mid);
    BlankRight(TrimSpace(raw), v);
    BlankLeft(w, mid);
  }

  lemma BlankRight(s: string, v: string)
    requires Blank(v)
    ensures ParseTerms(ReadTerm, Split(s + v, ',')) == ParseTerms(ReadTerm, Split(s, ','))
  {
    forall x ensures ReadTerm(x + v) == ReadTerm(x) { TrimPadRight(x, v); }
    TermsPadRight(ReadTerm, s, v);
  }

  lemma BlankLeft(w: string, s: string)
    requires Blank(w)
    ensures ParseTerms(ReadTerm, Split(w + s, ',')) == ParseTerms(ReadTerm, Split(s, ','))
  {
    forall x ensures ReadTerm(w + x) == ReadTerm(x) { TrimPadLeft(w, x); }
    TermsPadLeft(ReadTerm, w, s);
  }

  lemma TrimmedAway(s: string)
    requires TrimSpace(s) == ""
    ensures Blank(s)
  {
    var w := TrimLeftSplit(s);
    var v := TrimRightSplit(TrimLeft(IsSpace, s));
    assert s == w + v;
  }

  lemma CommaNotBlank(a: string, b: string)
    ensures TrimSpace(a + "," + b) != ""
  {
    var s := a + "," + b;
    assert s[|a|] == ',' && s[|a|] in s;
    if TrimSpace(s) == "" { TrimmedAway(s); }
  }

  /** Joining two clean annotations with a comma accepts exactly what either accepts. */
  lemma UnionOfExpectations(a: string, b: string)
    requires TrimSpace(a) != "" && TrimSpace(b) != "" && Parsed(a).ok && Parsed(b).ok
    ensures Parsed(a + "," + b).ok
    ensures Parsed(a + "," + b).ranges == Parsed(a).ranges + Parsed(b).ranges
    ensures forall code :: Accepts(Parsed(a + "," + b).ranges, code) <==>
                           Accepts(Parsed(a).ranges, code) || Accepts(Parsed(b).ranges, code)
  {
    ParsedTerms(a);
    ParsedTerms(b);
    ParsedTerms(a + "," + b);
    assert a + "," + b == a + [','] + b;
    SplitConcat(a, ',', b);
    ParseTermsAppend(ReadTerm, Split(a, ','), Split(b, ','));
    CommaNotBlank(a, b);
    AcceptsEither(Parsed(a).ranges, Parsed(b).ranges);
  }

  /** A clean annotation that is not blank is its list of terms. */
  lemma ParsedTerms(raw: string)
    ensures
      var ranges := ParseTerms(ReadTerm, Split(raw, ','));
      && (TrimSpace(raw) != "" ==> (Parsed(raw).ok <==> ranges.Some? && ranges.value != []))
      && (TrimSpace(raw) != "" && Parsed(raw).ok ==> ranges == Some(Parsed(raw).ranges))
  {
    TermsOfTrimmed(raw);
  }

  lemma AcceptsEither(u: seq<CodeRange>, v: seq<CodeRange>)
    ensures forall code :: Accepts(u + v, code) <==> Accepts(u, code) || Accepts(v, code)
  {
  }

  // ----------------------------------------------------------------- round trip

  function Digit(d: int): char
    requires 0 <= d <= 9
  {
    ('0' as int + d) as char
  }

  /** A status code in three digits. */
  function PrintCode(n: int): (s: string)
    requires 100 <= n <= 599
    ensures |s| == 3 && forall c | c in s :: IsDigit(c)
  {
    [Digit(n / 100), Digit(n / 10 % 10), Digit(n % 10)]
  }

  /** What a term can say: a code, a span of codes, with blanks around its dash, or a class in either letter case. */
  datatype Item = One(code: int) | Span(lo: int, hi: int, gap: string) | Class(digit: int, upper: bool)

  /** A term of an annotation, or none, between blanks. */
  datatype Entry = Entry(before: string, item: Option<Item>, after: string)

  predicate StatusItem(i: Item) {
    match i
    case One(code) => 100 <= code <= 599
    case Span(lo, hi, gap) => 100 <= lo <= hi <= 599 && Blank(gap)
    case Class(digit, _) => 1 <= digit <= 5
  }

  predicate StatusEntry(e: Entry) {
    Blank(e.before) && Blank(e.after) && (e.item.Some? ==> StatusItem(e.item.value))
  }

  /** The codes that a term stands for. */
  predicate Means(i: Item, code: int) {
    match i
    case One(c) => code == c
    case Span(lo, hi, _) => lo <= code <= hi
    case Class(digit, _) => code / 100 == digit
  }

  function RangeOf(i: Item): CodeRange {
    match i
    case One(c) => CodeRange(c, c)
    case Span(lo, hi, _) => CodeRange(lo, hi)
    case Class(digit, _) => CodeRange(digit * 100, digit * 100 + 99)
  }

  function PrintItem(i: Item): string
    requires StatusItem(i)
  {
    match i
    case One(code) => PrintCode(code)
    case Span(lo, hi, gap) => PrintCode(lo) + gap + "-" + (gap + PrintCode(hi))
    case Class(digit, upper) => [Digit(digit)] + (if upper then "XX" else "xx")
  }

  function PrintEntry(e: Entry): string
    requires StatusEntry(e)
  {
    e.before + (if e.item.Some? then PrintItem(e.item.value) else "") + e.after
  }

  function PrintEntries(entries: seq<Entry>): seq<string>
    requires forall e | e in entries :: StatusEntry(e)
  {
    if entries == [] then []
    else
      assert entries[|entries| - 1] in entries;
      PrintEntries(entries[..|entries| - 1]) + [PrintEntry(entries[|entries| - 1])]
  }

  function RangesOf(entries: seq<Entry>): seq<CodeRange> {
    if entries == [] then []
    else
      var last := entries[|entries| - 1];
      RangesOf(entries[..|entries| - 1]) + (if last.item.Some? then [RangeOf(last.item.value)] else [])
  }

  lemma PrintedValue(n: int)
    requires 100 <= n <= 599
    ensures DigitsValue(PrintCode(n)) == n
  {
    ThreeDigits(PrintCode(n));
    assert n == n / 100 * 100 + n / 10 % 10 * 10 + n % 10;
  }

  lemma CodeRoundTrip(n: int)
    requires 100 <= n <= 599
    ensures ParseCode(PrintCode(n)) == Some(n) && TrimSpace(PrintCode(n)) == PrintCode(n)
  {
    PrintedValue(n);
    DigitsTrimmed(PrintCode(n));
    DigitsNumber(PrintCode(n));
  }

  lemma DigitsTrimmed(s: string)
    requires |s| == 3 && forall c | c in s :: IsDigit(c)
    ensures TrimSpace(s) == s
  {
    assert IsDigit(s[0]) && IsDigit(s[2]);
    TrimSpacePadded("", s, "");
    assert "" + s + "" == s;
  }

  lemma DigitsNumber(s: string)
    requires AllDigits(s) && DigitsValue(s) <= 999
    ensures Atoi(s) == Some(DigitsValue(s))
  {
    assert s[0] in s;
  }

  lemma ThreeDigits(s: string)
    requires |s| == 3 && forall c | c in s :: IsDigit(c)
    ensures DigitsValue(s) == (s[0] as int - 48) * 100 + (s[1] as int - 48) * 10 + (s[2] as int - 48)
  {
    assert s[..2][..1] == s[..1] && s[..1][..0] == [];
    assert DigitsValue(s[..1]) == s[0] as int - 48;
    assert DigitsValue(s[..2]) == (s[0] as int - 48) * 10 + (s[1] as int - 48);
  }

  lemma ItemRoundTrip(i: Item)
    requires StatusItem(i)
    ensures ReadTerm(PrintItem(i)) == Codes(RangeOf(i)) && ',' !in PrintItem(i) && PrintItem(i) != ""
  {
    match i
    case One(code) =>
      CodeRoundTrip(code);
      SingleCode(PrintCode(code));
    case Span(lo, hi, gap) =>
      CodeRoundTrip(lo);
      CodeRoundTrip(hi);
      CodePair(PrintCode(lo), PrintCode(hi), gap);
      TrimPadRight(PrintCode(lo), gap);
      TrimPadLeft(gap, PrintCode(hi));
    case Class(digit, upper) =>
      ClassTerm(Digit(digit), if upper then "XX" else "xx");
  }

  /** A digit with two letters after it is a class if the letters are in one case and the digit is from 1 to 5. */
  lemma ClassTerm(d: char, suffix: string)
    requires IsDigit(d) && suffix in {"xx", "XX", "xX", "Xx"}
    ensures
      var term := [d] + suffix;
      && TrimSpace(term) == term && ',' !in term
      && ReadTerm(term) ==
         if suffix in {"xx", "XX"} && '1' <= d <= '5' then Codes(RangeOf(Class(d as int - '0' as int, suffix == "XX")))
         else Bad
  {
    var term := [d] + suffix;
    ClassTrimmed(d, suffix);
    assert '-' !in term && IndexOf(term, '-') == 3;
    assert term[1..] == suffix && term[0] == d && term[1] == suffix[0];
    assert !IsDigit(term[1]) && term[1] in term && term[1] in term[1..];
    assert ParseCode(term) == None;
  }

  lemma ClassTrimmed(d: char, suffix: string)
    requires IsDigit(d) && suffix in {"xx", "XX", "xX", "Xx"}
    ensures TrimSpace([d] + suffix) == [d] + suffix && ',' !in [d] + suffix
  {
    var term := [d] + suffix;
    assert term[0] == d && term[2] == suffix[1];
    TrimSpacePadded("", term, "");
    assert "" + term + "" == term;
  }

  lemma SingleCode(s: string)
    requires |s| == 3 && forall c | c in s :: IsDigit(c)
    ensures ParseTerm(s) == match ParseCode(s) case Some(c) => Some(CodeRange(c, c)) case None => None
  {
    assert '-' !in s;
    assert IndexOf(s, '-') == 3;
    assert IsDigit(s[2]) && s[1..][1] == s[2];
  }

  lemma CodePair(lo: string, hi: string, gap: string)
    requires |lo| == |hi| == 3 && (forall c | c in lo :: IsDigit(c)) && (forall c | c in hi :: IsDigit(c)) && Blank(gap)
    ensures
      var s := lo + gap + "-" + (gap + hi);
      && IndexOf(s, '-') == 3 + |gap| && s[..3 + |gap|] == lo + gap && s[4 + |gap|..] == gap + hi
      && TrimSpace(s) == s && ',' !in s
  {
    var s := lo + gap + "-" + (gap + hi);
    assert '-' !in lo + gap;
    assert s == (lo + gap) + ['-'] + (gap + hi);
    IndexOfFirst(lo + gap, '-', gap + hi);
    PairTrimmed(lo, hi, gap + "-" + gap);
    assert s == lo + (gap + "-" + gap) + hi;
    assert ',' !in lo && ',' !in hi && ',' !in gap;
  }

  lemma PairTrimmed(lo: string, hi: string, mid: string)
    requires |lo| == |hi| == 3 && (forall c | c in lo :: IsDigit(c)) && (forall c | c in hi :: IsDigit(c))
    ensures TrimSpace(lo + mid + hi) == lo + mid + hi
  {
    var s := lo + mid + hi;
    assert s[0] == lo[0] && s[|s| - 1] == hi[2] && IsDigit(lo[0]) && IsDigit(hi[2]);
    TrimSpacePadded("", s, "");
    assert "" + s + "" == s;
  }

  /** Blanks around a term do not matter, and blanks alone are skipped. */
  lemma EntryRoundTrip(e: Entry)
    requires StatusEntry(e)
    ensures ReadTerm(PrintEntry(e)) == if e.item.Some? then Codes(RangeOf(e.item.value)) else Skipped
    ensures ',' !in PrintEntry(e)
  {
    var text := if e.item.Some? then PrintItem(e.item.value) else "";
    if e.item.Some? { ItemRoundTrip(e.item.value); }
    TrimPadRight(e.before + text, e.after);
    TrimPadLeft(e.before, text);
    assert ',' !in e.before && ',' !in e.after;
  }

  lemma OneMoreTerm(read: string -> Term, terms: seq<string>, term: string, ranges: seq<CodeRange>, r: CodeRange)
    requires ParseTerms(read, terms) == Some(ranges) && read(term) == Codes(r)
    ensures ParseTerms(read, terms + [term]) == Some(ranges + [r])
  {
  }

  lemma SkippedTerm(read: string -> Term, terms: seq<string>, term: string)
    requires read(term).Skipped? && ParseTerms(read, terms).Some?
    ensures ParseTerms(read, terms + [term]) == ParseTerms(read, terms)
  {
  }

  lemma {:induction false} EntriesRoundTrip(entries: seq<Entry>)
    requires forall e | e in entries :: StatusEntry(e)
    ensures |PrintEntries(entries)| == |entries| &&
            ParseTerms(ReadTerm, PrintEntries(entries)) == Some(RangesOf(entries))
    ensures forall t | t in PrintEntries(entries) :: ',' !in t
  {
    if entries != [] {
      var n := |entries| - 1;
      var front, last := entries[..n], entries[n];
      assert last in entries && entries == front + [last];
      EntriesRoundTrip(front);
      EntryRoundTrip(last);
      if last.item.Some? {
        OneMoreTerm(ReadTerm, PrintEntries(front), PrintEntry(last), RangesOf(front), RangeOf(last.item.value));
      } else {
        SkippedTerm(ReadTerm, PrintEntries(front), PrintEntry(last));
        assert RangesOf(front) + [] == RangesOf(front);
      }
    }
  }

  /** Some term of the list stands for the code. */
  predicate Listed(entries: seq<Entry>, code: int) {
    exists e | e in entries :: e.item.Some? && Means(e.item.value, code)
  }

  lemma {:induction false} RangesMean(entries: seq<Entry>, code: int)
    requires forall e | e in entries :: StatusEntry(e)
    ensures Accepts(RangesOf(entries), code) <==> Listed(entries, code)
    ensures RangesOf(entries) == [] <==> forall e | e in entries :: e.item == None
  {
    if entries != [] {
      var n := |entries| - 1;
      assert entries[n] in entries && entries == entries[..n] + [entries[n]];
      RangesMean(entries[..n], code);
      if entries[n].item.Some? {
        AcceptsEither(RangesOf(entries[..n]), [RangeOf(entries[n].item.value)]);
        AcceptsOne(entries[n].item.value, code);
      }
    }
  }

  /** Printing any list of codes, spans and classes, with blanks wherever they may stand and blank terms in between, and
      parsing it gives a clean matcher that accepts exactly the codes that some term of the list stands for. */
  lemma ExpectationRoundTrip(entries: seq<Entry>)
    requires (forall e | e in entries :: StatusEntry(e)) && exists e :: e in entries && e.item.Some?
    ensures Parsed(Join(PrintEntries(entries), ",")).ok
    ensures Parsed(Join(PrintEntries(entries), ",")).ranges == RangesOf(entries)
    ensures forall code :: Accepts(Parsed(Join(PrintEntries(entries), ",")).ranges, code) <==> Listed(entries, code)
  {
    EntriesRoundTrip(entries);
    var parts := PrintEntries(entries);
    RangesMean(entries, 0);
    SplitJoin(parts, ',');
    TermsNotBlank(Join(parts, ","));
    ParsedTerms(Join(parts, ","));
    forall code { RangesMean(entries, code); }
  }

  lemma OneTerm(term: string)
    requires ',' !in term && term != "" && TrimSpace(term) == term
    ensures Parsed(term).ok <==> ReadTerm(term).Codes?
    ensures ReadTerm(term).Codes? ==> Parsed(term).ranges == [ReadTerm(term).range]
  {
    assert Split(term, ',') == [term] by { assert IndexOf(term, ',') == |term|; }
    assert [term][..0] == [];
    assert ParseTerms(ReadTerm, []) == Some([]);
  }

  /** The class shorthand: clean exactly for the digits 1 to 5 with both letters in one case, and then it accepts
      exactly the codes of that hundred. */
  lemma ClassShorthand(d: char, suffix: string)
    requires IsDigit(d) && suffix in {"xx", "XX", "xX", "Xx"}
    ensures Parsed([d] + suffix).ok <==> suffix in {"xx", "XX"} && '1' <= d <= '5'
    ensures Parsed([d] + suffix).ok ==>
              forall code :: Accepts(Parsed([d] + suffix).ranges, code) <==> code / 100 == d as int - '0' as int
  {
    ClassTerm(d, suffix);
    OneTerm([d] + suffix);
    if Parsed([d] + suffix).ok {
      var item := Class(d as int - '0' as int, suffix == "XX");
      forall code ensures Accepts([RangeOf(item)], code) <==> code / 100 == item.digit { AcceptsOne(item, code); }
    }
  }

  lemma AcceptsOne(i: Item, code: int)
    requires StatusItem(i)
    ensures Accepts([RangeOf(i)], code) <==> Means(i, code)
  {
    assert RangeOf(i) in [RangeOf(i)];
    assert InRange(RangeOf(i), code) <==> Means(i, code);
  }

  /** A span is clean exactly when it is not reversed, a code exactly when it is a status code. */
  lemma SpanInOrder(lo: int, hi: int)
    requires 100 <= lo <= 599 && 100 <= hi <= 599
    ensures Parsed(PrintCode(lo) + "-" + PrintCode(hi)).ok <==> lo <= hi
  {
    CodeRoundTrip(lo);
    CodeRoundTrip(hi);
    CodePair(PrintCode(lo), PrintCode(hi), "");
    assert PrintCode(lo) + "" + "-" + ("" + PrintCode(hi)) == PrintCode(lo) + "-" + PrintCode(hi);
    assert PrintCode(lo) + "" == PrintCode(lo) && "" + PrintCode(hi) == PrintCode(hi);
    OneTerm(PrintCode(lo) + "-" + PrintCode(hi));
  }

  lemma CodeInBounds(s: string)
    requires |s| == 3 && forall c | c in s :: IsDigit(c)
    ensures Parsed(s).ok <==> 100 <= DigitsValue(s) <= 599
  {
    ThreeDigits(s);
    assert IsDigit(s[0]) && IsDigit(s[1]) && IsDigit(s[2]);
    DigitsTrimmed(s);
    DigitsNumber(s);
    SingleCode(s);
    assert ',' !in s;
    OneTerm(s);
  }

  lemma TermsNotBlank(raw: string)
    requires ParseTerms(ReadTerm, Split(raw, ',')) != Some([])
    ensures TrimSpace(raw) != ""
  {
    TermsOfTrimmed(raw);
    NoTerms();
  }

  lemma NoTerms()
    ensures ParseTerms(ReadTerm, Split("", ',')) == Some([])
  {
    assert Split("", ',') == [""];
    SkippedAlone(ReadTerm, "");
  }

  lemma SkippedAlone(read: string -> Term, text: string)
    requires read(text).Skipped?
    ensures ParseTerms(read, [text]) == Some([])
  {
    assert [text][..0] == [];
  }
}
