/** The checkpoint signature of a run: one string for everything that shapes the analysis graph. */
module Signature {
  import opened Basics
  import opened Ordering

  datatype Inputs = Inputs(
    graph: string, ticker: string, date: string, asset: string, analysts: seq<string>, depth: int,
    language: Option<string>, provider: Option<string>, quick: Option<string>, deep: Option<string>)

  /** `sep.join(parts)`. */
  function Join(sep: char, parts: seq<string>): string {
    if parts == [] then "" else if |parts| == 1 then parts[0] else parts[0] + [sep] + Join(sep, parts[1..])
  }

  function OrEmpty(o: Option<string>): string { if o.Some? then o.value else "" }

  function Digit(d: nat): char
    requires d < 10
  {
    ('0' as int + d) as char
  }

  function Decimal(n: nat): string { if n < 10 then [Digit(n)] else Decimal(n / 10) + [Digit(n % 10)] }

  /** `str` of an integer. */
  function Number(n: int): string { if n < 0 then "-" + Decimal(-n) else Decimal(n) }

  function Parts(i: Inputs): seq<string> {
    ["graph=" + i.graph, "ticker=" + Upper(i.ticker), "date=" + i.date, "asset=" + i.asset,
     "analysts=" + Join(',', Sort(i.analysts)), "depth=" + Number(i.depth), "lang=" + OrEmpty(i.language),
     "provider=" + OrEmpty(i.provider), "quick=" + OrEmpty(i.quick), "deep=" + OrEmpty(i.deep)]
  }

  /** `build_checkpoint_signature`. */
  function Signature(i: Inputs): string { Join('|', Parts(i)) }

  // ---- reading a joined string back ----

  predicate Without(s: string, c: char) { forall i :: 0 <= i < |s| ==> s[i] != c }

  ghost predicate AllWithout(parts: seq<string>, c: char) { forall i :: 0 <= i < |parts| ==> Without(parts[i], c) }

  function Split(sep: char, s: string): (parts: seq<string>)
    ensures parts != []
  {
    if s == "" then [""]
    else
      var rest := Split(sep, s[1..]);
      if s[0] == sep then [""] + rest else [[s[0]] + rest[0]] + rest[1..]
  }

  lemma {:induction false} SplitOne(sep: char, s: string)
    requires Without(s, sep)
    ensures Split(sep, s) == [s]
  {
    if s != "" {
      SplitOne(sep, s[1..]);
      assert s == [s[0]] + s[1..];
    }
  }

  lemma {:induction false} SplitFirst(sep: char, s: string, t: string)
    requires Without(s, sep)
    ensures Split(sep, s + [sep] + t) == [s] + Split(sep, t)
  {
    var u := s + [sep] + t;
    if s == "" {
      assert u == [sep] + t && u[1..] == t;
    } else {
      assert u[1..] == s[1..] + [sep] + t;
      SplitFirst(sep, s[1..], t);
      assert s == [s[0]] + s[1..];
    }
  }

  /** Splitting undoes joining, unless a part contains the separator. */
  lemma {:induction false} SplitJoin(sep: char, parts: seq<string>)
    requires parts != [] && AllWithout(parts, sep)
    ensures Split(sep, Join(sep, parts)) == parts
  {
    if |parts| == 1 {
      SplitOne(sep, parts[0]);
    } else {
      SplitJoin(sep, parts[1..]);
      SplitFirst(sep, parts[0], Join(sep, parts[1..]));
    }
  }

  /** Joined lists are equal only for equal lists, and for no part at all versus one empty part. */
  lemma JoinInjective(sep: char, a: seq<string>, b: seq<string>)
    requires AllWithout(a, sep) && AllWithout(b, sep) && Join(sep, a) == Join(sep, b)
    ensures a == b || (a == [] && b == [""]) || (a == [""] && b == [])
  {
    if a != [] && b != [] {
      SplitJoin(sep, a);
      SplitJoin(sep, b);
    } else if a != [] {
      SplitJoin(sep, a);
    } else if b != [] {
      SplitJoin(sep, b);
    }
  }

  lemma {:induction false} JoinWithout(sep: char, parts: seq<string>, c: char)
    requires sep != c && AllWithout(parts, c)
    ensures Without(Join(sep, parts), c)
  {
    if |parts| > 1 { JoinWithout(sep, parts[1..], c); }
  }

  // ---- numbers ----

  function Value(s: string): nat {
    if s == "" then 0
    else
      var d := s[|s| - 1] as int - '0' as int;
      10 * Value(s[..|s| - 1]) + if d > 0 then d else 0
  }

  lemma {:induction false} DecimalReads(n: nat)
    ensures Value(Decimal(n)) == n && Decimal(n) != "" && forall i :: 0 <= i < |Decimal(n)| ==> '0' <= Decimal(n)[i] <= '9'
  {
    if n < 10 {
      assert Decimal(n)[..0] == "";
    } else {
      DecimalReads(n / 10);
      var s := Decimal(n);
      assert s[..|s| - 1] == Decimal(n / 10);
    }
  }

  lemma {:induction false} NoLeadingZero(n: nat)
    ensures n > 0 ==> Decimal(n)[0] != '0'
  {
    DecimalReads(n);
    if n >= 10 {
      NoLeadingZero(n / 10);
      DecimalReads(n / 10);
    }
  }

  /** A number is written with digits that read back as it, without a leading zero, and with a minus sign only below zero. */
  lemma NumberReads(n: int)
    ensures n >= 0 ==> Value(Number(n)) == n && Number(n) != "" && (forall i :: 0 <= i < |Number(n)| ==> '0' <= Number(n)[i] <= '9')
                       && (Number(n)[0] == '0' ==> n == 0 && Number(n) == "0")
    ensures n < 0 ==> Number(n) == "-" + Number(-n)
  {
    if n >= 0 {
      DecimalReads(n);
      NoLeadingZero(n);
    }
  }

  lemma NumberInjective(m: int, n: int)
    requires Number(m) == Number(n)
    ensures m == n
  {
    DecimalReads(if m < 0 then -m else m);
    DecimalReads(if n < 0 then -n else n);
    if m < 0 { assert Number(m)[0] == '-' && Number(m)[1..] == Decimal(-m); }
    if n < 0 { assert Number(n)[0] == '-' && Number(n)[1..] == Decimal(-n); }
  }

  lemma NumberWithoutBar(n: int)
    ensures Without(Number(n), '|')
  {
    DecimalReads(if n < 0 then -n else n);
  }

  // ---- the signature ----

  /** No text of the request contains a bar, and no analyst's name a comma. */
  ghost predicate Plain(i: Inputs) {
    && Without(i.graph, '|') && Without(i.ticker, '|') && Without(i.date, '|') && Without(i.asset, '|')
    && Without(OrEmpty(i.language), '|') && Without(OrEmpty(i.provider), '|') && Without(OrEmpty(i.quick), '|')
    && Without(OrEmpty(i.deep), '|') && AllWithout(i.analysts, '|') && AllWithout(i.analysts, ',')
  }

  predicate NoName(analysts: seq<string>) { analysts == [] || analysts == [""] }

  predicate SameNames(a: seq<string>, b: seq<string>) { multiset(a) == multiset(b) || (NoName(a) && NoName(b)) }

  /** The same run as far as the graph is concerned: up to ticker case, analyst order, and absent versus empty. */
  ghost predicate SameGraph(a: Inputs, b: Inputs) {
    && a.graph == b.graph && Upper(a.ticker) == Upper(b.ticker) && a.date == b.date && a.asset == b.asset && a.depth == b.depth
    && SameNames(a.analysts, b.analysts)
    && OrEmpty(a.language) == OrEmpty(b.language) && OrEmpty(a.provider) == OrEmpty(b.provider)
    && OrEmpty(a.quick) == OrEmpty(b.quick) && OrEmpty(a.deep) == OrEmpty(b.deep)
  }

  lemma SortedWithout(analysts: seq<string>, c: char)
    requires AllWithout(analysts, c)
    ensures AllWithout(Sort(analysts), c)
  {
    SortMembers(analysts);
    var s := Sort(analysts);
    forall i | 0 <= i < |s| ensures Without(s[i], c) { assert s[i] in analysts; }
  }

  lemma ValuesWithoutBar(i: Inputs)
    requires Plain(i)
    ensures AllWithout(Values(i), '|')
  {
    hide Upper, Join, Number, Sort, OrEmpty;
    SortedWithout(i.analysts, '|');
    JoinWithout(',', Sort(i.analysts), '|');
    NumberWithoutBar(i.depth);
    UpperWithoutBar(i.ticker);
  }

  lemma UpperWithoutBar(s: string)
    requires Without(s, '|')
    ensures Without(Upper(s), '|')
  {}

  /** Sorted and joined names are equal exactly for the same names. */
  lemma AnalystsIff(a: seq<string>, b: seq<string>)
    requires AllWithout(a, ',') && AllWithout(b, ',')
    ensures Join(',', Sort(a)) == Join(',', Sort(b)) <==> SameNames(a, b)
  {
    SortedWithout(a, ',');
    SortedWithout(b, ',');
    SortCanonical(a, b);
    SortNoName(a);
    SortNoName(b);
    if Join(',', Sort(a)) == Join(',', Sort(b)) { JoinInjective(',', Sort(a), Sort(b)); }
  }

  lemma SortNoName(a: seq<string>)
    ensures NoName(Sort(a)) <==> NoName(a)
    ensures Sort([]) == [] && Sort([""]) == [""] && (Sort(a) == [] ==> a == [])
  {
    assert |multiset(Sort(a))| == |multiset(a)|;
    assert |Sort(a)| == |a|;
    if |a| == 1 { assert a[1..] == [] && Sort(a) == [a[0]] && a == [a[0]]; }
    assert [""][1..] == [];
  }

  // ---- exactly which requests share their signature with a different one ----

  const LABELS: seq<string> :=
    ["graph=", "ticker=", "date=", "asset=", "analysts=", "depth=", "lang=", "provider=", "quick=", "deep="]

  const TICKER := 1
  const DEPTH := 5

  /** What is written behind each label. */
  function Values(i: Inputs): (v: seq<string>)
    ensures |v| == 10
  {
    [i.graph, Upper(i.ticker), i.date, i.asset, Join(',', Sort(i.analysts)), Number(i.depth), OrEmpty(i.language),
     OrEmpty(i.provider), OrEmpty(i.quick), OrEmpty(i.deep)]
  }

  /** Two fields can hold only some texts: tickers are upper case, depths are numbers. */
  ghost predicate Writable(k: nat, u: string) {
    if k == TICKER then Upper(u) == u else if k == DEPTH then exists n :: Number(n) == u else true
  }

  predicate Free(k: nat) { k < 10 && k != TICKER && k != DEPTH }

  predicate ReadsAt(s: string, t: string, x: int) { 0 <= x <= |s| - |t| && s[x..x + |t|] == t }

  ghost predicate Contains(s: string, t: string) { exists x :: ReadsAt(s, t, x) }

  function Mark(k: nat): (m: string)
    requires k < 10
    ensures m != ""
  {
    "|" + LABELS[k]
  }

  /** Two fields that can hold any text meet here, and one of them contains the label between them once more. */
  ghost predicate MarkAgain(v: seq<string>, k: nat)
    requires |v| == 10
  {
    1 <= k < 10 && Free(k - 1) && Free(k) && (Contains(v[k - 1], Mark(k)) || Contains(v[k], Mark(k)))
  }

  /** A neighbour of the ticker or the depth contains a whole such field, with both of its labels. */
  ghost predicate FieldAgain(v: seq<string>, t: nat, u: string)
    requires |v| == 10
  {
    && (t == TICKER || t == DEPTH) && Writable(t, u)
    && (Contains(v[t - 1], Mark(t) + u + Mark(t + 1)) || Contains(v[t + 1], Mark(t) + u + Mark(t + 1)))
  }

  ghost predicate Confusable(i: Inputs) {
    || (exists k: nat :: MarkAgain(Values(i), k))
    || (exists t: nat, u :: FieldAgain(Values(i), t, u))
  }

  /** The names can be read as one name up to some comma and the others behind it. */
  ghost predicate AmbiguousNames(i: Inputs) {
    exists p, q :: Join(',', Sort(i.analysts)) == p + "," + q && Leq(p, q)
  }

  lemma PartIs(i: Inputs, k: nat)
    requires k < 10
    ensures |Parts(i)| == 10 && Parts(i)[k] == LABELS[k] + Values(i)[k]
  {
    hide Upper, Join, Number, Sort, OrEmpty;
  }

  predicate Small(c: char) { 'a' <= c <= 'z' }

  lemma LabelFacts(k: nat)
    requires k < 10
    ensures LABELS[k] != "" && Without(LABELS[k], '|') && Small(LABELS[k][0])
  {}

  // ---- where the parts of a join lie ----

  function Offset(parts: seq<string>, k: nat): nat
    requires k <= |parts|
  {
    if k == 0 then 0 else Offset(parts, k - 1) + |parts[k - 1]| + 1
  }

  lemma {:induction false} OffsetTail(parts: seq<string>, k: nat)
    requires 1 <= k <= |parts|
    ensures Offset(parts, k) == |parts[0]| + 1 + Offset(parts[1..], k - 1)
  {
    if k > 1 { OffsetTail(parts, k - 1); }
  }

  lemma {:induction false} PartLies(parts: seq<string>, k: nat)
    requires k < |parts|
    ensures var s, a, b := Join('|', parts), Offset(parts, k), Offset(parts, k + 1);
            b == a + |parts[k]| + 1 && b <= |s| + 1 && s[a..b - 1] == parts[k]
            && (if k + 1 < |parts| then b <= |s| && s[b - 1] == '|' else b == |s| + 1)
  {
    if k > 0 {
      PartLies(parts[1..], k - 1);
      OffsetTail(parts, k);
      OffsetTail(parts, k + 1);
      var s, r := Join('|', parts), Join('|', parts[1..]);
      var a, b := Offset(parts[1..], k - 1), Offset(parts[1..], k);
      var h := |parts[0]| + 1;
      assert s == parts[0] + ['|'] + r && s[h..] == r;
      assert s[h + a..h + b - 1] == r[a..b - 1];
    } else if |parts| > 1 {
      var s, r := Join('|', parts), Join('|', parts[1..]);
      assert s == parts[0] + ['|'] + r && s[|parts[0]|] == '|';
      assert s[..|parts[0]|] == parts[0];
    }
  }

  function Place(i: Inputs, k: nat): nat
    requires k <= 10
  {
    PartIs(i, 0);
    Offset(Parts(i), k)
  }

  lemma Slice(s: string, a: nat, b: nat, x: nat, y: nat)
    requires a <= b <= |s| && x <= y <= b - a
    ensures s[a..b][x..y] == s[a + x..a + y]
  {
    var u, v := s[a..b][x..y], s[a + x..a + y];
    assert |u| == |v| && forall k :: 0 <= k < |u| ==> u[k] == v[k];
  }

  lemma CutAt(s: string, a: nat, b: nat, l: string, v: string)
    requires a <= b <= |s| && s[a..b] == l + v
    ensures a + |l| <= b && s[a..a + |l|] == l && s[a + |l|..b] == v
  {
    Slice(s, a, b, 0, |l|);
    Slice(s, a, b, |l|, b - a);
    assert (l + v)[0..|l|] == l && (l + v)[|l|..b - a] == v;
  }

  lemma FieldLies(i: Inputs, k: nat)
    requires k < 10
    ensures var s, a, b := Signature(i), Place(i, k), Place(i, k + 1);
            var c := a + |LABELS[k]|;
            c < b <= |s| + 1 && s[a..c] == LABELS[k] && s[c..b - 1] == Values(i)[k]
            && (if k < 9 then b <= |s| && s[b - 1] == '|' else b == |s| + 1)
  {
    PartIs(i, k);
    hide Join, Parts, Values, Offset;
    PartLies(Parts(i), k);
    CutAt(Signature(i), Place(i, k), Place(i, k + 1) - 1, LABELS[k], Values(i)[k]);
  }

  /** No bar lies in a label. */
  lemma BarIsPastLabel(i: Inputs, k: nat, x: nat)
    requires k < 10 && Place(i, k) <= x < |Signature(i)| && Signature(i)[x] == '|'
    ensures x >= Place(i, k) + |LABELS[k]|
  {
    hide Join, Parts, Values, Offset, Place, Signature;
    FieldLies(i, k);
    LabelFacts(k);
    var s, a := Signature(i), Place(i, k);
    forall y | a <= y < a + |LABELS[k]| ensures s[y] != '|' { assert s[a..a + |LABELS[k]|][y - a] == s[y]; }
  }

  lemma {:induction false} UpperAt(s: string, x: nat)
    requires Upper(s) == s && x < |s|
    ensures !('a' <= s[x] <= 'z')
  {}

  lemma Marked(s: string, p: nat, l: nat, q: nat, r: nat)
    requires 1 <= p <= l < q <= r <= |s| && s[p - 1] == '|' && s[q - 1] == '|'
    ensures s[p - 1..r] == "|" + s[p..l] + s[l..q - 1] + ("|" + s[q..r])
  {
    assert s[p - 1..r] == s[p - 1..p] + s[p..l] + s[l..q - 1] + (s[q - 1..q] + s[q..r]);
  }

  /** In a ticker or a number no bar is followed by a small letter. */
  lemma NoMarkInText(t: nat, u: string, x: nat)
    requires (t == TICKER || t == DEPTH) && Writable(t, u) && x + 1 < |u| && u[x] == '|'
    ensures !Small(u[x + 1])
  {
    hide Number;
    if t == TICKER {
      UpperAt(u, x + 1);
    } else {
      var n :| Number(n) == u;
      NumberWithoutBar(n);
    }
  }

  lemma NoMarkInside(i: Inputs, t: nat, x: nat)
    requires t == TICKER || t == DEPTH
    requires Place(i, t) <= x && x + 2 < Place(i, t + 1) && x + 1 < |Signature(i)| && Signature(i)[x] == '|'
    ensures !Small(Signature(i)[x + 1])
  {
    hide Join, Parts, Values, Offset, Place, Signature, Writable, Small;
    BarIsPastLabel(i, t, x);
    FieldLies(i, t);
    ValueIsWritable(i, t);
    var s, c := Signature(i), Place(i, t) + |LABELS[t]|;
    var v := Values(i)[t];
    assert v[x - c] == s[x] && v[x + 1 - c] == s[x + 1];
    NoMarkInText(t, v, x - c);
  }

  lemma ValueIsWritable(i: Inputs, k: nat)
    requires k < 10
    ensures Writable(k, Values(i)[k])
  {
    if k == TICKER { assert Upper(Upper(i.ticker)) == Upper(i.ticker); }
    if k == DEPTH { assert Number(i.depth) == Values(i)[DEPTH]; }
  }

  // ---- the two readings of one signature ----

  /** A label of `j` lies in the text of a field of `i`. */
  ghost predicate Inside(i: Inputs, m: nat, j: Inputs, k: nat)
    requires m < 10 && k < 10
  {
    Place(i, m) + |LABELS[m]| < Place(j, k) && Place(j, k) + |LABELS[k]| < Place(i, m + 1)
  }

  lemma MarkReads(j: Inputs, k: nat)
    requires 1 <= k < 10
    ensures var s, p, r := Signature(j), Place(j, k), Place(j, k) + |LABELS[k]|; 1 <= p < r <= |s| && s[p - 1..r] == Mark(k)
  {
    hide Join, Parts, Values, Offset, Place, Signature;
    FieldLies(j, k - 1);
    FieldLies(j, k);
    LabelFacts(k);
    var s, p, r := Signature(j), Place(j, k), Place(j, k) + |LABELS[k]|;
    assert s[p - 1..r] == [s[p - 1]] + s[p..r];
  }

  lemma InsideContains(i: Inputs, m: nat, j: Inputs, k: nat)
    requires m < 10 && 1 <= k < 10 && Signature(i) == Signature(j) && Inside(i, m, j, k)
    ensures Contains(Values(i)[m], Mark(k))
  {
    hide Join, Parts, Values, Offset, Place, Signature, Mark;
    FieldLies(i, m);
    MarkReads(j, k);
    var c, p, r := Place(i, m) + |LABELS[m]|, Place(j, k), Place(j, k) + |LABELS[k]|;
    Slice(Signature(i), c, Place(i, m + 1) - 1, p - 1 - c, r - c);
    assert ReadsAt(Values(i)[m], Mark(k), p - 1 - c);
  }

  /** The first label that `j` has further left than `i` lies in the text before it. */
  lemma FirstLeft(i: Inputs, j: Inputs, k: nat)
    requires 1 <= k < 10 && Signature(i) == Signature(j)
    requires Place(j, k) < Place(i, k) && Place(j, k - 1) >= Place(i, k - 1)
    ensures Inside(i, k - 1, j, k)
  {
    hide Join, Parts, Values, Offset, Place, Signature;
    FieldLies(i, k - 1);
    FieldLies(j, k - 1);
    FieldLies(j, k);
    if Place(j, k) + |LABELS[k]| >= Place(i, k) { BarIsPastLabel(j, k, Place(i, k) - 1); }
  }

  /** The last label that `j` has further right than `i` lies in the text behind it. */
  lemma LastRight(i: Inputs, j: Inputs, k: nat)
    requires 1 <= k < 10 && Signature(i) == Signature(j)
    requires Place(j, k) > Place(i, k) && Place(j, k + 1) == Place(i, k + 1)
    ensures Inside(i, k, j, k)
  {
    hide Join, Parts, Values, Offset, Place, Signature;
    FieldLies(j, k - 1);
    FieldLies(j, k);
    BarIsPastLabel(i, k, Place(j, k) - 1);
  }

  /** If `j` has the ticker or depth label further left, it has the next label there as well. */
  lemma FieldLeft(i: Inputs, j: Inputs, t: nat)
    requires (t == TICKER || t == DEPTH) && Signature(i) == Signature(j)
    requires Place(j, t) < Place(i, t)
    ensures Place(j, t + 1) < Place(i, t)
  {
    hide Join, Parts, Values, Offset, Place, Signature;
    FieldLies(i, t - 1);
    FieldLies(i, t);
    FieldLies(j, t);
    FieldLies(j, t + 1);
    LabelFacts(t);
    LabelFacts(t + 1);
    var s, p, q := Signature(i), Place(i, t), Place(j, t + 1);
    assert s[p] == s[p..p + |LABELS[t]|][0] && s[q] == s[q..q + |LABELS[t + 1]|][0];
    if p < q { NoMarkInside(j, t, p - 1); }
  }

  lemma FieldRight(i: Inputs, j: Inputs, t: nat)
    requires (t == TICKER || t == DEPTH) && Signature(i) == Signature(j)
    requires Place(j, t + 1) > Place(i, t + 1)
    ensures Place(j, t) > Place(i, t + 1)
  {
    hide Join, Parts, Values, Offset, Place, Signature;
    FieldLies(i, t);
    FieldLies(i, t + 1);
    FieldLies(j, t);
    FieldLies(j, t - 1);
    LabelFacts(t);
    LabelFacts(t + 1);
    FieldLies(j, t + 1);
    var s, p, q := Signature(i), Place(i, t + 1), Place(j, t);
    assert s[p] == s[p..p + |LABELS[t + 1]|][0] && s[q] == s[q..q + |LABELS[t]|][0];
    if q < p { NoMarkInside(j, t, p - 1); }
  }

  lemma BarBefore(j: Inputs, k: nat)
    requires 1 <= k < 10
    ensures 1 <= Place(j, k) <= |Signature(j)| && Signature(j)[Place(j, k) - 1] == '|'
  {
    hide Join, Parts, Values, Offset, Place, Signature;
    FieldLies(j, k - 1);
  }

  /** A field that is not the first, between the bars and with its own and the next label. */
  lemma FieldReads(j: Inputs, t: nat)
    requires 1 <= t < 9
    ensures var s, p, r := Signature(j), Place(j, t), Place(j, t + 1) + |LABELS[t + 1]|;
            1 <= p < r <= |s| && s[p - 1..r] == Mark(t) + Values(j)[t] + Mark(t + 1)
  {
    hide Join, Parts, Values, Offset, Place, Signature;
    BarBefore(j, t);
    BarBefore(j, t + 1);
    FieldLies(j, t);
    LabelLies(j, t + 1);
    Marked(Signature(j), Place(j, t), Place(j, t) + |LABELS[t]|, Place(j, t + 1), Place(j, t + 1) + |LABELS[t + 1]|);
  }

  lemma LabelLies(j: Inputs, k: nat)
    requires k < 10
    ensures var s, a := Signature(j), Place(j, k); a + |LABELS[k]| <= |s| && s[a..a + |LABELS[k]|] == LABELS[k]
  {
    hide Join, Parts, Values, Offset, Place, Signature;
    FieldLies(j, k);
  }

  /** A whole field of `j` in the text of a field of `i`. */
  lemma FieldInside(i: Inputs, m: nat, j: Inputs, t: nat)
    requires m < 10 && 1 <= t < 9 && Signature(i) == Signature(j)
    requires Place(i, m) + |LABELS[m]| < Place(j, t) && Place(j, t + 1) + |LABELS[t + 1]| < Place(i, m + 1)
    ensures Contains(Values(i)[m], Mark(t) + Values(j)[t] + Mark(t + 1))
  {
    hide Join, Parts, Values, Offset, Place, Signature, Mark;
    FieldLies(i, m);
    FieldReads(j, t);
    var c, p, r := Place(i, m) + |LABELS[m]|, Place(j, t), Place(j, t + 1) + |LABELS[t + 1]|;
    Slice(Signature(i), c, Place(i, m + 1) - 1, p - 1 - c, r - c);
    assert ReadsAt(Values(i)[m], Mark(t) + Values(j)[t] + Mark(t + 1), p - 1 - c);
  }

  /** A ticker or a number contains no label. */
  lemma NoMarkContained(i: Inputs, t: nat, k: nat)
    requires (t == TICKER || t == DEPTH) && k < 10
    ensures !Contains(Values(i)[t], Mark(k))
  {
    hide Values, Small, Writable;
    var v := Values(i)[t];
    if Contains(v, Mark(k)) {
      var x :| ReadsAt(v, Mark(k), x);
      LabelFacts(k);
      ValueIsWritable(i, t);
      var m := v[x..x + |Mark(k)|];
      assert m[0] == v[x] && m[1] == v[x + 1];
      NoMarkInText(t, v, x);
    }
  }

  lemma LeftConfuses(i: Inputs, j: Inputs, k: nat)
    requires 1 <= k < 10 && Signature(i) == Signature(j)
    requires Place(j, k) < Place(i, k) && Place(j, k - 1) >= Place(i, k - 1)
    ensures Confusable(i)
  {
    hide Join, Parts, Values, Offset, Place, Signature, Contains, Mark, Writable;
    FirstLeft(i, j, k);
    InsideContains(i, k - 1, j, k);
    FieldLies(i, k - 1);
    FieldLies(j, k);
    if k == TICKER || k == DEPTH {
      FieldLeft(i, j, k);
      FieldLies(j, k + 1);
      BarIsPastLabel(j, k + 1, Place(i, k) - 1);
      FieldInside(i, k - 1, j, k);
      ValueIsWritable(j, k);
      assert FieldAgain(Values(i), k, Values(j)[k]);
    } else if k - 1 == TICKER || k - 1 == DEPTH {
      NoMarkContained(i, k - 1, k);
    } else {
      assert MarkAgain(Values(i), k);
    }
  }

  lemma RightConfuses(i: Inputs, j: Inputs, k: nat)
    requires 1 <= k < 10 && Signature(i) == Signature(j)
    requires Place(j, k) > Place(i, k) && Place(j, k + 1) == Place(i, k + 1)
    ensures Confusable(i)
  {
    hide Join, Parts, Values, Offset, Place, Signature, Contains, Mark, Writable;
    LastRight(i, j, k);
    InsideContains(i, k, j, k);
    if k == TICKER || k == DEPTH {
      NoMarkContained(i, k, k);
    } else if k - 1 == TICKER || k - 1 == DEPTH {
      FieldRight(i, j, k - 1);
      FieldLies(j, k - 2);
      FieldLies(j, k - 1);
      BarIsPastLabel(i, k, Place(j, k - 1) - 1);
      FieldLies(j, k);
      FieldInside(i, k, j, k - 1);
      ValueIsWritable(j, k - 1);
      assert FieldAgain(Values(i), k - 1, Values(j)[k - 1]);
    } else {
      assert MarkAgain(Values(i), k);
    }
  }

  lemma SamePlaces(i: Inputs, j: Inputs)
    requires Signature(i) == Signature(j) && forall k :: 0 <= k <= 10 ==> Place(i, k) == Place(j, k)
    ensures Values(i) == Values(j)
  {
    hide Join, Parts, Values, Offset, Place, Signature;
    forall k: nat | k < 10 ensures Values(i)[k] == Values(j)[k] {
      FieldLies(i, k);
      FieldLies(j, k);
    }
  }

  /** Read from the left, no label lies further left in the other request. */
  lemma {:induction false} NoneLeft(i: Inputs, j: Inputs, k: nat)
    requires k <= 10 && Signature(i) == Signature(j) && !Confusable(i)
    ensures Place(j, k) >= Place(i, k)
  {
    if k == 10 {
      FieldLies(i, 9);
      FieldLies(j, 9);
    } else if k > 0 {
      hide Join, Parts, Values, Offset, Place, Signature, Confusable;
      NoneLeft(i, j, k - 1);
      if Place(j, k) < Place(i, k) { LeftConfuses(i, j, k); }
    }
  }

  /** Read from the right, none lies further right. */
  lemma {:induction false} NoneRight(i: Inputs, j: Inputs, k: nat)
    requires k <= 10 && Signature(i) == Signature(j) && !Confusable(i)
    ensures Place(j, k) == Place(i, k)
    decreases 10 - k
  {
    if k == 10 {
      FieldLies(i, 9);
      FieldLies(j, 9);
    } else if k > 0 {
      hide Join, Parts, Values, Offset, Place, Signature, Confusable;
      NoneRight(i, j, k + 1);
      NoneLeft(i, j, k);
      if Place(j, k) > Place(i, k) { RightConfuses(i, j, k); }
    }
  }

  lemma TwoReadings(i: Inputs, j: Inputs)
    requires Signature(i) == Signature(j) && Values(i) != Values(j)
    ensures Confusable(i)
  {
    hide Join, Parts, Values, Offset, Place, Signature, Confusable;
    if !Confusable(i) {
      forall k | 0 <= k <= 10 ensures Place(j, k) == Place(i, k) { NoneRight(i, j, k); }
      SamePlaces(i, j);
    }
  }

  // ---- building the other request ----

  function Labelled(v: seq<string>): (parts: seq<string>)
    requires |v| == 10
    ensures |parts| == 10 && forall k :: 0 <= k < 10 ==> parts[k] == LABELS[k] + v[k]
  {
    seq(10, k requires 0 <= k < 10 => LABELS[k] + v[k])
  }

  lemma SignatureIs(i: Inputs)
    ensures Signature(i) == Join('|', Labelled(Values(i)))
  {
    forall k: nat | k < 10 ensures |Parts(i)| == 10 && Parts(i)[k] == Labelled(Values(i))[k] { PartIs(i, k); }
    assert Parts(i) == Labelled(Values(i));
  }

  /** Every ten writable texts are the values of a request. */
  lemma SomeRequest(v: seq<string>) returns (i: Inputs)
    requires |v| == 10 && Writable(TICKER, v[TICKER]) && Writable(DEPTH, v[DEPTH])
    ensures Values(i) == v
  {
    var n :| Number(n) == v[DEPTH];
    i := Inputs(v[0], v[1], v[2], v[3], [v[4]], n, Some(v[6]), Some(v[7]), Some(v[8]), Some(v[9]));
    assert [v[4]][1..] == [] && Sort([v[4]]) == [v[4]];
    assert Values(i) == v;
  }

  lemma {:induction false} JoinAppend(a: seq<string>, b: seq<string>)
    requires a != [] && b != []
    ensures Join('|', a + b) == Join('|', a) + "|" + Join('|', b)
  {
    assert (a + b)[1..] == a[1..] + b;
    if |a| > 1 { JoinAppend(a[1..], b); }
  }

  /** A join depends on a stretch of its parts only through the join of that stretch. */
  lemma JoinStretch(head: seq<string>, a: seq<string>, b: seq<string>, tail: seq<string>)
    requires a != [] && b != [] && Join('|', a) == Join('|', b)
    ensures Join('|', head + a + tail) == Join('|', head + b + tail)
  {
    if tail != [] {
      JoinAppend(a, tail);
      JoinAppend(b, tail);
    } else {
      assert a + tail == a && b + tail == b;
    }
    assert head + a + tail == head + (a + tail) && head + b + tail == head + (b + tail);
    if head != [] {
      JoinAppend(head, a + tail);
      JoinAppend(head, b + tail);
    } else {
      assert head + (a + tail) == a + tail && head + (b + tail) == b + tail;
    }
  }

  lemma JoinOfTwo(p: string, q: string)
    ensures Join('|', [p, q]) == p + "|" + q
  {
    assert [p, q][1..] == [q];
  }

  lemma JoinOfThree(p: string, q: string, r: string)
    ensures Join('|', [p, q, r]) == p + "|" + q + "|" + r
  {
    assert [p, q, r][1..] == [q, r];
    JoinOfTwo(q, r);
    assert p + "|" + (q + "|" + r) == p + "|" + q + "|" + r;
  }

  /** Changing the values from `a` up to `b` keeps the signature when it keeps the join of their parts. */
  lemma SameJoin(v: seq<string>, w: seq<string>, a: nat, b: nat)
    requires |v| == |w| == 10 && a < b <= 10 && v[..a] == w[..a] && v[b..] == w[b..]
    requires Join('|', Labelled(v)[a..b]) == Join('|', Labelled(w)[a..b])
    ensures Join('|', Labelled(v)) == Join('|', Labelled(w))
  {
    hide Join;
    var p, q := Labelled(v), Labelled(w);
    assert p[..a] == q[..a] by { assert forall k :: 0 <= k < a ==> v[k] == v[..a][k] && w[k] == w[..a][k]; }
    assert p[b..] == q[b..] by { assert forall k :: b <= k < 10 ==> v[k] == v[b..][k - b] && w[k] == w[b..][k - b]; }
    JoinStretch(p[..a], p[a..b], q[a..b], p[b..]);
    assert p == p[..a] + p[a..b] + p[b..] && q == q[..a] + q[a..b] + q[b..];
  }

  lemma TwoJoin(v: seq<string>, k: nat)
    requires |v| == 10 && 1 <= k < 10
    ensures Join('|', Labelled(v)[k - 1..k + 1]) == LABELS[k - 1] + (v[k - 1] + Mark(k) + v[k])
  {
    var p := Labelled(v);
    assert p[k - 1..k + 1] == [p[k - 1], p[k]];
    JoinOfTwo(p[k - 1], p[k]);
    assert (LABELS[k - 1] + v[k - 1]) + "|" + (LABELS[k] + v[k]) == LABELS[k - 1] + (v[k - 1] + ("|" + LABELS[k]) + v[k]);
  }

  lemma ThreeJoin(v: seq<string>, t: nat)
    requires |v| == 10 && 1 <= t < 9
    ensures Join('|', Labelled(v)[t - 1..t + 2]) == LABELS[t - 1] + (v[t - 1] + Mark(t) + v[t] + Mark(t + 1) + v[t + 1])
  {
    var p := Labelled(v);
    assert p[t - 1..t + 2] == [p[t - 1], p[t], p[t + 1]];
    JoinOfThree(p[t - 1], p[t], p[t + 1]);
    Regroup(LABELS[t - 1], v[t - 1], LABELS[t], v[t], LABELS[t + 1], v[t + 1]);
  }

  lemma Regroup(l: string, a: string, m: string, b: string, n: string, c: string)
    ensures (l + a) + "|" + (m + b) + "|" + (n + c) == l + (a + ("|" + m) + b + ("|" + n) + c)
  {}

  /** Two marks, a field between them, and once more the two marks: either pair can be the cut. */
  lemma CutEither(a: string, m: string, u: string, n: string, b: string, x: string, c: string)
    ensures (a + (m + u + n) + b) + m + x + n + c == a + m + u + n + (b + m + x + n + c)
  {}

  lemma Around(s: string, t: string) returns (a: string, b: string)
    requires Contains(s, t)
    ensures s == a + t + b
  {
    var x :| ReadsAt(s, t, x);
    a, b := s[..x], s[x + |t|..];
    assert s == s[..x] + s[x..x + |t|] + s[x + |t|..];
  }

  /** The same text, cut at the other of two marks. */
  lemma MarkMoves(v: seq<string>, k: nat) returns (w: seq<string>)
    requires |v| == 10 && MarkAgain(v, k)
    ensures |w| == 10 && w != v && w[TICKER] == v[TICKER] && w[DEPTH] == v[DEPTH]
    ensures Join('|', Labelled(v)) == Join('|', Labelled(w))
  {
    hide Join, Contains, Labelled;
    var m := Mark(k);
    if Contains(v[k - 1], m) {
      var a, b := Around(v[k - 1], m);
      w := v[k - 1 := a][k := b + m + v[k]];
      assert v[k - 1] + m + v[k] == w[k - 1] + m + w[k];
      assert |w[k]| > |v[k]|;
    } else {
      var a, b := Around(v[k], m);
      w := v[k - 1 := v[k - 1] + m + a][k := b];
      assert v[k - 1] + m + v[k] == w[k - 1] + m + w[k];
      assert |w[k]| < |v[k]|;
    }
    TwoJoin(v, k);
    TwoJoin(w, k);
    SameJoin(v, w, k - 1, k + 1);
  }

  lemma FieldCuts(p: string, m: string, q: string, n: string, r: string, u: string) returns (x: string, y: string)
    requires m != "" && (Contains(p, m + u + n) || Contains(r, m + u + n))
    ensures p + m + q + n + r == x + m + u + n + y && (|x| < |p| || |y| < |r|)
  {
    hide Contains;
    if Contains(p, m + u + n) {
      var a, b := Around(p, m + u + n);
      CutEither(a, m, u, n, b, q, r);
      x, y := a, b + m + q + n + r;
    } else {
      var a, b := Around(r, m + u + n);
      CutEither(p, m, q, n, a, u, b);
      assert p + m + q + n + (a + (m + u + n) + b) == p + m + q + n + (a + m + u + n + b);
      x, y := p + m + q + n + a, b;
    }
  }

  lemma FieldMoves(v: seq<string>, t: nat, u: string) returns (w: seq<string>)
    requires |v| == 10 && FieldAgain(v, t, u)
    ensures |w| == 10 && w != v && w[t] == u && (t == TICKER ==> w[DEPTH] == v[DEPTH]) && (t == DEPTH ==> w[TICKER] == v[TICKER])
    ensures Join('|', Labelled(v)) == Join('|', Labelled(w))
  {
    hide Join, Contains, Labelled, Writable, Mark;
    var x, y := FieldCuts(v[t - 1], Mark(t), v[t], Mark(t + 1), v[t + 1], u);
    w := v[t - 1 := x][t := u][t + 1 := y];
    ThreeJoin(v, t);
    ThreeJoin(w, t);
    SameJoin(v, w, t - 1, t + 2);
  }

  lemma Confused(i: Inputs) returns (j: Inputs)
    requires Confusable(i)
    ensures Signature(j) == Signature(i) && Values(j) != Values(i)
  {
    hide Join, Values, Labelled, Signature, MarkAgain, FieldAgain;
    var v := Values(i);
    var w: seq<string>;
    ValueIsWritable(i, TICKER);
    ValueIsWritable(i, DEPTH);
    if k: nat :| MarkAgain(v, k) {
      w := MarkMoves(v, k);
    } else {
      var t: nat, u :| FieldAgain(v, t, u);
      FieldIsWritable(v, t, u);
      w := FieldMoves(v, t, u);
    }
    j := SomeRequest(w);
    SignatureIs(i);
    SignatureIs(j);
  }

  lemma FieldIsWritable(v: seq<string>, t: nat, u: string)
    requires |v| == 10 && FieldAgain(v, t, u)
    ensures (t == TICKER || t == DEPTH) && Writable(t, u)
  {}

  // ---- names ----

  lemma SameGraphIff(a: Inputs, b: Inputs)
    ensures SameGraph(a, b) <==> Values(a) == Values(b) && SameNames(a.analysts, b.analysts)
  {
    SortCanonical(a.analysts, b.analysts);
    SortNoName(a.analysts);
    SortNoName(b.analysts);
    hide Upper, Sort;
    var v, w := Values(a), Values(b);
    if v == w {
      assert v[0] == w[0] && v[1] == w[1] && v[2] == w[2] && v[3] == w[3] && v[5] == w[5];
      assert v[6] == w[6] && v[7] == w[7] && v[8] == w[8] && v[9] == w[9];
      NumberInjective(a.depth, b.depth);
    }
  }

  lemma SortedPair(p: string, q: string)
    requires Leq(p, q)
    ensures Sort([p, q]) == [p, q] && Join(',', [p, q]) == p + "," + q
  {
    assert [p, q][1..] == [q] && [q][1..] == [];
    assert Sort([q]) == [q];
  }

  /** Two lists of names behind one text: some comma of the text can be read either way. */
  lemma TwoLists(a: seq<string>, b: seq<string>)
    requires Join(',', Sort(a)) == Join(',', Sort(b)) && !SameNames(a, b)
    ensures exists p, q :: Join(',', Sort(a)) == p + "," + q && Leq(p, q)
  {
    SortCanonical(a, b);
    SortNoName(a);
    SortNoName(b);
    var s, t := Sort(a), Sort(b);
    if |s| >= 2 || |t| >= 2 { CommaBetween(if |s| >= 2 then a else b); }
  }

  lemma CommaBetween(a: seq<string>)
    requires |Sort(a)| >= 2
    ensures exists p, q :: Join(',', Sort(a)) == p + "," + q && Leq(p, q)
  {
    var s := Sort(a);
    SortSorted(a);
    var q := Join(',', s[1..]);
    assert s[1..][0] == s[1] && s[1] <= q;
    LeqLonger(s[0], s[1], q);
    assert Join(',', s) == s[0] + "," + q;
  }

  lemma {:induction false} LeqLonger(a: string, b: string, c: string)
    requires Leq(a, b) && b <= c
    ensures Leq(a, c)
  {
    if a != "" && b != "" && a[0] == b[0] {
      assert c[0] == b[0] && b[1..] <= c[1..];
      LeqLonger(a[1..], b[1..], c[1..]);
    } else if a != "" && b != "" {
      assert c[0] == b[0];
    }
  }

  /** Names that can be read in two ways are shared with other names. */
  lemma OtherNames(a: seq<string>, p: string, q: string) returns (b: seq<string>)
    requires Join(',', Sort(a)) == p + "," + q && Leq(p, q)
    ensures Join(',', Sort(b)) == Join(',', Sort(a)) && !SameNames(a, b)
  {
    var w := p + "," + q;
    assert w != "";
    SortedPair(p, q);
    assert [w][1..] == [] && Sort([w]) == [w];
    b := if |a| == 1 then [p, q] else [w];
    assert |multiset(a)| == |a| && |multiset(b)| == |b|;
    assert !NoName(b);
  }

  /** Exactly when a request shares its signature with one for another graph: the label at a boundary of two free fields is
      written once more beside it, or a ticker or depth field with both of its labels is, or the names are ambiguous. */
  lemma SharedIff(i: Inputs)
    ensures (exists j :: Signature(j) == Signature(i) && !SameGraph(i, j)) <==> Confusable(i) || AmbiguousNames(i)
  {
    hide Signature, Values, Confusable, SameGraph, SameNames;
    if Confusable(i) {
      var j := Confused(i);
      SameGraphIff(i, j);
    } else if AmbiguousNames(i) {
      OthersShare(i);
    } else {
      forall j | Signature(j) == Signature(i) ensures SameGraph(i, j) {
        if Values(i) != Values(j) { TwoReadings(i, j); }
        SameGraphIff(i, j);
        if !SameNames(i.analysts, j.analysts) {
          SameJoined(i, j);
          TwoLists(i.analysts, j.analysts);
        }
      }
    }
  }

  lemma SameJoined(i: Inputs, j: Inputs)
    requires Values(i) == Values(j)
    ensures Join(',', Sort(i.analysts)) == Join(',', Sort(j.analysts))
  {
    assert Values(i)[4] == Values(j)[4];
  }

  lemma OthersShare(i: Inputs)
    requires AmbiguousNames(i)
    ensures exists j :: Signature(j) == Signature(i) && !SameGraph(i, j)
  {
    hide Join, Upper, Sort, Leq, Number, SameGraph;
    var p, q :| Join(',', Sort(i.analysts)) == p + "," + q && Leq(p, q);
    var b := OtherNames(i.analysts, p, q);
    var j := i.(analysts := b);
    assert Parts(j) == Parts(i);
    SameGraphIff(i, j);
  }

  /** With names free of commas, only the bars matter. */
  lemma SoundUnlessConfusable(i: Inputs, j: Inputs)
    requires !Confusable(i) && AllWithout(i.analysts, ',') && AllWithout(j.analysts, ',')
    ensures Signature(i) == Signature(j) <==> SameGraph(i, j)
  {
    SameGraphIff(i, j);
    AnalystsIff(i.analysts, j.analysts);
    SignatureIs(i);
    SignatureIs(j);
    hide Join, Labelled, Values, Signature, Confusable, SameGraph;
    if Signature(i) == Signature(j) && Values(i) != Values(j) { TwoReadings(i, j); }
    if Values(i) == Values(j) { SameJoined(i, j); }
  }

  lemma NoBarNoMark(s: string, t: string)
    requires Without(s, '|') && t != "" && t[0] == '|'
    ensures !Contains(s, t)
  {
    forall x: int ensures !ReadsAt(s, t, x) {
      if 0 <= x <= |s| - |t| { assert s[x..x + |t|][0] == s[x]; }
    }
  }

  lemma PlainIsSound(i: Inputs)
    requires Plain(i)
    ensures !Confusable(i)
  {
    ValuesWithoutBar(i);
    hide Values, Plain, Contains, Without, Writable;
    var v := Values(i);
    forall k: nat ensures !MarkAgain(v, k) {
      if MarkAgain(v, k) {
        NoBarNoMark(v[k - 1], Mark(k));
        NoBarNoMark(v[k], Mark(k));
      }
    }
    forall t: nat, u ensures !FieldAgain(v, t, u) {
      if FieldAgain(v, t, u) {
        NoBarNoMark(v[t - 1], Mark(t) + u + Mark(t + 1));
        NoBarNoMark(v[t + 1], Mark(t) + u + Mark(t + 1));
      }
    }
  }

  /** Requests without separators in their texts have equal signatures exactly when they ask for the same graph. */
  lemma SignatureIff(a: Inputs, b: Inputs)
    requires Plain(a) && Plain(b)
    ensures Signature(a) == Signature(b) <==> SameGraph(a, b)
  {
    PlainIsSound(a);
    SoundUnlessConfusable(a, b);
  }

  /** Two requests that show it: text moves from one field to the next. */
  lemma BarCollides(i: Inputs, x: string, y: string, z: string)
    requires x != "" && y != z
    ensures var a := i.(language := Some(x + "|provider=" + y), provider := Some(z));
            var b := i.(language := Some(x), provider := Some(y + "|provider=" + z));
            Signature(a) == Signature(b) && !SameGraph(a, b)
  {
    var m := "|provider=";
    var a := i.(language := Some(x + m + y), provider := Some(z));
    var b := i.(language := Some(x), provider := Some(y + m + z));
    assert |x + m + y| > |x|;
    assert Mark(7) == m;
    hide Join, Upper, Sort, Number, Mark, Labelled;
    TwoJoin(Values(a), 7);
    TwoJoin(Values(b), 7);
    CutOnce(x, m, y, z);
    SameJoin(Values(a), Values(b), 6, 8);
    SignatureIs(a);
    SignatureIs(b);
  }

  lemma CutOnce(a: string, m: string, b: string, c: string)
    ensures (a + m + b) + m + c == a + m + (b + m + c)
  {}
}
