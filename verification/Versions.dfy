/** The key of package versions: every number of a dotted version padded to three places. */
module Versions {
  import opened Common
  import opened Topics
  import opened DetailRows

  // ---------- Python's int() on ASCII text ----------

  predicate IsDigit(c: char) {
    '0' <= c <= '9'
  }

  predicate IsSpace(c: char) {
    c == ' ' || '\t' <= c <= '\r' || '\U{1c}' <= c <= '\U{1f}'
  }

  function StrippedLeft(s: string): string {
    if s != "" && IsSpace(s[0]) then StrippedLeft(s[1..]) else s
  }

  function StrippedRight(s: string): string {
    if s != "" && IsSpace(s[|s| - 1]) then StrippedRight(s[..|s| - 1]) else s
  }

  /** Digits, with single underscores between them. */
  predicate Numeral(s: string) {
    s != "" && IsDigit(s[0]) &&
    (|s| == 1 || Numeral(s[1..]) || (s[1] == '_' && Numeral(s[2..])))
  }

  function Value(s: string): nat {
    if s == "" then 0
    else if IsDigit(s[|s| - 1]) then 10 * Value(s[..|s| - 1]) + (s[|s| - 1] - '0') as nat
    else Value(s[..|s| - 1])
  }

  function ParseInt(s: string): Option<int> {
    var t := StrippedRight(StrippedLeft(s));
    var u := if t != "" && (t[0] == '+' || t[0] == '-') then t[1..] else t;
    if !Numeral(u) then None else Some(if u != t && t[0] == '-' then 0 - Value(u) else Value(u))
  }

  lemma ParseDigits(u: string)
    requires u != "" && forall c :: c in u ==> IsDigit(c)
    ensures ParseInt(u) == Some(Value(u)) && ParseInt("-" + u) == Some(0 - Value(u))
    ensures Dotless(u) && Dotless("-" + u)
  {
    AllDigits(u);
    assert u[0] in u && u[|u| - 1] in u;
    StripsNothing(u);
    ParseNegative(u);
  }

  lemma ParseNegative(u: string)
    requires Numeral(u) && !IsSpace(u[|u| - 1])
    ensures ParseInt("-" + u) == Some(0 - Value(u))
  {
    var s := "-" + u;
    assert s[|s| - 1] == u[|u| - 1] && s[1..] == u;
    StripsNothing(s);
  }

  lemma StripsNothing(s: string)
    requires s != "" && !IsSpace(s[0]) && !IsSpace(s[|s| - 1])
    ensures StrippedRight(StrippedLeft(s)) == s
  {
    assert StrippedLeft(s) == s;
  }

  /** Formatting a number and reading it back. */
  lemma ParseUndoesPad(n: int)
    ensures ParseInt(Padded(n)) == Some(n) && Dotless(Padded(n))
  {
    var width, m := if n < 0 then 2 else 3, if n < 0 then -n else n;
    PadIsNumeral(width, m);
    ParseDigits(PadTo(width, m));
  }

  lemma {:induction false} AllDigits(s: string)
    requires s != "" && forall c :: c in s ==> IsDigit(c)
    ensures Numeral(s)
  {
    if |s| > 1 {
      AllDigits(s[1..]);
    }
  }

  lemma {:induction false} DecimalValue(n: nat)
    ensures Decimal(n) != "" && (forall c :: c in Decimal(n) ==> IsDigit(c)) && Value(Decimal(n)) == n
  {
    var s := Decimal(n);
    if n >= 10 {
      DecimalValue(n / 10);
      assert s[..|s| - 1] == Decimal(n / 10);
    } else {
      assert s[..0] == "";
    }
  }

  lemma {:induction false} ZerosFirst(k: nat, s: string)
    requires forall c :: c in s ==> IsDigit(c)
    ensures Value(Zeros(k) + s) == Value(s)
    ensures forall c :: c in Zeros(k) ==> c == '0'
    decreases k, |s|
  {
    if s == "" {
      assert Zeros(k) + s == Zeros(k);
      if k > 0 {
        ZerosFirst(k - 1, "");
        ZerosLast(k);
        assert Zeros(k - 1) + "" == Zeros(k - 1);
        assert Zeros(k)[..k - 1] == Zeros(k - 1);
      }
    } else {
      var front := s[..|s| - 1];
      ZerosFirst(k, front);
      assert (Zeros(k) + s)[..|Zeros(k) + s| - 1] == Zeros(k) + front;
    }
  }

  lemma {:induction false} ZerosLast(k: nat)
    requires k > 0
    ensures Zeros(k) == Zeros(k - 1) + "0" && |Zeros(k)| == k
  {
    if k > 1 {
      ZerosLast(k - 1);
    }
  }

  lemma PadIsNumeral(width: nat, n: nat)
    ensures var s := PadTo(width, n);
      s != "" && Numeral(s) && Value(s) == n && forall c :: c in s ==> IsDigit(c)
  {
    DecimalValue(n);
    ZerosFirst(if |Decimal(n)| < width then width - |Decimal(n)| else 0, Decimal(n));
    AllDigits(PadTo(width, n));
  }

  // ---------- normalised versions ----------

  function Numbers(words: seq<string>): (r: Option<seq<int>>)
    ensures r.Some? ==> |r.value| == |words|
  {
    if words == [] then Some([])
    else match (ParseInt(words[0]), Numbers(words[1..]))
      case (Some(n), Some(rest)) => Some([n] + rest)
      case _ => None
  }

  function PaddedAll(ns: seq<int>): (words: seq<string>)
    ensures |words| == |ns|
  {
    if ns == [] then [] else [Padded(ns[0])] + PaddedAll(ns[1..])
  }

  lemma {:induction false} PaddedAt(ns: seq<int>, i: nat)
    requires i < |ns|
    ensures PaddedAll(ns)[i] == Padded(ns[i])
  {
    if i > 0 {
      PaddedAt(ns[1..], i - 1);
    }
  }

  function NormalizedVersion(version: string): string {
    match Numbers(Words(version))
    case Some(ns) => Dotted(PaddedAll(ns))
    case None => version
  }

  lemma {:induction false} NumbersAre(words: seq<string>, ns: seq<int>)
    requires |words| == |ns| && forall i :: 0 <= i < |ns| ==> ParseInt(words[i]) == Some(ns[i])
    ensures Numbers(words) == Some(ns)
  {
    if ns != [] {
      NumbersAre(words[1..], ns[1..]);
      assert ns == [ns[0]] + ns[1..];
    }
  }

  lemma NumbersOfPadded(ns: seq<int>)
    ensures Numbers(PaddedAll(ns)) == Some(ns)
    ensures forall w :: w in PaddedAll(ns) ==> Dotless(w)
  {
    var words := PaddedAll(ns);
    forall i | 0 <= i < |ns| ensures ParseInt(words[i]) == Some(ns[i]) && Dotless(words[i]) {
      PaddedAt(ns, i);
      ParseUndoesPad(ns[i]);
    }
    NumbersAre(words, ns);
  }

  /** A normalised version has the numbers of the version, so normalising it again changes nothing. */
  lemma NormalizedKeepsNumbers(version: string)
    ensures Numbers(Words(NormalizedVersion(version))) == Numbers(Words(version))
    ensures NormalizedVersion(NormalizedVersion(version)) == NormalizedVersion(version)
  {
    match Numbers(Words(version))
    case Some(ns) =>
      NumbersOfPadded(ns);
      WordsOfDotted(PaddedAll(ns));
    case None =>
  }

  predicate NumbersLeq(a: seq<int>, b: seq<int>) {
    a == [] || (b != [] && (a[0] < b[0] || (a[0] == b[0] && NumbersLeq(a[1..], b[1..]))))
  }

  predicate Below(version: string, bound: nat) {
    match Numbers(Words(version))
    case Some(ns) => forall i :: 0 <= i < |ns| ==> 0 <= ns[i] < bound
    case None => false
  }

  lemma {:induction false} DottedOrder(a: seq<int>, b: seq<int>)
    requires a != [] && b != []
    requires forall i :: 0 <= i < |a| ==> 0 <= a[i] < 1000
    requires forall i :: 0 <= i < |b| ==> 0 <= b[i] < 1000
    ensures Leq(Dotted(PaddedAll(a)), Dotted(PaddedAll(b))) <==> NumbersLeq(a, b)
  {
    var p, q := PaddedAll(a), PaddedAll(b);
    PaddedOrder(a[0], b[0]);
    var x := if |a| == 1 then "" else "." + Dotted(p[1..]);
    var y := if |b| == 1 then "" else "." + Dotted(q[1..]);
    assert Dotted(p) == p[0] + x && Dotted(q) == q[0] + y;
    LeqByPrefix(p[0], q[0], x, y);
    if a[0] == b[0] && |a| > 1 && |b| > 1 {
      assert p[1..] == PaddedAll(a[1..]) && q[1..] == PaddedAll(b[1..]);
      DottedOrder(a[1..], b[1..]);
      LeqByPrefix(".", ".", Dotted(p[1..]), Dotted(q[1..]));
    }
  }

  ghost predicate Ordered(v: string, w: string)
    requires Numbers(Words(v)).Some? && Numbers(Words(w)).Some?
  {
    Leq(NormalizedVersion(v), NormalizedVersion(w)) <==> NumbersLeq(Numbers(Words(v)).value, Numbers(Words(w)).value)
  }

  lemma OneNumber(n: nat)
    ensures Numbers(Words(Padded(n))) == Some([n]) && NormalizedVersion(Padded(n)) == Padded(n)
  {
    ParseUndoesPad(n);
    WordsOne(Padded(n));
    NumbersAre([Padded(n)], [n]);
    assert PaddedAll([n])[0] == Padded(n);
  }

  lemma ThousandComesFirst()
    ensures Leq(Padded(1000), Padded(999)) && !Leq(Padded(999), Padded(1000))
  {
    PaddedShort(999);
    assert Decimal(1000) == Decimal(100) + "0" && Decimal(100) == Decimal(10) + "0" && Decimal(10) == "10";
    assert Zeros(0) == "";
    assert Padded(1000) == "1000";
    assert Padded(999) == "999";
  }

  /** Exactly below one thousand the order of normalised versions is the order of their numbers. */
  lemma VersionOrderIff(bound: nat)
    ensures (forall v, w :: Below(v, bound) && Below(w, bound) ==> Ordered(v, w)) <==> bound <= 1000
  {
    if bound <= 1000 {
      forall v, w | Below(v, bound) && Below(w, bound) ensures Ordered(v, w) {
        VersionsInOrder(v, w, bound);
      }
    } else {
      OneNumber(999);
      OneNumber(1000);
      ThousandComesFirst();
      assert Below(Padded(999), bound) && Below(Padded(1000), bound);
      assert NumbersLeq([999], [1000]);
      assert !Ordered(Padded(999), Padded(1000));
    }
  }

  lemma VersionsInOrder(v: string, w: string, bound: nat)
    requires Below(v, bound) && Below(w, bound) && bound <= 1000
    ensures Ordered(v, w)
  {
    DottedOrder(Numbers(Words(v)).value, Numbers(Words(w)).value);
  }

  // ---------- the whole key of a package ----------

  /** A row as `add_sca_detail` makes it, with the fields its key is made of. */
  function ScaRow(severity: Severity, name: string, version: string, cve: string): Row {
    Row(severity, map["cve" := cve, "package_name" := name, "package_version" := NormalizedVersion(version)])
  }

  ghost predicate Small(ns: seq<int>) {
    ns != [] && forall i :: 0 <= i < |ns| ==> 0 <= ns[i] < 1000
  }

  /** What follows a version that goes on after `k` numbers. */
  function Tail(ns: seq<int>, k: nat): string
    requires k < |ns|
  {
    "." + Dotted(PaddedAll(ns[k..]))
  }

  /** Order of two versions with something behind each, by whether one continues the other. */
  ghost predicate OrderedAs(a: seq<int>, b: seq<int>, x: string, y: string, leq: bool) {
    leq <==>
      if a == b then Leq(x, y)
      else if a < b then Leq(x, Tail(b, |a|) + y)
      else if b < a then Leq(Tail(a, |b|) + x, y)
      else NumbersLeq(a, b)
  }

  lemma {:induction false} FollowedOrder(a: seq<int>, b: seq<int>, x: string, y: string)
    requires Small(a) && Small(b)
    ensures OrderedAs(a, b, x, y, Leq(Dotted(PaddedAll(a)) + x, Dotted(PaddedAll(b)) + y))
  {
    ByFirstNumbers(a, b, x, y);
    if a[0] != b[0] {
      FirstsDiffer(a, b);
    } else if |a| == 1 || |b| == 1 {
      OneIsOver(a, b);
    } else {
      FollowedOrder(a[1..], b[1..], x, y);
      BehindDots(a, b, x, y);
      RestsOrder(a, b, x, y, Leq(Dotted(PaddedAll(a)) + x, Dotted(PaddedAll(b)) + y));
    }
  }

  /** What comes behind the first number. */
  function AfterFirst(ns: seq<int>, x: string): string
    requires ns != []
  {
    if |ns| == 1 then x else "." + Dotted(PaddedAll(ns[1..])) + x
  }

  lemma DottedFirst(words: seq<string>, x: string)
    requires words != []
    ensures Dotted(words) + x == words[0] + if |words| == 1 then x else "." + Dotted(words[1..]) + x
  {
    if |words| > 1 {
      Regroup(words[0], ".", Dotted(words[1..]), x);
    }
  }

  lemma Regroup(a: string, b: string, c: string, d: string)
    ensures a + b + c + d == a + (b + c + d)
  {
  }

  lemma FirstNumber(ns: seq<int>, x: string)
    requires ns != []
    ensures Dotted(PaddedAll(ns)) + x == Padded(ns[0]) + AfterFirst(ns, x)
  {
    DottedFirst(PaddedAll(ns), x);
    assert PaddedAll(ns)[1..] == PaddedAll(ns[1..]);
  }

  lemma ByFirstNumbers(a: seq<int>, b: seq<int>, x: string, y: string)
    requires Small(a) && Small(b)
    ensures Leq(Dotted(PaddedAll(a)) + x, Dotted(PaddedAll(b)) + y) <==>
      if a[0] == b[0] then Leq(AfterFirst(a, x), AfterFirst(b, y)) else a[0] < b[0]
  {
    FirstNumber(a, x);
    FirstNumber(b, y);
    PaddedOrder(a[0], b[0]);
    LeqByPrefix(Padded(a[0]), Padded(b[0]), AfterFirst(a, x), AfterFirst(b, y));
  }

  lemma BehindDots(a: seq<int>, b: seq<int>, x: string, y: string)
    requires |a| > 1 && |b| > 1
    ensures Leq(AfterFirst(a, x), AfterFirst(b, y)) <==>
      Leq(Dotted(PaddedAll(a[1..])) + x, Dotted(PaddedAll(b[1..])) + y)
  {
    DotFirst(a[1..], x);
    DotFirst(b[1..], y);
    LeqByPrefix(".", ".", Dotted(PaddedAll(a[1..])) + x, Dotted(PaddedAll(b[1..])) + y);
  }

  lemma RestsOrder(a: seq<int>, b: seq<int>, x: string, y: string, leq: bool)
    requires |a| > 1 && |b| > 1 && a[0] == b[0] && OrderedAs(a[1..], b[1..], x, y, leq)
    ensures OrderedAs(a, b, x, y, leq)
  {
    RestsDecide(a, b);
    if |a| < |b| {
      TailOfRest(b, |a|);
    } else if |b| < |a| {
      TailOfRest(a, |b|);
    }
  }

  lemma DotFirst(ns: seq<int>, x: string)
    requires ns != []
    ensures "." + Dotted(PaddedAll(ns)) + x == "." + (Dotted(PaddedAll(ns)) + x)
  {
  }

  lemma FirstsDiffer(a: seq<int>, b: seq<int>)
    requires a != [] && b != [] && a[0] != b[0]
    ensures a != b && !(a < b) && !(b < a) && (NumbersLeq(a, b) <==> a[0] < b[0])
  {
  }

  lemma OneIsOver(a: seq<int>, b: seq<int>)
    requires a != [] && b != [] && a[0] == b[0] && (|a| == 1 || |b| == 1)
    ensures if |a| == |b| then a == b else if |a| == 1 then a < b && Tail(b, |a|) == "." + Dotted(PaddedAll(b[1..]))
      else b < a && Tail(a, |b|) == "." + Dotted(PaddedAll(a[1..]))
  {
  }

  lemma RestsDecide(a: seq<int>, b: seq<int>)
    requires |a| > 1 && |b| > 1 && a[0] == b[0]
    ensures (a == b <==> a[1..] == b[1..]) && (a < b <==> a[1..] < b[1..]) && (b < a <==> b[1..] < a[1..])
    ensures NumbersLeq(a, b) <==> NumbersLeq(a[1..], b[1..])
  {
    assert a == [a[0]] + a[1..] && b == [b[0]] + b[1..];
    PrefixOfRests(a, b);
    PrefixOfRests(b, a);
  }

  lemma TailOfRest(ns: seq<int>, k: nat)
    requires 0 < k < |ns|
    ensures Tail(ns, k) == Tail(ns[1..], k - 1)
  {
    assert ns[k..] == ns[1..][k - 1..];
  }

  lemma PrefixOfRests(a: seq<int>, b: seq<int>)
    requires |a| > 1 && |b| > 1 && a[0] == b[0]
    ensures a < b <==> a[1..] < b[1..]
  {
    if a[1..] < b[1..] {
      forall k | 0 <= k < |a| ensures a[k] == b[k] {
        assert k > 0 ==> a[k] == a[1..][k - 1] && b[k] == b[1..][k - 1];
      }
    }
  }

  lemma KeyBehindName(severity: Severity, name: string, v: string, w: string, cve: string, other: string)
    ensures Leq(Key(Sca, ScaRow(severity, name, v, cve)), Key(Sca, ScaRow(severity, name, w, other))) <==>
      Leq(NormalizedVersion(v) + cve, NormalizedVersion(w) + other)
  {
    var r, q := ScaRow(severity, name, v, cve), ScaRow(severity, name, w, other);
    KeyOrder(Sca, r, q);
    ScaRest(severity, name, v, cve);
    ScaRest(severity, name, w, other);
    LeqByPrefix(name, name, NormalizedVersion(v) + cve, NormalizedVersion(w) + other);
  }

  lemma ScaRest(severity: Severity, name: string, v: string, cve: string)
    ensures Rest(Sca, ScaRow(severity, name, v, cve)) == name + (NormalizedVersion(v) + cve)
  {
    var r, n := ScaRow(severity, name, v, cve), NormalizedVersion(v);
    assert r.Field("package_name") == name && r.Field("package_version") == n && r.Field("cve") == cve;
    assert name + n + cve == name + (n + cve);
  }

  /** The whole key of two packages of one severity and name, for versions of numbers below a thousand:
      the numbers decide when neither version continues the other, the identifiers when the versions are
      equal, and otherwise the shorter version's identifier against the dot and what follows it. */
  lemma ScaKeyOrder(severity: Severity, name: string, v: string, w: string, cve: string, other: string)
    requires Below(v, 1000) && Below(w, 1000)
    ensures OrderedAs(Numbers(Words(v)).value, Numbers(Words(w)).value, cve, other,
      Leq(Key(Sca, ScaRow(severity, name, v, cve)), Key(Sca, ScaRow(severity, name, w, other))))
  {
    KeyBehindName(severity, name, v, w, cve, other);
    FollowedOrder(Numbers(Words(v)).value, Numbers(Words(w)).value, cve, other);
  }

  ghost predicate BelowDot(cve: string) {
    cve == "" || cve[0] < '.'
  }

  /** For identifiers that do not begin with a dot: the key orders two different versions like their numbers
      exactly when neither continues the other, or the identifier of the shorter begins below the dot. */
  lemma ScaVersionOrderIff(severity: Severity, name: string, v: string, w: string, cve: string, other: string)
    requires Below(v, 1000) && Below(w, 1000) && Numbers(Words(v)) != Numbers(Words(w))
    requires (cve == "" || cve[0] != '.') && (other == "" || other[0] != '.')
    ensures var a, b := Numbers(Words(v)).value, Numbers(Words(w)).value;
      (Leq(Key(Sca, ScaRow(severity, name, v, cve)), Key(Sca, ScaRow(severity, name, w, other))) <==>
        NumbersLeq(a, b)) <==>
      (a < b ==> BelowDot(cve)) && (b < a ==> BelowDot(other))
  {
    ScaKeyOrder(severity, name, v, w, cve, other);
    OrderIff(Numbers(Words(v)).value, Numbers(Words(w)).value, cve, other,
      Leq(Key(Sca, ScaRow(severity, name, v, cve)), Key(Sca, ScaRow(severity, name, w, other))));
  }

  lemma OrderIff(a: seq<int>, b: seq<int>, x: string, y: string, leq: bool)
    requires a != b && OrderedAs(a, b, x, y, leq) && (x == "" || x[0] != '.') && (y == "" || y[0] != '.')
    ensures (leq <==> NumbersLeq(a, b)) <==> (a < b ==> BelowDot(x)) && (b < a ==> BelowDot(y))
  {
    if a < b {
      PrefixIsLess(a, b);
      DotLeads(x, Dotted(PaddedAll(b[|a|..])) + y);
      DotFirst(b[|a|..], y);
    } else if b < a {
      PrefixIsLess(b, a);
      DotLeads(y, Dotted(PaddedAll(a[|b|..])) + x);
      DotFirst(a[|b|..], x);
    }
  }

  lemma DotLeads(x: string, t: string)
    requires x == "" || x[0] != '.'
    ensures (Leq(x, "." + t) <==> BelowDot(x)) && (Leq("." + t, x) <==> !BelowDot(x))
  {
  }

  lemma {:induction false} PrefixIsLess(a: seq<int>, b: seq<int>)
    requires a < b
    ensures NumbersLeq(a, b) && !NumbersLeq(b, a)
  {
    if a != [] {
      assert a[0] == b[0];
      assert a[1..] <= b[1..];
      PrefixIsLess(a[1..], b[1..]);
    }
  }
}
