/** The rows of a pull-request comment, kept sorted by a composed string key. */
module DetailRows {

  // ---------- the order of strings ----------

  predicate Leq(a: string, b: string) {
    a == "" || (b != "" && (a[0] < b[0] || (a[0] == b[0] && Leq(a[1..], b[1..]))))
  }

  lemma {:induction false} LeqTotal(a: string, b: string)
    ensures Leq(a, b) || Leq(b, a)
    ensures Leq(a, b) && Leq(b, a) ==> a == b
  {
    if a != "" && b != "" && a[0] == b[0] {
      LeqTotal(a[1..], b[1..]);
      assert a == [a[0]] + a[1..] && b == [b[0]] + b[1..];
    }
  }

  lemma {:induction false} LeqTransitive(a: string, b: string, c: string)
    requires Leq(a, b) && Leq(b, c)
    ensures Leq(a, c)
  {
    if a != "" && a[0] == b[0] == c[0] {
      LeqTransitive(a[1..], b[1..], c[1..]);
    }
  }

  /** Prefixes of one width decide, and only when they agree does the rest. */
  lemma {:induction false} LeqByPrefix(p: string, q: string, x: string, y: string)
    requires |p| == |q|
    ensures Leq(p + x, q + y) <==> (if p == q then Leq(x, y) else Leq(p, q))
  {
    if p == "" {
      assert p + x == x && q + y == y;
    } else {
      assert (p + x)[1..] == p[1..] + x && (q + y)[1..] == q[1..] + y;
      assert p == [p[0]] + p[1..] && q == [q[0]] + q[1..];
      LeqByPrefix(p[1..], q[1..], x, y);
    }
  }

  // ---------- zero-padded numbers ----------

  function Digit(d: nat): char
    requires d < 10
  {
    '0' + d as char
  }

  function Decimal(n: nat): string {
    if n < 10 then [Digit(n)] else Decimal(n / 10) + [Digit(n % 10)]
  }

  function Zeros(k: nat): string {
    if k == 0 then "" else "0" + Zeros(k - 1)
  }

  function PadTo(width: nat, n: nat): string {
    Zeros(if |Decimal(n)| < width then width - |Decimal(n)| else 0) + Decimal(n)
  }

  /** Python's format `03`: the sign counts. */
  function Padded(n: int): string {
    if n < 0 then "-" + PadTo(2, -n) else PadTo(3, n)
  }

  lemma PaddedShort(n: nat)
    requires n < 1000
    ensures Padded(n) == [Digit(n / 100), Digit(n / 10 % 10), Digit(n % 10)]
  {
    assert Zeros(1) == "0" + Zeros(0) && Zeros(2) == "0" + Zeros(1);
    if n < 10 {
      assert Decimal(n) == [Digit(n)];
    } else if n < 100 {
      assert Decimal(n) == Decimal(n / 10) + [Digit(n % 10)];
    } else {
      assert n / 10 / 10 == n / 100;
      assert Decimal(n / 10) == Decimal(n / 10 / 10) + [Digit(n / 10 % 10)];
    }
  }

  lemma LeqThree(a: char, b: char, c: char, x: char, y: char, z: char)
    ensures Leq([a, b, c], [x, y, z]) <==> a < x || (a == x && (b < y || (b == y && c <= z)))
  {
    LeqByPrefix([a, b], [x, y], [c], [z]);
    LeqByPrefix([a], [x], [b], [y]);
    assert [a, b] + [c] == [a, b, c] && [x, y] + [z] == [x, y, z] && [a] + [b] == [a, b] && [x] + [y] == [x, y];
    assert [c][1..] == "" && [z][1..] == "" && [b][1..] == "" && [y][1..] == "" && [a][1..] == "" && [x][1..] == "";
  }

  lemma Digits(n: nat) returns (h: nat, t: nat, u: nat)
    requires n < 1000
    ensures h < 10 && t < 10 && u < 10 && n == 100 * h + 10 * t + u
    ensures Padded(n) == [Digit(h), Digit(t), Digit(u)]
  {
    PaddedShort(n);
    h, t, u := n / 100, n / 10 % 10, n % 10;
  }

  /** Below a thousand the order of padded numbers is the order of the numbers. */
  lemma PaddedOrder(a: nat, b: nat)
    requires a < 1000 && b < 1000
    ensures |Padded(a)| == 3 == |Padded(b)|
    ensures Leq(Padded(a), Padded(b)) <==> a <= b
    ensures Padded(a) == Padded(b) <==> a == b
  {
    var h, t, u := Digits(a);
    var k, l, m := Digits(b);
    LeqThree(Digit(h), Digit(t), Digit(u), Digit(k), Digit(l), Digit(m));
    assert Padded(a)[0] == Digit(h) && Padded(a)[1] == Digit(t) && Padded(a)[2] == Digit(u);
    assert Padded(b)[0] == Digit(k) && Padded(b)[1] == Digit(l) && Padded(b)[2] == Digit(m);
  }

  // ---------- rows and their keys ----------

  datatype Severity = Critical | High | Medium | Low | Info
  {
    function Rank(): nat {
      match this
      case Critical => 0
      case High => 1
      case Medium => 2
      case Low => 3
      case Info => 4
    }
  }

  datatype Row = Row(severity: Severity, fields: map<string, string>)
  {
    function Field(key: string): string {
      if key in fields then fields[key] else ""
    }
  }

  datatype Table = Sast | Sca | Iac | Resolved | Policy

  function Rest(table: Table, r: Row): string {
    match table
    case Sast => r.Field("issue")
    case Sca => r.Field("package_name") + r.Field("package_version") + r.Field("cve")
    case Iac => r.Field("technology")
    case Resolved => r.Field("name")
    case Policy => r.Field("policy_name") + r.Field("policy_rule_name")
  }

  function Key(table: Table, r: Row): string {
    Padded(r.severity.Rank()) + Rest(table, r)
  }

  /** The severities from the worst to the mildest. */
  predicate Worse(a: Severity, b: Severity) {
    match a
    case Critical => !b.Critical?
    case High => b.Medium? || b.Low? || b.Info?
    case Medium => b.Low? || b.Info?
    case Low => b.Info?
    case Info => false
  }

  /** What tells rows of one severity apart in a table. */
  predicate NotAfter(table: Table, r: Row, q: Row) {
    match table
    case Sast => Leq(r.Field("issue"), q.Field("issue"))
    case Sca => Leq(r.Field("package_name") + r.Field("package_version") + r.Field("cve"),
      q.Field("package_name") + q.Field("package_version") + q.Field("cve"))
    case Iac => Leq(r.Field("technology"), q.Field("technology"))
    case Resolved => Leq(r.Field("name"), q.Field("name"))
    case Policy => Leq(r.Field("policy_name") + r.Field("policy_rule_name"),
      q.Field("policy_name") + q.Field("policy_rule_name"))
  }

  /** Keys order rows by severity, the worst first, and within one severity by the columns of their table. */
  lemma KeyOrder(table: Table, r: Row, q: Row)
    ensures Leq(Key(table, r), Key(table, q)) <==>
      Worse(r.severity, q.severity) || (r.severity == q.severity && NotAfter(table, r, q))
  {
    PaddedOrder(r.severity.Rank(), q.severity.Rank());
    LeqByPrefix(Padded(r.severity.Rank()), Padded(q.severity.Rank()), Rest(table, r), Rest(table, q));
  }

  // ---------- the sorted list ----------

  /** Insertion after every row whose key is not larger. */
  function Insert(key: Row -> string, rows: seq<Row>, r: Row): seq<Row> {
    if rows == [] || Leq(key(rows[|rows| - 1]), key(r)) then rows + [r]
    else Insert(key, rows[..|rows| - 1], r) + [rows[|rows| - 1]]
  }

  function InsertAll(key: Row -> string, rows: seq<Row>): seq<Row> {
    if rows == [] then [] else Insert(key, InsertAll(key, rows[..|rows| - 1]), rows[|rows| - 1])
  }

  ghost predicate Sorted(key: Row -> string, rows: seq<Row>) {
    forall i, j :: 0 <= i <= j < |rows| ==> Leq(key(rows[i]), key(rows[j]))
  }

  class SortedDetailRows {
    const key: Row -> string
    var details: seq<Row>
    ghost var added: seq<Row>

    ghost predicate Valid() reads this {
      details == InsertAll(key, added)
    }

    constructor (key: Row -> string)
      ensures Valid() && this.key == key && added == [] && details == []
    {
      this.key := key;
      details := [];
      added := [];
    }

    method AddRow(severity: Severity, fields: map<string, string>)
      requires Valid()
      modifies this
      ensures Valid() && added == old(added) + [Row(severity, fields)]
    {
      var r := Row(severity, fields);
      var larger: seq<Row> := [];
      var rest := details;
      // The place after every row whose key is not larger.
      while rest != [] && !Leq(key(rest[|rest| - 1]), key(r))
        invariant details == rest + larger
        invariant Insert(key, details, r) == Insert(key, rest, r) + larger
        decreases |rest|
      {
        var last := rest[|rest| - 1];
        ghost var front := rest[..|rest| - 1];
        assert Insert(key, front, r) + [last] + larger == Insert(key, front, r) + ([last] + larger);
        assert rest == front + [last];
        rest := rest[..|rest| - 1];
        larger := [last] + larger;
      }
      details := rest + [r] + larger;
      added := added + [r];
      assert added[..|added| - 1] == old(added);
    }
  }

  // ---------- what the list amounts to ----------

  lemma SortedMore(key: Row -> string, rows: seq<Row>, last: Row)
    requires Sorted(key, rows) && forall x :: x in rows ==> Leq(key(x), key(last))
    ensures Sorted(key, rows + [last])
  {
    LeqSelf(key(last));
  }

  lemma {:induction false} InsertAdds(key: Row -> string, rows: seq<Row>, r: Row)
    ensures multiset(Insert(key, rows, r)) == multiset(rows) + multiset{r}
  {
    if rows != [] {
      assert rows == rows[..|rows| - 1] + [rows[|rows| - 1]];
      InsertAdds(key, rows[..|rows| - 1], r);
    }
  }

  lemma {:induction false} InsertSorts(key: Row -> string, rows: seq<Row>, r: Row)
    requires Sorted(key, rows)
    ensures Sorted(key, Insert(key, rows, r))
  {
    if rows == [] {
      SortedMore(key, rows, r);
    } else if Leq(key(rows[|rows| - 1]), key(r)) {
      forall x | x in rows ensures Leq(key(x), key(r)) {
        LeqTransitive(key(x), key(rows[|rows| - 1]), key(r));
      }
      SortedMore(key, rows, r);
    } else {
      var front, last := rows[..|rows| - 1], rows[|rows| - 1];
      InsertSorts(key, front, r);
      InsertAdds(key, front, r);
      LeqTotal(key(last), key(r));
      forall x | x in Insert(key, front, r) ensures Leq(key(x), key(last)) {
        assert x in multiset(Insert(key, front, r));
      }
      SortedMore(key, Insert(key, front, r), last);
    }
  }

  lemma {:induction false} LeqSelf(a: string)
    ensures Leq(a, a)
  {
    if a != "" {
      LeqSelf(a[1..]);
    }
  }

  /** The rows of one key, in order. */
  function WithKey(key: Row -> string, rows: seq<Row>, k: string): seq<Row> {
    if rows == [] then []
    else if key(rows[|rows| - 1]) == k then WithKey(key, rows[..|rows| - 1], k) + [rows[|rows| - 1]]
    else WithKey(key, rows[..|rows| - 1], k)
  }

  lemma {:induction false} WithKeyMore(key: Row -> string, rows: seq<Row>, r: Row, k: string)
    ensures WithKey(key, rows + [r], k) == if key(r) == k then WithKey(key, rows, k) + [r] else WithKey(key, rows, k)
  {
    assert (rows + [r])[..|rows|] == rows;
  }

  lemma {:induction false} InsertKeepsOrder(key: Row -> string, rows: seq<Row>, r: Row, k: string)
    ensures WithKey(key, Insert(key, rows, r), k) == WithKey(key, rows + [r], k)
  {
    if rows != [] && !Leq(key(rows[|rows| - 1]), key(r)) {
      var front, last := rows[..|rows| - 1], rows[|rows| - 1];
      InsertKeepsOrder(key, front, r, k);
      var inner := Insert(key, front, r);
      LeqSelf(key(r));
      calc {
        WithKey(key, inner + [last], k);
        { WithKeyMore(key, inner, last, k); WithKeyMore(key, front, r, k); }
        if key(last) == k then WithKey(key, front, k) + [last] else if key(r) == k then WithKey(key, front,
          k) + [r] else WithKey(key, front, k);
        { assert WithKey(key, rows, k) == if key(last) == k then WithKey(key, front, k) + [last] else WithKey(key,
          front, k); }
        if key(r) == k then WithKey(key, rows, k) + [r] else WithKey(key, rows, k);
        { WithKeyMore(key, rows, r, k); }
        WithKey(key, rows + [r], k);
      }
    }
  }

  /** After any sequence of additions the rows are those added, sorted by key, and
      rows of one key stay in the order in which they were added. */
  lemma {:induction false} RowsInOrder(key: Row -> string, rows: seq<Row>)
    ensures var out := InsertAll(key, rows);
      Sorted(key, out) && multiset(out) == multiset(rows) &&
      forall k :: WithKey(key, out, k) == WithKey(key, rows, k)
  {
    var out := InsertAll(key, rows);
    if rows != [] {
      var front, last := rows[..|rows| - 1], rows[|rows| - 1];
      RowsInOrder(key, front);
      var before := InsertAll(key, front);
      InsertSorts(key, before, last);
      InsertAdds(key, before, last);
      assert rows == front + [last];
      forall k ensures WithKey(key, out, k) == WithKey(key, rows, k) {
        InsertKeepsOrder(key, before, last, k);
        WithKeyMore(key, before, last, k);
        WithKeyMore(key, front, last, k);
      }
    }
  }

  predicate MayStandBefore(a: Severity, b: Severity) {
    match b
    case Critical => a.Critical?
    case High => a.Critical? || a.High?
    case Medium => a.Critical? || a.High? || a.Medium?
    case Low => a.Critical? || a.High? || a.Medium? || a.Low?
    case Info => true
  }

  /** So in every table the worst findings come first: before a critical one only critical ones, before a high
      one critical and high ones, and so on. */
  lemma SeveritiesInOrder(table: Table, rows: seq<Row>)
    ensures var out := InsertAll(r => Key(table, r), rows);
      multiset(out) == multiset(rows) &&
      forall i, j :: 0 <= i < j < |out| ==>
        MayStandBefore(out[i].severity, out[j].severity)
  {
    var key := r => Key(table, r);
    var out := InsertAll(key, rows);
    RowsInOrder(key, rows);
    forall i, j | 0 <= i < j < |out| ensures MayStandBefore(out[i].severity, out[j].severity) {
      assert Leq(key(out[i]), key(out[j]));
      KeyOrder(table, out[i], out[j]);
    }
  }
}
