/** Listing a repository's protected branches: a generator over pages of at most one hundred items,
    which hands out each page from its end. */
module Paging {
  import opened Common

  datatype Step<T> = Yield(value: T) | Stop | Raise

  /** What is still to come of a generator: the values, the requests it takes, and whether it ends
      in an exception because an answer was not ok. */
  datatype Course<T> = Course(values: seq<T>, requests: nat, raises: bool)

  /** The page the server answers with: at most one hundred items from `100 * offset` on. */
  function PageAt<T>(items: seq<T>, offset: nat): (page: seq<T>)
    ensures |page| <= 100
  {
    var from := 100 * offset;
    if from >= |items| then []
    else if from + 100 <= |items| then items[from..from + 100]
    else items[from..]
  }

  function Pushed<T>(front: seq<T>, c: Course<T>): Course<T> {
    Course(front + c.values, c.requests, c.raises)
  }

  function Ahead<T>(items: seq<T>, ok: nat -> bool, offset: nat): Course<T>
    decreases |items| - 100 * offset
  {
    var page := PageAt(items, offset);
    if !ok(offset) then Course([], 1, true)
    else if page == [] then Course([], 1, false)
    else if |page| < 100 then Course(Drained(page), 1, false)
    else
      var rest := Ahead(items, ok, offset + 1);
      Course(Drained(page) + rest.values, rest.requests + 1, rest.raises)
  }

  /** The answer to one request, and what comes after it. */
  lemma AheadCases<T>(items: seq<T>, ok: nat -> bool, offset: nat)
    ensures var page, c := PageAt(items, offset), Ahead(items, ok, offset);
      if !ok(offset) then c == Course([], 1, true)
      else if page == [] then c == Course([], 1, false)
      else
        var rest := if |page| < 100 then Course([], 0, false) else Ahead(items, ok, offset + 1);
        c == Course(Drained(page) + rest.values, rest.requests + 1, rest.raises)
  {
    var page := PageAt(items, offset);
    assert Drained(page) + [] == Drained(page);
  }

  lemma NothingBuffered<T>(c: Course<T>)
    ensures Pushed(Drained([]), c) == c
  {
    assert [] + c.values == c.values;
  }

  class PageGenerator<T(0)> {
    const items: seq<T>
    const ok: nat -> bool
    var offset: nat
    var buf: seq<T>
    var lastPage: bool
    var finished: bool
    var requests: nat

    constructor (items: seq<T>, ok: nat -> bool)
      ensures Remaining() == Ahead(items, ok, 0) && requests == 0
    {
      this.items := items;
      this.ok := ok;
      offset, buf, lastPage, finished, requests := 0, [], false, false, 0;
      new;
      assert Drained<T>([]) + Later().values == Later().values;
    }

    ghost function Later(): Course<T> reads this {
      if lastPage then Course([], 0, false) else Ahead(items, ok, offset)
    }

    ghost function Remaining(): Course<T> reads this {
      if finished then Course([], 0, false) else Pushed(Drained(buf), Later())
    }

    /** The next page, into an empty buffer. */
    method FetchPage() returns (raised: bool)
      requires !finished && buf == [] && !lastPage
      modifies this
      ensures var c := Ahead(items, ok, old(offset));
        requests == old(requests) + 1 && (raised <==> c.raises && !ok(old(offset))) &&
        (finished <==> buf == []) && (raised ==> finished) &&
        (finished ==> c == Course([], 1, raised)) &&
        (!finished ==> c == Course(Drained(buf) + Later().values, Later().requests + 1, Later().raises))
    {
      AheadCases(items, ok, offset);
      requests := requests + 1;
      if !ok(offset) {
        finished := true;
        return true;
      }
      buf := PageAt(items, offset);
      lastPage := |buf| < 100;
      if |buf| == 0 {
        finished := true;
        return false;
      }
      offset := offset + 1;
      raised := false;
    }

    /** Up to the next value to yield, or the end. */
    method Fetch() returns (raised: bool)
      requires !finished
      modifies this
      ensures var c := old(Remaining());
        (raised <==> finished && c.values == [] && c.raises) &&
        Remaining().values == c.values && (!raised ==> Remaining().raises == c.raises) &&
        requests + Remaining().requests == old(requests) + c.requests &&
        (finished || buf != [])
    {
      raised := false;
      if |buf| == 0 {
        NothingBuffered(Later());
        if !lastPage {
          raised := FetchPage();
        } else {
          finished := true;
        }
      }
    }

    method Next() returns (r: Step<T>)
      modifies this
      ensures var c := old(Remaining());
        (match r
         case Yield(v) => c.values != [] && v == c.values[0] && Remaining().values == c.values[1..] &&
           Remaining().raises == c.raises
         case Stop => c.values == [] && !c.raises && finished
         case Raise => c.values == [] && c.raises && finished) &&
        requests + Remaining().requests == old(requests) + c.requests
    {
      if finished {
        return Stop;
      }
      var raised := Fetch();
      if raised {
        return Raise;
      }
      if finished {
        return Stop;
      }
      Popped(buf, Later().values);
      r := Yield(buf[|buf| - 1]);
      buf := buf[..|buf| - 1];
    }
  }

  /** Appends what a generator yields, to its end. */
  method Collect<T(0)>(gen: PageGenerator<T>) returns (branches: seq<T>, raised: bool)
    modifies gen
    ensures var c := old(gen.Remaining());
      gen.requests == old(gen.requests) + c.requests && raised == c.raises && (!raised ==> branches == c.values)
  {
    ghost var c, asked := gen.Remaining(), gen.requests;
    branches := [];
    var step := gen.Next();
    while step.Yield?
      invariant gen.requests + gen.Remaining().requests == asked + c.requests
      invariant match step
        case Yield(v) =>
          branches + [v] + gen.Remaining().values == c.values && gen.Remaining().raises == c.raises
        case Stop => branches == c.values && !c.raises && gen.finished
        case Raise => c.raises && gen.finished
      decreases if step.Yield? then |gen.Remaining().values| + 1 else 0
    {
      branches := branches + [step.value];
      ghost var rest := gen.Remaining().values;
      step := gen.Next();
      if step.Yield? {
        assert rest == [step.value] + gen.Remaining().values;
        JoinsRegroup(branches, [step.value], gen.Remaining().values);
      } else {
        assert branches + [] == branches;
      }
    }
    raised := step.Raise?;
  }

  /** `_get_protected_branches` collects what the generator yields; an exception loses all of it. */
  method GetBranches<T(0)>(items: seq<T>, ok: nat -> bool) returns (branches: seq<T>, requests: nat, raised: bool)
    ensures var c := Ahead(items, ok, 0);
      requests == c.requests && raised == c.raises && (!raised ==> branches == c.values)
  {
    var gen := new PageGenerator(items, ok);
    branches, raised := Collect(gen);
    requests := gen.requests;
  }

  // ---------- the plain list ----------

  /** A page drained from its end hands out its `i`-th item `i` places before the last. */
  lemma {:induction false} DrainedMirrors<T>(page: seq<T>, i: nat)
    requires i < |page|
    ensures |Drained(page)| == |page| && Drained(page)[|page| - 1 - i] == page[i]
  {
    var front := page[..|page| - 1];
    DrainedSize(front);
    if i < |front| {
      DrainedMirrors(front, i);
    }
  }

  /** Where the item at `i` comes out: mirrored within its page. */
  function Mirrored(n: nat, i: nat): (m: nat)
    requires i < n
    ensures m < n
  {
    if n < 100 then n - 1 - i
    else if i < 100 then 100 - 1 - i
    else 100 + Mirrored(n - 100, i - 100)
  }

  lemma {:induction false} MirroredTwice(n: nat, i: nat)
    requires i < n
    ensures Mirrored(n, Mirrored(n, i)) == i
  {
    if n >= 100 && i >= 100 {
      MirroredTwice(n - 100, i - 100);
    }
  }

  lemma {:induction false} MirroredInPage(n: nat, i: nat)
    requires i < n
    ensures Mirrored(n, i) / 100 == i / 100
  {
    if n >= 100 && i >= 100 {
      var m := Mirrored(n - 100, i - 100);
      MirroredInPage(n - 100, i - 100);
      assert (m + 100) / 100 == m / 100 + 1 && i / 100 == (i - 100) / 100 + 1;
    }
  }

  /** The plain list with every page reversed. */
  function Turned<T>(s: seq<T>): seq<T> {
    if |s| < 100 then Drained(s) else Drained(s[..100]) + Turned(s[100..])
  }

  lemma InFront<T>(page: seq<T>, rest: seq<T>, i: nat)
    requires i < |page|
    ensures var all := Drained(page) + rest; |page| - 1 - i < |all| && all[|page| - 1 - i] == page[i]
  {
    DrainedMirrors(page, i);
  }

  lemma Behind<T>(front: seq<T>, rest: seq<T>, k: nat)
    requires k < |rest|
    ensures (front + rest)[|front| + k] == rest[k]
  {
  }

  /** The item at `i` comes out at its mirrored place. */
  lemma {:induction false} TurnedAt<T>(s: seq<T>, i: nat)
    requires i < |s|
    ensures |Turned(s)| == |s| && Turned(s)[Mirrored(|s|, i)] == s[i]
    decreases |s|, 1
  {
    TurnedSize(s);
    if |s| < 100 {
      DrainedMirrors(s, i);
    } else if i < 100 {
      InFront(s[..100], Turned(s[100..]), i);
    } else {
      TurnedLater(s, i);
    }
  }

  lemma {:induction false} TurnedLater<T>(s: seq<T>, i: nat)
    requires 100 <= i < |s|
    ensures |Turned(s)| == |s| && Turned(s)[Mirrored(|s|, i)] == s[i]
    decreases |s|, 0
  {
    var front, rest := Drained(s[..100]), s[100..];
    var k := Mirrored(|s| - 100, i - 100);
    TurnedSize(s);
    DrainedSize(s[..100]);
    TurnedAt(rest, i - 100);
    assert rest[i - 100] == s[i];
    Behind(front, Turned(rest), k);
  }

  lemma {:induction false} TurnedSize<T>(s: seq<T>)
    ensures |Turned(s)| == |s|
  {
    if |s| < 100 {
      DrainedSize(s);
    } else {
      DrainedSize(s[..100]);
      TurnedSize(s[100..]);
    }
  }

  lemma {:induction false} AheadIs<T>(items: seq<T>, ok: nat -> bool, offset: nat, full: nat)
    requires forall k :: ok(k)
    requires offset <= full && 100 * full <= |items| < 100 * full + 100
    ensures Ahead(items, ok, offset) == Course(Turned(items[100 * offset..]), full + 1 - offset, false)
    decreases full - offset
  {
    var left := items[100 * offset..];
    if offset < full {
      AheadIs(items, ok, offset + 1, full);
      assert left[100..] == items[100 * (offset + 1)..];
      assert PageAt(items, offset) == left[..100];
    } else {
      assert PageAt(items, offset) == left;
    }
  }

  /** Paging refines the plain list: with ok answers every item comes out exactly once, the pages in
      order and each reversed, after one request more than there are full pages. */
  lemma PagingIsExact<T>(items: seq<T>, ok: nat -> bool)
    requires forall k :: ok(k)
    ensures var c := Ahead(items, ok, 0);
      !c.raises && c.requests == |items| / 100 + 1 && |c.values| == |items| &&
      forall i :: 0 <= i < |items| ==>
        c.values[Mirrored(|items|, i)] == items[i] && Mirrored(|items|, Mirrored(|items|, i)) == i
  {
    AheadIs(items, ok, 0, |items| / 100);
    assert items[100 * 0..] == items;
    TurnedSize(items);
    forall i | 0 <= i < |items|
      ensures Turned(items)[Mirrored(|items|, i)] == items[i] && Mirrored(|items|, Mirrored(|items|, i)) == i
    {
      TurnedAt(items, i);
      MirroredTwice(|items|, i);
    }
  }

  /** It raises exactly when one of the answers it asks for is not ok. */
  lemma {:induction false} RaisesIff<T>(items: seq<T>, ok: nat -> bool, offset: nat)
    requires 100 * offset <= |items|
    ensures Ahead(items, ok, offset).raises <==> exists k: nat :: offset <= k <= |items| / 100 && !ok(k)
    decreases |items| - 100 * offset
  {
    var last := |items| / 100;
    PageSize(items, offset);
    if !ok(offset) {
      assert offset <= last;
    } else if offset < last {
      RaisesIff(items, ok, offset + 1);
    }
  }

  lemma PageSize<T>(items: seq<T>, offset: nat)
    requires 100 * offset <= |items|
    ensures offset <= |items| / 100
    ensures |PageAt(items, offset)| == 100 <==> offset < |items| / 100
  {
  }
}
