/** What the modules share: optional values, small arithmetic, and lists handed out from their end. */
module Common {

  datatype Option<+T> = None | Some(value: T)

  function Min(a: int, b: int): int {
    if a <= b then a else b
  }

  function Max(a: int, b: int): int {
    if a >= b then a else b
  }

  function One(b: bool): nat {
    if b then 1 else 0
  }

  function Sum(s: seq<int>): int {
    if s == [] then 0 else Sum(s[..|s| - 1]) + s[|s| - 1]
  }

  lemma JoinsRegroup<T>(a: seq<T>, b: seq<T>, c: seq<T>)
    ensures a + (b + c) == a + b + c
  {
  }

  // ---------- lists popped from their end ----------

  function Drained<T>(s: seq<T>): seq<T> {
    if s == [] then [] else [s[|s| - 1]] + Drained(s[..|s| - 1])
  }

  lemma {:induction false} DrainedSize<T>(s: seq<T>)
    ensures |Drained(s)| == |s|
  {
    if s != [] {
      DrainedSize(s[..|s| - 1]);
    }
  }

  /** Popping the last of a buffer takes the first of what is still to come. */
  lemma Popped<T>(buf: seq<T>, rest: seq<T>)
    requires buf != []
    ensures var all := Drained(buf) + rest;
      all != [] && all[0] == buf[|buf| - 1] && all[1..] == Drained(buf[..|buf| - 1]) + rest
  {
    Front(buf[|buf| - 1], Drained(buf[..|buf| - 1]), rest);
  }

  lemma Front<T>(x: T, a: seq<T>, b: seq<T>)
    ensures var all := [x] + a + b; all[0] == x && all[1..] == a + b
  {
  }
}
