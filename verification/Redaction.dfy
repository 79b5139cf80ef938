/** Masking secrets in log messages. */
module Redaction {

  /** Where a group of a match lies; a group that took no part is at (-1, -1). */
  datatype Span = Span(start: int, end: int)

  ghost predicate SpanOf(s: Span, msg: string) {
    (s.start == -1 && s.end == -1) || 0 <= s.start <= s.end <= |msg|
  }

  /** Where a Python slice bound lands: negative bounds count from the end. */
  function Bound(msg: string, i: int): (b: nat)
    ensures b <= |msg|
  {
    var k := if i < 0 then |msg| + i else i;
    if k < 0 then 0 else if k > |msg| then |msg| else k
  }

  function Stars(n: int): (s: string)
    ensures |s| == (if n < 0 then 0 else n) && forall k :: 0 <= k < |s| ==> s[k] == '*'
    decreases n
  {
    if n <= 0 then "" else Stars(n - 1) + "*"
  }

  ghost predicate Covers(s: Span, k: int) {
    s.start <= k < s.end
  }

  ghost predicate Covered(matches: seq<seq<Span>>, k: int) {
    exists m, g :: 0 <= m < |matches| && 0 <= g < |matches[m]| && Covers(matches[m][g], k)
  }

  method MaskGroup(msg: string, s: Span) returns (masked: string)
    requires SpanOf(s, msg)
    ensures |masked| == |msg|
    ensures forall k :: 0 <= k < |msg| ==> masked[k] == if Covers(s, k) then '*' else msg[k]
  {
    masked := msg[..Bound(msg, s.start)] + Stars(s.end - s.start) + msg[Bound(msg, s.end)..];
  }

  /** The message keeps its length, exactly the spans of groups that took part become stars, and a group
      that did not leaves the text as it was. */
  method Format(message: string, matches: seq<seq<Span>>) returns (msg: string)
    requires forall m, g :: 0 <= m < |matches| && 0 <= g < |matches[m]| ==> SpanOf(matches[m][g], message)
    ensures |msg| == |message|
    ensures forall k :: 0 <= k < |message| ==> msg[k] == if Covered(matches, k) then '*' else message[k]
  {
    msg := message;
    var m := 0;
    while m < |matches|
      invariant 0 <= m <= |matches| && |msg| == |message|
      invariant forall k :: 0 <= k < |message| ==> msg[k] == if Covered(matches[..m], k) then '*' else message[k]
    {
      var g := 0;
      ghost var before := msg;
      while g < |matches[m]|
        invariant 0 <= g <= |matches[m]| && |msg| == |message|
        invariant forall k :: 0 <= k < |message| ==>
          msg[k] == if Covered(matches[..m], k) || CoveredIn(matches[m][..g], k) then '*' else message[k]
      {
        msg := MaskGroup(msg, matches[m][g]);
        forall k
          ensures CoveredIn(matches[m][..g + 1], k) <==> CoveredIn(matches[m][..g], k) || Covers(matches[m][g], k) {
          NextGroup(matches[m], g, k);
        }
        g := g + 1;
      }
      assert matches[m][..g] == matches[m];
      forall k ensures Covered(matches[..m + 1], k) <==> Covered(matches[..m], k) || CoveredIn(matches[m], k) {
        NextMatch(matches, m, k);
      }
      m := m + 1;
    }
    assert matches[..m] == matches;
  }

  ghost predicate CoveredIn(groups: seq<Span>, k: int) {
    exists g :: 0 <= g < |groups| && Covers(groups[g], k)
  }

  lemma NextGroup(groups: seq<Span>, g: nat, k: int)
    requires g < |groups|
    ensures CoveredIn(groups[..g + 1], k) <==> CoveredIn(groups[..g], k) || Covers(groups[g], k)
  {
    if CoveredIn(groups[..g], k) {
      var i :| 0 <= i < g && Covers(groups[..g][i], k);
      assert Covers(groups[..g + 1][i], k);
    }
    if Covers(groups[g], k) {
      assert Covers(groups[..g + 1][g], k);
    }
    if CoveredIn(groups[..g + 1], k) && !Covers(groups[g], k) {
      var i :| 0 <= i < g + 1 && Covers(groups[..g + 1][i], k);
      assert Covers(groups[..g][i], k);
    }
  }

  lemma NextMatch(matches: seq<seq<Span>>, m: nat, k: int)
    requires m < |matches|
    ensures Covered(matches[..m + 1], k) <==> Covered(matches[..m], k) || CoveredIn(matches[m], k)
  {
    if Covered(matches[..m], k) {
      var i, g :| 0 <= i < m && 0 <= g < |matches[..m][i]| && Covers(matches[..m][i][g], k);
      assert Covers(matches[..m + 1][i][g], k);
    }
    if CoveredIn(matches[m], k) {
      var g :| 0 <= g < |matches[m]| && Covers(matches[m][g], k);
      assert Covers(matches[..m + 1][m][g], k);
    }
    if Covered(matches[..m + 1], k) && !CoveredIn(matches[m], k) {
      var i, g :| 0 <= i < m + 1 && 0 <= g < |matches[..m + 1][i]| && Covers(matches[..m + 1][i][g], k);
      assert i < m && Covers(matches[..m][i][g], k);
    }
  }
}
